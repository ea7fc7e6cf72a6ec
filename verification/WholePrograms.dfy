/**
 Whole programs: texts that are compiled and loaded one after the other. On the
 blocks that CompileBlock makes of them a call of any function does what the source
 means, through any number of calls between functions and between texts, recursive
 ones included.
 */
module WholePrograms {
  import opened Wrappers
  import opened Lexemes
  import opened Expressions
  import opened ExpressionTrees
  import opened StackMachine
  import opened Blocks
  import opened Statements
  import opened Programs
  import opened ProgramMeaning
  import opened Declarations
  import opened CompiledTexts
  import opened Calls
  import opened TextPrograms

  // ----- blocks that hold a program -----

  ghost predicate FuncLoaded(texts: Texts, prog: Program, k: Home)
    requires prog.Has(k)
  {
    var p := prog.At(k);
    && k.text < |texts| && 0 < k.block < |texts[k.text]| && HeadOf(texts[k.text][k.block], p.d) && Refers(p.cx.vm + p.local, k, prog)
    && p.d.TailFits() && GoodStmts(p.cx, p.local, p.d.body) && Holds(p.cx, p.local, texts[k.text], 0, k.block, p.d.body, false)
  }

  /** The blocks of functions are those of the program. */
  ghost predicate AllLoaded(texts: Texts, prog: Program) {
    && (forall k: Home :: prog.Has(k) ==> FuncLoaded(texts, prog, k))
    && (forall k: Home :: k.text < |texts| && k.block < |texts[k.text]| && texts[k.text][k.block].info.FuncInfo? ==> prog.Has(k))
    && prog.roots == RootsOf(texts)
  }

  predicate ProperBody(p: Body) {
    RunnableAll(p.cx, p.local, p.d.body) && GoodStmts(p.cx, p.local, p.d.body) && Disciplined(p.cx, p.local, p.d.body, |p.d.results|)
  }

  /** Calls and assignments have the right number of values, functions with results
      return them on every path, and `break` and `continue` stand in loops. */
  predicate Proper(prog: Program) {
    forall t, b :: 0 <= t < |prog.bodies| && b in prog.bodies[t] ==> ProperBody(prog.bodies[t][b])
  }

  // ----- one call -----

  lemma LoadedAt(texts: Texts, prog: Program, k: Home)
    requires AllLoaded(texts, prog) && Proper(prog)
    ensures prog.roots == RootsOf(texts)
    ensures k.text < |texts| && k.block < |texts[k.text]| && texts[k.text][k.block].info.FuncInfo? ==> prog.Has(k)
    ensures prog.Has(k) ==> FuncLoaded(texts, prog, k) && ProperBody(prog.At(k))
  {
    hide FuncLoaded, ProperBody;
  }

  lemma StartingOwn<V, H>(h: Host<V, H>, b: Block, d: FuncDecl, args: seq<V>)
    requires HeadOf(b, d) && |args| == |d.params|
    ensures Starting(h, b.vars, args) == args + Initials(h, d.locals)
  {
    var l, r := Starting(h, b.vars, args), args + Initials(h, d.locals);
    assert |l| == |r|;
    forall k | 0 <= k < |l| ensures l[k] == r[k] {
      if k >= |args| { assert b.vars[k] == Types(d.locals)[k - |args|]; }
    }
  }

  /** The world in which the body of a function starts. */
  function Entered<V, H>(h: Host<V, H>, texts: Texts, k: Home, args: seq<V>, w: World<V, H>): World<V, H>
    requires k.text < |texts| && k.block < |texts[k.text]|
  {
    w.(frames := w.frames + [Vars(k, Starting(h, texts[k.text][k.block].vars, args))])
  }

  lemma EnteredRuns<V, H>(h: Host<V, H>, texts: Texts, k: Home, args: seq<V>, w: World<V, H>)
    requires k.text < |texts| && k.block < |texts[k.text]|
    ensures Running(Entered(h, texts, k, args, w), k, w.frames)
  {
  }

  /** What the machine does with the body of a function. */
  lemma {:induction false} BodyRuns<V(!new), H(!new)>(m: Semantics<V, World<V, H>>, texts: Texts, prog: Program, k: Home, args: seq<V>, w: World<V, H>, fuel: nat)
    requires Regular(m) && prog.Has(k) && FuncLoaded(texts, prog, k) && ProperBody(prog.At(k))
    ensures var p := prog.At(k);
            var n := |p.d.results|;
            var r, meant := CallBlock(m, texts[k.text], k.block, n, [], args, w, fuel), StmtsMeaning(m, p.cx, p.local, p.d.body, w, fuel);
            (r.Exit? <==> meant.Ends?) &&
            (r.Exit? ==> |r.stack| == n && r.stack == (if meant.how.Returned? then meant.how.values else []) && r.w == meant.w)
  {
    hide CallBlock, StmtsMeaning, RunnableAll, GoodStmts, Holds, Regular, Refers, HeadOf, NoStray, Widths, AlwaysReturns;
    var p := prog.At(k);
    var n := |p.d.results|;
    FunctionMeans(m, p.cx, p.local, texts[k.text], 0, k.block, p.d.body, [], args, n, w, fuel);
    StmtsEndWell(m, p.cx, p.local, p.d.body, n, w, fuel);
  }

  /** The compiler does not ask that every path returns: a call leaves as many values
      as its function declares exactly when the function declares none or a `return`
      ended it. */
  lemma {:induction false} ReturnsIff<V(!new), H(!new)>(m: Semantics<V, World<V, H>>, cx: Context, local: Env, blocks: seq<Block>, k: nat, ss: Stmts, n: nat,
      args: seq<V>, w: World<V, H>, fuel: nat)
    requires Regular(m) && RunnableAll(cx, local, ss) && GoodStmts(cx, local, ss) && Widths(cx, local, ss, n) && Holds(cx, local, blocks, 0, k, ss, false)
    ensures var r, meant := CallBlock(m, blocks, k, n, [], args, w, fuel), StmtsMeaning(m, cx, local, ss, w, fuel);
            (r.Exit? <==> meant.Ends?) && (r.Exit? ==> (|r.stack| == n <==> n == 0 || meant.how.Returned?))
  {
    hide CallBlock, StmtsMeaning, RunnableAll, GoodStmts, Implements, CodeLenAll, Regular, NoStray, Widths, AlwaysReturns;
    FunctionMeans(m, cx, local, blocks, 0, k, ss, [], args, n, w, fuel);
    StmtsEndWell(m, cx, local, ss, n, w, fuel);
  }

  /** A function leaves as many values as it declares. */
  lemma {:induction false} MachineRegular<V(!new), H(!new)>(h: Host<V, H>, texts: Texts, prog: Program, t: nat, depth: nat, fuel: nat)
    requires RegularHost(h) && AllLoaded(texts, prog) && Proper(prog)
    ensures Regular(MachineSem(h, texts, t, depth, fuel))
    decreases depth, 1
  {
    hide MachineCall, AllLoaded, Proper;
    var m := MachineSem(h, texts, t, depth, fuel);
    forall f: Func, args: seq<V>, w: World<V, H> | m.call(f, args, w).Some? ensures |m.call(f, args, w).value.0| == f.results {
      CallWidth(h, texts, prog, t, depth, fuel, f, args, w);
    }
  }

  lemma {:induction false} CallWidth<V(!new), H(!new)>(h: Host<V, H>, texts: Texts, prog: Program, t: nat, depth: nat, fuel: nat,
      f: Func, args: seq<V>, w: World<V, H>)
    requires RegularHost(h) && AllLoaded(texts, prog) && Proper(prog)
    ensures MachineCall(h, texts, t, depth, fuel, f, args, w).Some? ==> |MachineCall(h, texts, t, depth, fuel, f, args, w).value.0| == f.results
    decreases depth, 0
  {
    hide MachineSem, AllLoaded, Proper, CallBlock, StmtsMeaning, FuncLoaded, ProperBody, Starting, Callee, Gathered;
    if depth > 0 && !f.external && MachineCall(h, texts, t, depth, fuel, f, args, w).Some? {
      var k := Callee(RootsOf(texts), t, f);
      LoadedAt(texts, prog, k);
      MachineRegular(h, texts, prog, k.text, depth - 1, fuel);
      HeadAt(texts, prog, k);
      var given := Gathered(h, f, args).value;
      BodyRuns(MachineSem(h, texts, k.text, depth - 1, fuel), texts, prog, k, given, Entered(h, texts, k, given, w), fuel);
    }
  }

  lemma HeadAt(texts: Texts, prog: Program, k: Home)
    requires prog.Has(k) && FuncLoaded(texts, prog, k)
    ensures k.text < |texts| && 0 < k.block < |texts[k.text]| && HeadOf(texts[k.text][k.block], prog.At(k).d)
    ensures Refers(prog.At(k).cx.vm + prog.At(k).local, k, prog) && prog.At(k).d.TailFits()
  {
  }

  lemma {:induction false} FindTop<V, H>(w: World<V, H>, k: Home, below: seq<Vars<V>>)
    requires Running(w, k, below)
    ensures Find(w.frames, k) == Some(|w.frames| - 1)
  {
  }

  lemma {:induction false} VarsAgree<V(!new), H(!new)>(h: Host<V, H>, texts: Texts, prog: Program, depth: nat, fuel: nat, k: Home, below: seq<Vars<V>>)
    ensures SameVars(MachineSem(h, texts, k.text, depth, fuel), SourceSem(h, prog, k.text, depth, fuel), k, below)
  {
    hide MachineCall, SourceCall, Find;
    forall w: World<V, H> | Running(w, k, below) ensures Find(w.frames, k) == Some(|w.frames| - 1) { FindTop(w, k, below); }
  }

  lemma {:induction false} MachineAgrees<V(!new), H(!new)>(h: Host<V, H>, texts: Texts, prog: Program, depth: nat, fuel: nat, k: Home, below: seq<Vars<V>>)
    requires RegularHost(h) && AllLoaded(texts, prog) && Proper(prog)
    ensures Agree(MachineSem(h, texts, k.text, depth, fuel), SourceSem(h, prog, k.text, depth, fuel), prog, k, below)
    decreases depth, 1
  {
    hide MachineCall, SourceCall, AllLoaded, Proper, KnownFunc, SameVars;
    VarsAgree(h, texts, prog, depth, fuel, k, below);
    var m, m' := MachineSem(h, texts, k.text, depth, fuel), SourceSem(h, prog, k.text, depth, fuel);
    forall f: Func, args: seq<V>, w: World<V, H> | Running(w, k, below) && KnownFunc(prog, k.text, f)
      ensures m.call(f, args, w) == m'.call(f, args, w) && (m.call(f, args, w).Some? ==> Running(m.call(f, args, w).value.1, k, below))
    {
      CallMeans(h, texts, prog, k.text, depth, fuel, f, args, w);
    }
  }

  lemma HeadCallable(texts: Texts, prog: Program, k: Home, f: Func)
    requires prog.Has(k) && k.text < |texts| && k.block < |texts[k.text]| && HeadOf(texts[k.text][k.block], prog.At(k).d)
    requires f.params == |prog.At(k).d.params| && f.results == |prog.At(k).d.results| && f.variadic == prog.At(k).d.variadic
    ensures Callable(texts, k, f)
  {
  }

  /** A call on the machine is what the call means in the source, and the frames of
      the callers stay as they are. */
  lemma {:induction false} CallMeans<V(!new), H(!new)>(h: Host<V, H>, texts: Texts, prog: Program, t: nat, depth: nat, fuel: nat,
      f: Func, args: seq<V>, w: World<V, H>)
    requires RegularHost(h) && AllLoaded(texts, prog) && Proper(prog) && KnownFunc(prog, t, f)
    ensures var r := MachineCall(h, texts, t, depth, fuel, f, args, w);
            r == SourceCall(h, prog, t, depth, fuel, f, args, w) && (r.Some? ==> r.value.1.frames == w.frames)
    decreases depth, 0
  {
    hide MachineSem, SourceSem, AllLoaded, Proper, CallBlock, StmtsMeaning, FuncLoaded, Starting, Agree, Regular, Refers, RunnableAll, GoodStmts, Disciplined, Callee, Callable, Gathered, Bound;
    if depth > 0 && !f.external {
      var k := Callee(prog.roots, t, f);
      var p := prog.At(k);
      LoadedAt(texts, prog, k);
      HeadAt(texts, prog, k);
      HeadCallable(texts, prog, k, f);
      GatheredIsBound(h, p.d, f, args);
      var given := Gathered(h, f, args);
      if given.Some? && Takes(h, Types(p.d.params), given.value) {
        var args := given.value;
        var m, m', w1 := MachineSem(h, texts, k.text, depth - 1, fuel), SourceSem(h, prog, k.text, depth - 1, fuel), Entered(h, texts, k, args, w);
        MachineRegular(h, texts, prog, k.text, depth - 1, fuel);
        BodyRuns(m, texts, prog, k, args, w1, fuel);
        StartingOwn(h, texts[k.text][k.block], p.d, args);
        EnteredRuns(h, texts, k, args, w);
        MachineAgrees(h, texts, prog, depth - 1, fuel, k, w.frames);
        StmtsSame(m, m', prog, k, w.frames, p.cx, p.local, p.d.body, w1, fuel);
      }
    }
  }
}

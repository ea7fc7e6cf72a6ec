/**
 The compiler preserves the meaning of programs: the virtual machine, run on the
 blocks of a structured program, does what the program means, from every stack,
 in every world and with every supply of fuel.
 */
module ProgramMeaning {
  import opened Wrappers
  import opened Lexemes
  import opened Initializers
  import opened Expressions
  import opened ExpressionTrees
  import opened ExpressionCompilation
  import opened IndexAssignments
  import opened StackMachine
  import opened Blocks
  import opened Statements
  import opened Programs

  // ----- expressions inside blocks -----

  /** The commands of expressions. */
  predicate Plain(c: Code) {
    c.Push? || c.Var? || c.ExtendVar? || c.MapInit? || c.ArrayInit? || c.Un? || c.Bin? || c.Index? || c.Call? || c.CallVari?
  }

  predicate AllPlain(code: seq<Code>) {
    forall k :: 0 <= k < |code| ==> Plain(code[k])
  }

  lemma {:induction false} PostfixPlain(e: Expr, env: Env)
    requires Canonical(e, env)
    ensures AllPlain(Postfix(e, env))
    decreases e
  {
    match e
    case Paren(x) => PostfixPlain(x, env);
    case Element(_, x) => PostfixPlain(x, env);
    case Apply(_, args) => PostfixArgsPlain(args, env);
    case Prefix(_, x) => PostfixPlain(x, env);
    case Infix(_, _, l, r) => PostfixPlain(l, env); PostfixPlain(r, env);
    case _ =>
  }

  lemma {:induction false} PostfixArgsPlain(a: Args, env: Env)
    requires CanonicalArgs(a, env)
    ensures AllPlain(PostfixArgs(a, env))
    decreases a
  {
    if a.Arg? {
      PostfixPlain(a.e, env);
      PostfixArgsPlain(a.rest, env);
    }
  }

  lemma {:induction false} PlainStep<V, W>(m: Semantics<V, W>, blocks: seq<Block>, b: nat, f: Frame<V>, w: W, fuel: nat)
    requires b < |blocks| && f.ci < |blocks[b].code| && Plain(blocks[b].code[f.ci])
    ensures RunFrom(m, blocks, b, f, w, fuel) ==
            match Exec1(m, blocks[b].code[f.ci], f.stack, w)
            case None => Failed
            case Some((s, w1)) => RunFrom(m, blocks, b, f.(ci := f.ci + 1, stack := s), w1, fuel)
  {
    hide Exec1;
  }

  lemma {:induction false} PlainRun<V, W>(m: Semantics<V, W>, blocks: seq<Block>, b: nat, f: Frame<V>, seg: seq<Code>, w: W, fuel: nat)
    requires b < |blocks| && CodeAt(blocks[b].code, f.ci, seg) && AllPlain(seg)
    ensures RunFrom(m, blocks, b, f, w, fuel) ==
            match Exec(m, seg, f.stack, w)
            case None => Failed
            case Some((s, w1)) => RunFrom(m, blocks, b, f.(ci := f.ci + |seg|, stack := s), w1, fuel)
    decreases |seg|
  {
    hide RunFrom, Exec1, Plain;
    if seg == [] {
      assert f.(ci := f.ci + 0, stack := f.stack) == f;
    } else {
      assert blocks[b].code[f.ci] == seg[0];
      PlainStep(m, blocks, b, f, w, fuel);
      match Exec1(m, seg[0], f.stack, w) {
        case None =>
        case Some((s, w1)) =>
          var f1 := f.(ci := f.ci + 1, stack := s);
          assert CodeAt(blocks[b].code, f1.ci, seg[1..]);
          PlainRun(m, blocks, b, f1, seg[1..], w1, fuel);
      }
    }
  }

  /** The condition or the value of an expression. */
  lemma {:induction false} ExprMeans<V(!new), W(!new)>(m: Semantics<V, W>, blocks: seq<Block>, b: nat, f: Frame<V>, e: Expr, env: Env, w: W, fuel: nat)
    requires Regular(m) && Canonical(e, env) && Fits(e, env) && b < |blocks| && CodeAt(blocks[b].code, f.ci, Postfix(e, env))
    ensures RunFrom(m, blocks, b, f, w, fuel) ==
            match Value(m, e, env, w)
            case None => Failed
            case Some((v, w1)) => RunFrom(m, blocks, b, f.(ci := f.ci + |Postfix(e, env)|, stack := f.stack + [v]), w1, fuel)
  {
    hide RunFrom, Exec, Postfix, Value, AllPlain, CodeAt;
    PostfixPlain(e, env);
    PlainRun(m, blocks, b, f, Postfix(e, env), w, fuel);
    PostfixRuns(m, e, env, f.stack, w);
  }

  /** A call as a statement. */
  lemma {:induction false} AloneMeans<V(!new), W(!new)>(m: Semantics<V, W>, blocks: seq<Block>, b: nat, f: Frame<V>, e: Expr, env: Env, w: W, fuel: nat)
    requires Regular(m) && Canonical(e, env) && FitsAlone(e, env) && b < |blocks| && CodeAt(blocks[b].code, f.ci, Postfix(e, env))
    ensures RunFrom(m, blocks, b, f, w, fuel) ==
            match Results(m, e, env, w)
            case None => Failed
            case Some((vs, w1)) => RunFrom(m, blocks, b, f.(ci := f.ci + |Postfix(e, env)|, stack := f.stack + vs), w1, fuel)
  {
    hide RunFrom, Exec, Postfix, Results, AllPlain, CodeAt;
    PostfixPlain(e, env);
    PlainRun(m, blocks, b, f, Postfix(e, env), w, fuel);
    AnyRuns(m, e, env, f.stack, w);
  }

  lemma {:induction false} ArgsMean<V(!new), W(!new)>(m: Semantics<V, W>, blocks: seq<Block>, b: nat, f: Frame<V>, a: Args, env: Env, w: W, fuel: nat)
    requires Regular(m) && CanonicalArgs(a, env) && FitsList(a, env) && b < |blocks| && CodeAt(blocks[b].code, f.ci, PostfixArgs(a, env))
    ensures RunFrom(m, blocks, b, f, w, fuel) ==
            match Spread(m, a, env, w)
            case None => Failed
            case Some((vs, w1)) => RunFrom(m, blocks, b, f.(ci := f.ci + |PostfixArgs(a, env)|, stack := f.stack + vs), w1, fuel)
  {
    hide RunFrom, Exec, PostfixArgs, Spread, AllPlain, CodeAt;
    PostfixArgsPlain(a, env);
    PlainRun(m, blocks, b, f, PostfixArgs(a, env), w, fuel);
    SpreadRuns(m, a, env, f.stack, w);
  }

  // ----- what the machine does after a statement -----

  /** What a statement leaves behind besides its effect: values that nobody takes
      from the stack, labels that nobody jumps to, the places assigned last. */
  datatype Residue<+V> = Residue(values: seq<V>, labels: seq<nat>, assign: seq<Target>)

  function After<V, W>(m: Semantics<V, W>, blocks: seq<Block>, b: nat, f: Frame<V>, r: Result<V, W>, len: nat, x: Residue<V>): Exit<V, W>
    requires b < |blocks| && f.base <= |f.stack|
  {
    match r
    case Fails => Failed
    case OutOfFuel => Exhausted
    case Ends(how, w1, left) =>
      match how
      case Normally => RunFrom(m, blocks, b, Frame(f.base, f.ci + len, f.stack + x.values, f.labels + x.labels, x.assign), w1, left)
      case Broke => Exit(AtBreak, f.stack[..f.base], w1, left)
      case Continued => Exit(AtContinue, f.stack[..f.base], w1, left)
      case Returned(vs) => Exit(AtReturn, f.stack + x.values + vs, w1, left)
  }

  /** What a child block comes back with when it starts on `stack`. */
  function ChildExit<V, W>(stack: seq<V>, r: Result<V, W>, loop: bool, junk: seq<V>): Exit<V, W> {
    match r
    case Fails => Failed
    case OutOfFuel => Exhausted
    case Ends(how, w1, left) =>
      match how
      case Normally => Exit(if loop then AtContinue else AtNormal, stack, w1, left)
      case Broke => Exit(AtBreak, stack, w1, left)
      case Continued => Exit(AtContinue, stack, w1, left)
      case Returned(vs) => Exit(AtReturn, stack + junk + vs, w1, left)
  }

  // ----- single commands -----

  lemma {:induction false} AssignVarStep<V, W>(m: Semantics<V, W>, blocks: seq<Block>, b: nat, f: Frame<V>, w: W, fuel: nat)
    requires b < |blocks| && f.ci < |blocks[b].code| && blocks[b].code[f.ci].AssignVar?
    ensures RunFrom(m, blocks, b, f, w, fuel) ==
            RunFrom(m, blocks, b, f.(ci := f.ci + 1, assign := blocks[b].code[f.ci].targets), w, fuel)
  {
  }

  lemma {:induction false} AssignStep<V, W>(m: Semantics<V, W>, blocks: seq<Block>, b: nat, f: Frame<V>, stack: seq<V>, vs: seq<V>, w: W, fuel: nat)
    requires b < |blocks| && f.ci < |blocks[b].code| && blocks[b].code[f.ci].Assign?
    requires f.stack == stack + vs && |vs| == |f.assign|
    ensures RunFrom(m, blocks, b, f, w, fuel) ==
            match AssignAll(m, f.assign, vs, w)
            case None => Failed
            case Some(w1) => RunFrom(m, blocks, b, f.(ci := f.ci + 1), w1, fuel)
  {
    hide AssignAll;
    assert f.stack[|f.stack| - |vs|..] == vs;
  }

  lemma {:induction false} JumpStep<V, W>(m: Semantics<V, W>, blocks: seq<Block>, b: nat, f: Frame<V>, w: W, fuel: nat)
    requires b < |blocks| && f.ci < |blocks[b].code|
    ensures blocks[b].code[f.ci].Return? ==> RunFrom(m, blocks, b, f, w, fuel) == Exit(AtReturn, f.stack, w, fuel)
    ensures blocks[b].code[f.ci].Break? && f.base <= |f.stack| ==>
              RunFrom(m, blocks, b, f, w, fuel) == Exit(AtBreak, f.stack[..f.base], w, fuel)
    ensures blocks[b].code[f.ci].Continue? && f.base <= |f.stack| ==>
              RunFrom(m, blocks, b, f, w, fuel) == Exit(AtContinue, f.stack[..f.base], w, fuel)
  {
  }

  lemma {:induction false} EndStep<V, W>(m: Semantics<V, W>, blocks: seq<Block>, b: nat, f: Frame<V>, w: W, fuel: nat)
    requires b < |blocks| && f.ci >= |blocks[b].code| && f.base <= |f.stack|
    ensures RunFrom(m, blocks, b, f, w, fuel) == Exit(AtNormal, f.stack[..f.base], w, fuel)
  {
  }

  lemma {:induction false} LabelStep<V, W>(m: Semantics<V, W>, blocks: seq<Block>, b: nat, f: Frame<V>, w: W, fuel: nat)
    requires b < |blocks| && f.ci < |blocks[b].code| && blocks[b].code[f.ci].Label?
    ensures RunFrom(m, blocks, b, f, w, fuel) ==
            RunFrom(m, blocks, b, f.(ci := f.ci + 1, labels := f.labels + [f.ci]), w, fuel)
  {
  }

  /** `if` and `else` look at the condition, which stays on the stack. */
  lemma {:induction false} BranchStep<V, W>(m: Semantics<V, W>, blocks: seq<Block>, b: nat, f: Frame<V>, w: W, fuel: nat)
    requires b < |blocks| && f.ci < |blocks[b].code| && f.stack != []
    requires blocks[b].code[f.ci].If? || blocks[b].code[f.ci].Else?
    ensures RunFrom(m, blocks, b, f, w, fuel) ==
            if m.truth(f.stack[|f.stack| - 1]) == blocks[b].code[f.ci].If?
            then RunChild(m, blocks, b, blocks[b].code[f.ci].block, f, w, fuel)
            else RunFrom(m, blocks, b, f.(ci := f.ci + 1), w, fuel)
  {
    hide RunChild;
  }

  // ----- statements -----

  lemma {:induction false} AssignMeans<V(!new), W(!new)>(m: Semantics<V, W>, cx: Context, local: Env, blocks: seq<Block>, b: nat, f: Frame<V>, s: Stmt, w: W, fuel: nat)
      returns (x: Residue<V>)
    requires Regular(m) && Runnable(cx, local, s) && b < |blocks| && Stands(cx, local, blocks, b, f.ci, s) && f.base <= |f.stack|
    requires s.Assignment?
    ensures RunFrom(m, blocks, b, f, w, fuel) == After(m, blocks, b, f, StmtMeaning(m, cx, local, s, w, fuel), CodeLen(cx, local, s), x)
  {
    hide RunFrom, PostfixArgs, Spread, Width, AssignAll, CodeAt, CanonicalArgs, FitsList, StmtTargets;
    var a, env, ts, code := s.values, cx.vm + local, StmtTargets(local, s), blocks[b].code;
    var p := PostfixArgs(a, env);
    AssignLayout(code, f.ci, AssignVar(ts), p, Assign);
    x := Residue([], [], ts);
    AssignVarStep(m, blocks, b, f, w, fuel);
    var f1 := f.(ci := f.ci + 1, assign := ts);
    ArgsMean(m, blocks, b, f1, a, env, w, fuel);
    SpreadWidth(m, a, env, w);
    match Spread(m, a, env, w) {
      case None =>
      case Some((vs, w1)) =>
        x := Residue(vs, [], ts);
        AssignStep(m, blocks, b, f1.(ci := f1.ci + |p|, stack := f.stack + vs), f.stack, vs, w1, fuel);
        assert f.labels + [] == f.labels;
    }
  }

  lemma CodeIndex(code: seq<Code>, ci: nat, seg: seq<Code>, k: nat)
    requires CodeAt(code, ci, seg) && k < |seg|
    ensures ci + k < |code| && code[ci + k] == seg[k]
  {
    assert code[ci..ci + |seg|][k] == code[ci + k];
  }

  lemma SubCode(code: seq<Code>, ci: nat, seg: seq<Code>, a: nat, z: nat)
    requires CodeAt(code, ci, seg) && a <= z <= |seg|
    ensures CodeAt(code, ci + a, seg[a..z])
  {
    forall k | 0 <= k < z - a ensures code[ci + a..ci + z][k] == seg[a..z][k] {
      CodeIndex(code, ci, seg, a + k);
    }
  }

  lemma AssignLayout(code: seq<Code>, ci: nat, c: Code, p: seq<Code>, d: Code)
    requires CodeAt(code, ci, [c] + p + [d])
    ensures ci + 1 + |p| < |code| && code[ci] == c && code[ci + 1 + |p|] == d && CodeAt(code, ci + 1, p)
  {
    var seg := [c] + p + [d];
    CodeIndex(code, ci, seg, 0);
    CodeIndex(code, ci, seg, 1 + |p|);
    SubCode(code, ci, seg, 1, 1 + |p|);
    assert seg[1..1 + |p|] == p;
  }

  lemma LastLayout(code: seq<Code>, ci: nat, p: seq<Code>, d: Code)
    requires CodeAt(code, ci, p + [d])
    ensures ci + |p| < |code| && code[ci + |p|] == d && CodeAt(code, ci, p)
  {
    var seg := p + [d];
    CodeIndex(code, ci, seg, |p|);
    SubCode(code, ci, seg, 0, |p|);
    assert seg[0..|p|] == p;
  }

  lemma {:induction false} SimpleMeans<V(!new), W(!new)>(m: Semantics<V, W>, cx: Context, local: Env, blocks: seq<Block>, b: nat, f: Frame<V>, s: Stmt, w: W, fuel: nat)
      returns (x: Residue<V>)
    requires Regular(m) && Runnable(cx, local, s) && b < |blocks| && Stands(cx, local, blocks, b, f.ci, s) && f.base <= |f.stack|
    requires s.EmptyLine? || s.CallOnly? || s.Returning? || s.BreakOut? || s.NextTurn?
    ensures RunFrom(m, blocks, b, f, w, fuel) == After(m, blocks, b, f, StmtMeaning(m, cx, local, s, w, fuel), CodeLen(cx, local, s), x)
  {
    hide RunFrom, Postfix, PostfixArgs, Results, Spread;
    var env, code := cx.vm + local, blocks[b].code;
    x := Residue([], [], f.assign);
    assert f.labels + [] == f.labels && f.stack + [] == f.stack;
    match s {
      case CallOnly(n, args) =>
        var e := Apply(n, args);
        AloneMeans(m, blocks, b, f, e, env, w, fuel);
        if Results(m, e, env, w).Some? { x := Residue(Results(m, e, env, w).value.0, [], f.assign); }
      case Returning(a) =>
        LastLayout(code, f.ci, PostfixArgs(a, env), Return);
        ArgsMean(m, blocks, b, f, a, env, w, fuel);
        match Spread(m, a, env, w) {
          case None =>
          case Some((vs, w1)) => JumpStep(m, blocks, b, f.(ci := f.ci + |PostfixArgs(a, env)|, stack := f.stack + vs), w1, fuel);
        }
      case BreakOut => JumpStep(m, blocks, b, f, w, fuel);
      case NextTurn => JumpStep(m, blocks, b, f, w, fuel);
      case EmptyLine =>
    }
  }

  lemma {:induction false} StoreStep<V, W>(m: Semantics<V, W>, blocks: seq<Block>, b: nat, f: Frame<V>, stack: seq<V>, x: V, k: V, v: V, w: W, fuel: nat)
    requires b < |blocks| && f.ci < |blocks[b].code| && blocks[b].code[f.ci].SetIndex? && f.stack == stack + [x] + [k] + [v]
    ensures RunFrom(m, blocks, b, f, w, fuel) ==
            match m.store(blocks[b].code[f.ci].t, x, k, v, w)
            case None => Failed
            case Some((y, w1)) => RunFrom(m, blocks, b, f.(ci := f.ci + 1, stack := stack + [y]), w1, fuel)
  {
    assert f.stack[..|f.stack| - 3] == stack;
  }

  lemma SetLayoutAt(code: seq<Code>, ci: nat, c: Code, p: seq<Code>, q: seq<Code>, d: Code)
    requires CodeAt(code, ci, [c] + p + q + [d])
    ensures ci + 1 + |p| + |q| < |code| && code[ci] == c && code[ci + 1 + |p| + |q|] == d
    ensures CodeAt(code, ci + 1, p) && CodeAt(code, ci + 1 + |p|, q)
  {
    var seg := [c] + p + q + [d];
    CodeIndex(code, ci, seg, 0);
    CodeIndex(code, ci, seg, 1 + |p| + |q|);
    SubCode(code, ci, seg, 1, 1 + |p|);
    SubCode(code, ci, seg, 1 + |p|, 1 + |p| + |q|);
    assert seg[1..1 + |p|] == p && seg[1 + |p|..1 + |p| + |q|] == q;
  }

  /** The first command of an assignment to an element reads the place. */
  lemma {:induction false} ReadMeans<V, W>(m: Semantics<V, W>, blocks: seq<Block>, b: nat, f: Frame<V>, x: Place, env: Env, w: W, fuel: nat)
    requires KnownPlace(x, env) && b < |blocks| && f.ci < |blocks[b].code| && blocks[b].code[f.ci] == ReadPlace(x, env)
    ensures RunFrom(m, blocks, b, f, w, fuel) ==
            match BaseValue(m, x, env, w)
            case None => Failed
            case Some(v) => RunFrom(m, blocks, b, f.(ci := f.ci + 1, stack := f.stack + [v]), w, fuel)
  {
    hide RunFrom;
    PlainStep(m, blocks, b, f, w, fuel);
  }

  lemma {:induction false} ElementMeans<V(!new), W(!new)>(m: Semantics<V, W>, cx: Context, local: Env, blocks: seq<Block>, b: nat, f: Frame<V>, s: Stmt, w: W, fuel: nat)
      returns (x: Residue<V>)
    requires Regular(m) && Runnable(cx, local, s) && b < |blocks| && Stands(cx, local, blocks, b, f.ci, s) && f.base <= |f.stack|
    requires s.ElementSet?
    ensures RunFrom(m, blocks, b, f, w, fuel) == After(m, blocks, b, f, StmtMeaning(m, cx, local, s, w, fuel), CodeLen(cx, local, s), x)
  {
    hide RunFrom, Postfix, Value, CodeAt, EvenRunsArgs, BadCallArgs, Fits;
    var env := cx.vm + local;
    var p, q := Postfix(s.index, env), Postfix(s.value, env);
    SetLayoutAt(blocks[b].code, f.ci, ReadPlace(s.base, env), p, q, SetIndex(ElementOf(s.base, env)));
    x := Residue([], [], f.assign);
    assert f.labels + [] == f.labels;
    ReadMeans(m, blocks, b, f, s.base, env, w, fuel);
    var base := BaseValue(m, s.base, env, w);
    if base.Some? {
      var f1 := f.(ci := f.ci + 1, stack := f.stack + [base.value]);
      ExprMeans(m, blocks, b, f1, s.index, env, w, fuel);
      match Value(m, s.index, env, w) {
        case None =>
        case Some((k, w1)) =>
          var f2 := f1.(ci := f1.ci + |p|, stack := f1.stack + [k]);
          ExprMeans(m, blocks, b, f2, s.value, env, w1, fuel);
          match Value(m, s.value, env, w1) {
            case None =>
            case Some((v, w2)) =>
              var f3 := f2.(ci := f2.ci + |q|, stack := f2.stack + [v]);
              StoreStep(m, blocks, b, f3, f.stack, base.value, k, v, w2, fuel);
              var r := m.store(ElementOf(s.base, env), base.value, k, v, w2);
              if r.Some? { x := Residue([r.value.0], [], f.assign); }
          }
      }
    }
  }

  lemma {:induction false} RaiseMeans<V(!new), W(!new)>(m: Semantics<V, W>, cx: Context, local: Env, blocks: seq<Block>, b: nat, f: Frame<V>, s: Stmt, w: W, fuel: nat)
    requires Regular(m) && Runnable(cx, local, s) && b < |blocks| && Stands(cx, local, blocks, b, f.ci, s) && s.Raising?
    ensures RunFrom(m, blocks, b, f, w, fuel) == Failed
  {
    hide RunFrom, Postfix, Value, CodeAt, EvenRunsArgs, BadCallArgs, Fits;
    var env := cx.vm + local;
    LastLayout(blocks[b].code, f.ci, Postfix(s.message, env), ErrorCmd(s.kind));
    ExprMeans(m, blocks, b, f, s.message, env, w, fuel);
    match Value(m, s.message, env, w) {
      case None =>
      case Some((v, w1)) => RaiseStep(m, blocks, b, f.(ci := f.ci + |Postfix(s.message, env)|, stack := f.stack + [v]), w1, fuel);
    }
  }

  lemma {:induction false} RaiseStep<V, W>(m: Semantics<V, W>, blocks: seq<Block>, b: nat, f: Frame<V>, w: W, fuel: nat)
    requires b < |blocks| && f.ci < |blocks[b].code| && blocks[b].code[f.ci].ErrorCmd?
    ensures RunFrom(m, blocks, b, f, w, fuel) == Failed
  {
  }

  // ----- blocks, conditions and loops -----

  lemma {:induction false} BodyMeans<V(!new), W(!new)>(m: Semantics<V, W>, cx: Context, local: Env, blocks: seq<Block>, b: nat, k: nat,
      body: Stmts, loop: bool, stack: seq<V>, w: W, fuel: nat) returns (junk: seq<V>)
    requires Regular(m) && RunnableAll(cx, local, body) && GoodStmts(cx, local, body) && Holds(cx, local, blocks, b, k, body, loop)
    ensures RunFrom(m, blocks, k, Frame(|stack|, 0, stack, [], []), w, fuel) ==
            ChildExit(stack, StmtsMeaning(m, cx, local, body, w, fuel), loop, junk)
    decreases fuel, body, 1
  {
    hide RunFrom, StmtsMeaning, Implements, CodeLenAll;
    var f := Frame(|stack|, 0, stack, [], []);
    var x := AllMeans(m, cx, local, blocks, k, f, body, w, fuel);
    junk := x.values;
    var r := StmtsMeaning(m, cx, local, body, w, fuel);
    assert stack[..|stack|] == stack;
    if r.Ends? && r.how.Normally? {
      var f1 := Frame(f.base, CodeLenAll(cx, local, body), stack + x.values, x.labels, x.assign);
      assert f.labels + x.labels == x.labels;
      assert f1.stack[..f1.base] == stack;
      if loop {
        JumpStep(m, blocks, k, f1, r.w, r.left);
      } else {
        EndStep(m, blocks, k, f1, r.w, r.left);
      }
    }
  }

  lemma {:induction false} AllMeans<V(!new), W(!new)>(m: Semantics<V, W>, cx: Context, local: Env, blocks: seq<Block>, b: nat, f: Frame<V>,
      ss: Stmts, w: W, fuel: nat) returns (x: Residue<V>)
    requires Regular(m) && RunnableAll(cx, local, ss) && GoodStmts(cx, local, ss)
    requires b < |blocks| && Implements(cx, local, blocks, b, f.ci, ss) && f.base <= |f.stack|
    ensures RunFrom(m, blocks, b, f, w, fuel) ==
            After(m, blocks, b, f, StmtsMeaning(m, cx, local, ss, w, fuel), CodeLenAll(cx, local, ss), x)
    decreases fuel, ss, 0
  {
    hide RunFrom, Stands, StmtMeaning, CodeLen, GoodStmt, Runnable;
    if ss.Done? {
      x := Residue([], [], f.assign);
      assert f.labels + [] == f.labels && f.stack + [] == f.stack;
    } else {
      x := StmtMeans(m, cx, local, blocks, b, f, ss.s, w, fuel);
      var r := StmtMeaning(m, cx, local, ss.s, w, fuel);
      if r.Ends? && r.how.Normally? {
        var f1 := Frame(f.base, f.ci + CodeLen(cx, local, ss.s), f.stack + x.values, f.labels + x.labels, x.assign);
        var y := AllMeans(m, cx, local, blocks, b, f1, ss.rest, r.w, r.left);
        x := Joined(m, blocks, b, f, f1, StmtsMeaning(m, cx, local, ss.rest, r.w, r.left), CodeLen(cx, local, ss.s),
                    CodeLenAll(cx, local, ss.rest), x, y);
      }
    }
  }

  /** What two statements leave behind is what both leave. */
  lemma {:induction false} Joined<V, W>(m: Semantics<V, W>, blocks: seq<Block>, b: nat, f: Frame<V>, f1: Frame<V>, r: Result<V, W>, len: nat, len1: nat, x: Residue<V>, y: Residue<V>)
      returns (z: Residue<V>)
    requires b < |blocks| && f.base <= |f.stack|
    requires f1 == Frame(f.base, f.ci + len, f.stack + x.values, f.labels + x.labels, x.assign)
    ensures After(m, blocks, b, f1, r, len1, y) == After(m, blocks, b, f, r, len + len1, z)
  {
    hide RunFrom;
    z := Residue(x.values + y.values, x.labels + y.labels, y.assign);
    assert f.stack + x.values + y.values == f.stack + z.values;
    assert f.labels + x.labels + y.labels == f.labels + z.labels;
    assert f1.stack[..f1.base] == f.stack[..f.base];
  }

  lemma {:induction false} StmtMeans<V(!new), W(!new)>(m: Semantics<V, W>, cx: Context, local: Env, blocks: seq<Block>, b: nat, f: Frame<V>,
      s: Stmt, w: W, fuel: nat) returns (x: Residue<V>)
    requires Regular(m) && Runnable(cx, local, s) && b < |blocks| && Stands(cx, local, blocks, b, f.ci, s) && f.base <= |f.stack|
    ensures RunFrom(m, blocks, b, f, w, fuel) == After(m, blocks, b, f, StmtMeaning(m, cx, local, s, w, fuel), CodeLen(cx, local, s), x)
    decreases fuel, s, 1
  {
    hide RunFrom, Stands, StmtMeaning, CodeLen, GoodStmt, Runnable, After;
    match s {
      case Assignment(_, _, _) => x := AssignMeans(m, cx, local, blocks, b, f, s, w, fuel);
      case Conditional(_, _) => x := ConditionalMeans(m, cx, local, blocks, b, f, s, w, fuel);
      case Alternative(_, _, _) => x := AlternativeMeans(m, cx, local, blocks, b, f, s, w, fuel);
      case Loop(_, _) => x := LoopMeans(m, cx, local, blocks, b, f, s, w, fuel);
      case ElementSet(_, _, _) => x := ElementMeans(m, cx, local, blocks, b, f, s, w, fuel);
      case Raising(_, _) =>
        RaiseMeans(m, cx, local, blocks, b, f, s, w, fuel);
        x := RaisedResidue(m, cx, local, blocks, b, f, s, w, fuel);
      case _ => x := SimpleMeans(m, cx, local, blocks, b, f, s, w, fuel);
    }
  }

  /** The block of a branch that is taken, and what follows it. */
  lemma {:induction false} BranchMeans<V(!new), W(!new)>(m: Semantics<V, W>, cx: Context, local: Env, blocks: seq<Block>, b: nat, f: Frame<V>,
      body: Stmts, w: W, fuel: nat) returns (x: Residue<V>)
    requires Regular(m) && RunnableAll(cx, local, body) && GoodStmts(cx, local, body) && b < |blocks| && f.base <= |f.stack|
    requires f.ci < |blocks[b].code| && (blocks[b].code[f.ci].If? || blocks[b].code[f.ci].Else?) && f.stack != []
    requires m.truth(f.stack[|f.stack| - 1]) == blocks[b].code[f.ci].If?
    requires Holds(cx, local, blocks, b, blocks[b].code[f.ci].block, body, false)
    ensures RunFrom(m, blocks, b, f, w, fuel) == After(m, blocks, b, f, StmtsMeaning(m, cx, local, body, w, fuel), 1, x)
    ensures var r := StmtsMeaning(m, cx, local, body, w, fuel); r.Ends? && r.how.Normally? ==> x.values == [] && x.labels == []
    decreases fuel, body, 2
  {
    hide RunFrom, StmtsMeaning;
    var k := blocks[b].code[f.ci].block;
    BranchStep(m, blocks, b, f, w, fuel);
    var junk := BodyMeans(m, cx, local, blocks, b, k, body, false, f.stack, w, fuel);
    var r := StmtsMeaning(m, cx, local, body, w, fuel);
    x := Residue(if r.Ends? && r.how.Normally? then [] else junk, [], f.assign);
    assert f.labels + [] == f.labels && f.stack + [] == f.stack;
  }

  lemma {:induction false} ConditionalMeans<V(!new), W(!new)>(m: Semantics<V, W>, cx: Context, local: Env, blocks: seq<Block>, b: nat, f: Frame<V>,
      s: Stmt, w: W, fuel: nat) returns (x: Residue<V>)
    requires Regular(m) && Runnable(cx, local, s) && b < |blocks| && Stands(cx, local, blocks, b, f.ci, s) && f.base <= |f.stack|
    requires s.Conditional?
    ensures RunFrom(m, blocks, b, f, w, fuel) == After(m, blocks, b, f, StmtMeaning(m, cx, local, s, w, fuel), CodeLen(cx, local, s), x)
    decreases fuel, s, 0
  {
    hide RunFrom, Postfix, Value, StmtsMeaning, Holds, CodeAt, GoodStmts, RunnableAll;
    var env := cx.vm + local;
    x := Residue([], [], f.assign);
    ExprMeans(m, blocks, b, f, s.cond, env, w, fuel);
    match Value(m, s.cond, env, w) {
      case None =>
      case Some((v, w1)) =>
        var f1 := f.(ci := f.ci + |Postfix(s.cond, env)|, stack := f.stack + [v]);
        if m.truth(v) {
          var y := BranchMeans(m, cx, local, blocks, b, f1, s.body, w1, fuel);
          x := Deeper(m, blocks, b, f, f1, StmtsMeaning(m, cx, local, s.body, w1, fuel), v, y);
        } else {
          BranchStep(m, blocks, b, f1, w1, fuel);
          x := Residue([v], [], f.assign);
          assert f.labels + [] == f.labels;
        }
    }
  }

  /** The condition lies below what the branch leaves. */
  lemma {:induction false} Deeper<V, W>(m: Semantics<V, W>, blocks: seq<Block>, b: nat, f: Frame<V>, f1: Frame<V>, r: Result<V, W>, v: V, y: Residue<V>)
      returns (x: Residue<V>)
    requires b < |blocks| && f.base <= |f.stack| && f1 == f.(ci := f1.ci, stack := f.stack + [v]) && f.ci <= f1.ci
    ensures forall n: nat :: After(m, blocks, b, f1, r, n, y) == After(m, blocks, b, f, r, f1.ci - f.ci + n, x)
  {
    hide RunFrom;
    x := Residue([v] + y.values, y.labels, y.assign);
    assert f.stack + [v] + y.values == f.stack + x.values;
    assert f1.stack[..f.base] == f.stack[..f.base];
  }

  lemma {:induction false} AlternativeMeans<V(!new), W(!new)>(m: Semantics<V, W>, cx: Context, local: Env, blocks: seq<Block>, b: nat, f: Frame<V>,
      s: Stmt, w: W, fuel: nat) returns (x: Residue<V>)
    requires Regular(m) && Runnable(cx, local, s) && b < |blocks| && Stands(cx, local, blocks, b, f.ci, s) && f.base <= |f.stack|
    requires s.Alternative?
    ensures RunFrom(m, blocks, b, f, w, fuel) == After(m, blocks, b, f, StmtMeaning(m, cx, local, s, w, fuel), CodeLen(cx, local, s), x)
    decreases fuel, s, 0
  {
    hide RunFrom, Postfix, Value, StmtsMeaning, Holds, CodeAt, GoodStmts, RunnableAll;
    var env := cx.vm + local;
    x := Residue([], [], f.assign);
    ExprMeans(m, blocks, b, f, s.cond, env, w, fuel);
    match Value(m, s.cond, env, w) {
      case None =>
      case Some((v, w1)) =>
        var f1 := f.(ci := f.ci + |Postfix(s.cond, env)|, stack := f.stack + [v]);
        if m.truth(v) {
          var y := BranchMeans(m, cx, local, blocks, b, f1, s.body, w1, fuel);
          ElseSkipped(m, blocks, b, f1, v, StmtsMeaning(m, cx, local, s.body, w1, fuel), y);
          x := Deeper(m, blocks, b, f, f1, StmtsMeaning(m, cx, local, s.body, w1, fuel), v, y);
        } else {
          BranchStep(m, blocks, b, f1, w1, fuel);
          var f2 := f1.(ci := f1.ci + 1);
          var y := BranchMeans(m, cx, local, blocks, b, f2, s.other, w1, fuel);
          x := Deeper(m, blocks, b, f, f2, StmtsMeaning(m, cx, local, s.other, w1, fuel), v, y);
        }
    }
  }

  /** After the block of a true condition the condition is on top again, and `else` is passed over. */
  lemma {:induction false} ElseSkipped<V, W>(m: Semantics<V, W>, blocks: seq<Block>, b: nat, f: Frame<V>, v: V, r: Result<V, W>, y: Residue<V>)
    requires b < |blocks| && f.base <= |f.stack| && f.stack != [] && f.stack[|f.stack| - 1] == v && m.truth(v)
    requires f.ci + 1 < |blocks[b].code| && blocks[b].code[f.ci + 1].Else?
    requires r.Ends? && r.how.Normally? ==> y.values == []
    ensures After(m, blocks, b, f, r, 1, y) == After(m, blocks, b, f, r, 2, y)
  {
    hide RunFrom;
    if r.Ends? && r.how.Normally? {
      assert f.stack + [] == f.stack;
      BranchStep(m, blocks, b, Frame(f.base, f.ci + 1, f.stack, f.labels + y.labels, y.assign), r.w, r.left);
    }
  }

  lemma {:induction false} RaisedResidue<V, W>(m: Semantics<V, W>, cx: Context, local: Env, blocks: seq<Block>, b: nat, f: Frame<V>, s: Stmt, w: W, fuel: nat)
      returns (x: Residue<V>)
    requires Runnable(cx, local, s) && b < |blocks| && f.base <= |f.stack| && s.Raising?
    ensures After(m, blocks, b, f, StmtMeaning(m, cx, local, s, w, fuel), CodeLen(cx, local, s), x) == Failed
  {
    hide RunFrom;
    x := Residue([], [], []);
  }

  /** A loop takes its condition from the stack; the block comes back with a status. */
  lemma {:induction false} WhileStep<V, W>(m: Semantics<V, W>, blocks: seq<Block>, b: nat, f: Frame<V>, stack: seq<V>, v: V, labels: seq<nat>, start: nat, w: W, fuel: nat)
    requires b < |blocks| && f.ci < |blocks[b].code| && blocks[b].code[f.ci].While?
    requires f.stack == stack + [v] && f.labels == labels + [start] && b < blocks[b].code[f.ci].block < |blocks|
    ensures RunFrom(m, blocks, b, f, w, fuel) ==
            if !m.truth(v) then RunFrom(m, blocks, b, f.(ci := f.ci + 1, stack := stack), w, fuel)
            else
              match RunFrom(m, blocks, blocks[b].code[f.ci].block, Frame(|stack|, 0, stack, [], []), w, fuel)
              case Failed => Failed
              case Exhausted => Exhausted
              case Exit(status, s, w1, left) =>
                match status
                case AtReturn => Exit(AtReturn, s, w1, left)
                case AtContinue =>
                  if left == 0 then Exhausted
                  else RunFrom(m, blocks, b, f.(ci := start, stack := s, labels := labels), w1, left - 1)
                case _ => RunFrom(m, blocks, b, f.(ci := f.ci + 1, stack := s, labels := labels), w1, left)
  {
    assert f.stack[..|f.stack| - 1] == stack && f.labels[..|f.labels| - 1] == labels;
  }

  lemma {:induction false} LoopMeans<V(!new), W(!new)>(m: Semantics<V, W>, cx: Context, local: Env, blocks: seq<Block>, b: nat, f: Frame<V>,
      s: Stmt, w: W, fuel: nat) returns (x: Residue<V>)
    requires Regular(m) && Runnable(cx, local, s) && b < |blocks| && Stands(cx, local, blocks, b, f.ci, s) && f.base <= |f.stack|
    requires s.Loop?
    ensures RunFrom(m, blocks, b, f, w, fuel) == After(m, blocks, b, f, StmtMeaning(m, cx, local, s, w, fuel), CodeLen(cx, local, s), x)
    decreases fuel, s, 0
  {
    hide RunFrom, Postfix, Value, StmtsMeaning, Implements, CodeLenAll, CodeAt, GoodStmts, RunnableAll;
    var env := cx.vm + local;
    x := Residue([], [], f.assign);
    LabelStep(m, blocks, b, f, w, fuel);
    var f1 := f.(ci := f.ci + 1, labels := f.labels + [f.ci]);
    ExprMeans(m, blocks, b, f1, s.cond, env, w, fuel);
    match Value(m, s.cond, env, w) {
      case None =>
      case Some((v, w1)) =>
        var f2 := f1.(ci := f1.ci + |Postfix(s.cond, env)|, stack := f.stack + [v]);
        var k := blocks[b].code[f2.ci].block;
        WhileStep(m, blocks, b, f2, f.stack, v, f.labels, f.ci, w1, fuel);
        assert f.labels + [] == f.labels && f.stack + [] == f.stack;
        if !m.truth(v) {
          x := Residue([], [f.ci], f.assign);
        } else {
          var junk := BodyMeans(m, cx, local, blocks, b, k, s.body, true, f.stack, w1, fuel);
          var r := StmtsMeaning(m, cx, local, s.body, w1, fuel);
          if r.Ends? && (r.how.Normally? || r.how.Continued?) && r.left > 0 {
            x := LoopMeans(m, cx, local, blocks, b, f, s, r.w, r.left - 1);
          } else {
            x := Residue(if r.Ends? && r.how.Returned? then junk else [], [], f.assign);
          }
        }
    }
  }

  // ----- functions -----

  /** The loop at the end of RunCode: the last `n` values are copied one by one to
      the places from `start` on. */
  function CopyDown<V>(stack: seq<V>, start: nat, n: nat): (r: seq<V>)
    requires start + n <= |stack|
    ensures |r| == |stack|
    decreases n
  {
    if n == 0 then stack else CopyDown(stack[start := stack[|stack| - n]], start + 1, n - 1)
  }

  lemma {:induction false} CopiedDown<V>(stack: seq<V>, start: nat, n: nat)
    requires start + n <= |stack|
    ensures CopyDown(stack, start, n)[..start + n] == stack[..start] + stack[|stack| - n..]
    decreases n
  {
    if n > 0 {
      var next := stack[start := stack[|stack| - n]];
      CopiedDown(next, start + 1, n - 1);
      assert next[..start + 1] == stack[..start] + [stack[|stack| - n]];
      assert next[|next| - (n - 1)..] == stack[|stack| - (n - 1)..];
      assert stack[|stack| - n..] == [stack[|stack| - n]] + stack[|stack| - (n - 1)..];
    }
  }

  /** The end of RunCode for the block of a function with `n` results: the last
      `n` values replace everything above `start`. With fewer values there the copying
      leaves the stack, which is a panic. */
  function FuncExit<V, W>(r: Exit<V, W>, start: nat, n: nat): Exit<V, W> {
    if !r.Exit? || start > |r.stack| then r
    else if r.status.AtReturn? then
      if start + n > |r.stack| then Failed else Exit(AtNormal, CopyDown(r.stack, start, n)[..start + n], r.w, r.left)
    else Exit(r.status, r.stack[..start], r.w, r.left)
  }

  /** What the caller of a function gets: the values of the `return` that ended it
      in place of the parameters. */
  ghost predicate Answers<V, W>(r: Exit<V, W>, meaning: Result<V, W>, stack: seq<V>, n: nat) {
    match meaning
    case Fails => r == Failed
    case OutOfFuel => r == Exhausted
    case Ends(how, w, left) =>
      (how.Returned? && |how.values| == n ==> r == Exit(AtNormal, stack + how.values, w, left)) &&
      (!how.Returned? ==> r.Exit? && r.stack == stack && r.w == w && r.left == left)
  }

  lemma {:induction false} ExitAnswers<V, W>(meaning: Result<V, W>, stack: seq<V>, params: seq<V>, junk: seq<V>, n: nat)
    ensures Answers(FuncExit(ChildExit(stack + params, meaning, false, junk), |stack|, n), meaning, stack, n)
  {
    var s := stack + params;
    assert s[..|stack|] == stack;
    if meaning.Ends? && meaning.how.Returned? && |meaning.how.values| == n {
      var t := s + junk + meaning.how.values;
      CopiedDown(t, |stack|, n);
      assert t[..|stack|] == stack && t[|t| - n..] == meaning.how.values;
    }
  }

  /** RunCode on the block of a function with `n` results; its parameters lie on top of the stack. */
  function CallBlock<V, W>(m: Semantics<V, W>, blocks: seq<Block>, b: nat, n: nat, stack: seq<V>, params: seq<V>, w: W, fuel: nat): Exit<V, W>
    requires b < |blocks|
  {
    var s := stack + params;
    FuncExit(RunFrom(m, blocks, b, Frame(|s|, 0, s, [], []), w, fuel), |stack|, n)
  }

  /** The main result: a block that holds the code of its statements leaves the
      world that the statements mean and answers with the values that they return. */
  lemma {:induction false} FunctionMeans<V(!new), W(!new)>(m: Semantics<V, W>, cx: Context, local: Env, blocks: seq<Block>, b: nat, k: nat,
      ss: Stmts, stack: seq<V>, params: seq<V>, n: nat, w: W, fuel: nat)
    requires Regular(m) && RunnableAll(cx, local, ss) && GoodStmts(cx, local, ss) && Holds(cx, local, blocks, b, k, ss, false)
    ensures Answers(CallBlock(m, blocks, k, n, stack, params, w, fuel), StmtsMeaning(m, cx, local, ss, w, fuel), stack, n)
  {
    hide RunFrom, StmtsMeaning, Implements, CodeLenAll, Answers;
    var junk := BodyMeans(m, cx, local, blocks, b, k, ss, false, stack + params, w, fuel);
    ExitAnswers(StmtsMeaning(m, cx, local, ss, w, fuel), stack, params, junk, n);
  }
}

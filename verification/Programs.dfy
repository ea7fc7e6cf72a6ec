/**
 The meaning of structured programs and of their code. The virtual machine runs
 a tree of blocks (RunCode in packages/script/vm.go): conditions stay on the
 stack, loops jump back to a label, and `break`, `continue` and `return` leave
 blocks with a status. The reference meaning knows none of this. Both count the
 repetitions of loops against the same supply of fuel, so that runs that do not
 end are compared as well.
 */
module Programs {
  import opened Wrappers
  import opened Lexemes
  import opened Initializers
  import opened Expressions
  import opened ExpressionTrees
  import opened ExpressionCompilation
  import opened IndexAssignments
  import opened StackMachine
  import opened Blocks
  import opened Statements

  // ----- the meaning of programs -----

  datatype Ending<+V> = Normally | Broke | Continued | Returned(values: seq<V>)

  datatype Result<+V, +W> = Ends(how: Ending<V>, w: W, left: nat) | Fails | OutOfFuel

  function AssignAll<V, W>(m: Semantics<V, W>, ts: seq<Target>, vs: seq<V>, w: W): Option<W>
    requires |ts| == |vs|
  {
    if ts == [] then Some(w)
    else
      var w1 :- m.assign(ts[0], vs[0], w);
      AssignAll(m, ts[1..], vs[1..], w1)
  }

  /** The places are assigned one after the other, each in the world that the one before it leaves. */
  lemma {:induction false} AssignsInOrder<V(!new), W(!new)>(m: Semantics<V, W>, ts: seq<Target>, vs: seq<V>, w: W, w': W)
    requires |ts| == |vs|
    ensures AssignAll(m, ts, vs, w) == Some(w') <==>
            exists ws: seq<W> :: |ws| == |ts| + 1 && ws[0] == w && ws[|ts|] == w' && Steps(m, ts, vs, ws)
    decreases |ts|
  {
    if ts == [] {
      var ws := [w];
      assert Steps(m, ts, vs, ws);
    } else {
      var r := m.assign(ts[0], vs[0], w);
      if r.Some? { AssignsInOrder(m, ts[1..], vs[1..], r.value, w'); }
      if AssignAll(m, ts, vs, w) == Some(w') {
        var rest: seq<W> :| |rest| == |ts| && rest[0] == r.value && rest[|ts| - 1] == w' && Steps(m, ts[1..], vs[1..], rest);
        StepsJoin(m, ts, vs, w, rest);
      }
      if ws: seq<W> :| |ws| == |ts| + 1 && ws[0] == w && ws[|ts|] == w' && Steps(m, ts, vs, ws) {
        assert StepAt(m, ts, vs, ws, 0);
        forall k | 0 <= k < |ts| - 1 ensures StepAt(m, ts[1..], vs[1..], ws[1..], k) {
          var j := k + 1;
          assert StepAt(m, ts, vs, ws, j);
        }
        assert Steps(m, ts[1..], vs[1..], ws[1..]);
      }
    }
  }

  ghost predicate StepAt<V(!new), W(!new)>(m: Semantics<V, W>, ts: seq<Target>, vs: seq<V>, ws: seq<W>, k: nat)
    requires |ts| == |vs| && |ws| == |ts| + 1 && k < |ts|
  {
    m.assign(ts[k], vs[k], ws[k]) == Some(ws[k + 1])
  }

  ghost predicate Steps<V(!new), W(!new)>(m: Semantics<V, W>, ts: seq<Target>, vs: seq<V>, ws: seq<W>)
    requires |ts| == |vs| && |ws| == |ts| + 1
  {
    forall k :: 0 <= k < |ts| ==> StepAt(m, ts, vs, ws, k)
  }

  lemma StepsJoin<V(!new), W(!new)>(m: Semantics<V, W>, ts: seq<Target>, vs: seq<V>, w: W, rest: seq<W>)
    requires |ts| == |vs| > 0 && |rest| == |ts| && m.assign(ts[0], vs[0], w) == Some(rest[0])
    requires Steps(m, ts[1..], vs[1..], rest)
    ensures var ws := [w] + rest; ws[0] == w && ws[|ts|] == rest[|ts| - 1] && Steps(m, ts, vs, ws)
  {
    var ws := [w] + rest;
    forall k | 0 <= k < |ts| ensures StepAt(m, ts, vs, ws, k) {
      if k > 0 { assert StepAt(m, ts[1..], vs[1..], rest, k - 1); }
    }
  }

  function StmtTargets(local: Env, s: Stmt): (ts: seq<Target>)
    requires s.Assignment?
    ensures |ts| == 1 + |s.more|
  {
    PlaceTargetsSize(local, s.more);
    [PlaceTarget(local, s.first)] + PlaceTargets(local, s.more)
  }

  lemma PlaceTargetsSize(local: Env, xs: seq<Place>)
    ensures |PlaceTargets(local, xs)| == |xs|
  {
  }

  function BaseValue<V, W>(m: Semantics<V, W>, x: Place, env: Env, w: W): Option<V>
    requires KnownPlace(x, env)
  {
    match x case VarPlace(n) => m.variable(env[n].v, w) case OuterPlace(n) => m.outer(n, w)
  }

  /** `x[i] = e`: the place is read first, then the index, then the value. */
  function SetMeaning<V, W>(m: Semantics<V, W>, x: Place, i: Expr, e: Expr, env: Env, w: W): Option<(V, W)>
    requires KnownPlace(x, env) && Canonical(i, env) && Canonical(e, env)
  {
    var base :- BaseValue(m, x, env, w);
    var (k, w1) :- Value(m, i, env, w);
    var (v, w2) :- Value(m, e, env, w1);
    m.store(ElementOf(x, env), base, k, v, w2)
  }

  /** What the meaning demands beyond compilation: calls pass the arguments that
      functions take, operands have one value, and assignments have as many values
      as places. */
  predicate Runnable(cx: Context, local: Env, s: Stmt)
    decreases s
  {
    GoodStmt(cx, local, s) &&
    var env := cx.vm + local;
    match s
    case Assignment(_, xs, a) => FitsList(a, env) && Width(a, env) == 1 + |xs|
    case CallOnly(n, args) => FitsAlone(Apply(n, args), env)
    case Returning(a) => FitsList(a, env)
    case ElementSet(_, i, e) => Fits(i, env) && Fits(e, env)
    case Raising(_, e) => Fits(e, env)
    case Conditional(c, body) => Fits(c, env) && RunnableAll(cx, local, body)
    case Alternative(c, body, other) => Fits(c, env) && RunnableAll(cx, local, body) && RunnableAll(cx, local, other)
    case Loop(c, body) => Fits(c, env) && RunnableAll(cx, local, body)
    case _ => true
  }

  predicate RunnableAll(cx: Context, local: Env, ss: Stmts)
    decreases ss
  {
    ss.Done? || (Runnable(cx, local, ss.s) && RunnableAll(cx, local, ss.rest))
  }

  function StmtMeaning<V, W>(m: Semantics<V, W>, cx: Context, local: Env, s: Stmt, w: W, fuel: nat): (r: Result<V, W>)
    requires Runnable(cx, local, s)
    ensures r.Ends? ==> r.left <= fuel
    decreases fuel, s
  {
    var env := cx.vm + local;
    match s
    case EmptyLine => Ends(Normally, w, fuel)
    case Assignment(_, _, a) =>
      (match Spread(m, a, env, w)
       case None => Fails
       case Some((vs, w1)) =>
         if |vs| != 1 + |s.more| then Fails
         else
           match AssignAll(m, StmtTargets(local, s), vs, w1)
           case None => Fails
           case Some(w2) => Ends(Normally, w2, fuel))
    case CallOnly(n, args) =>
      (match Results(m, Apply(n, args), env, w) case None => Fails case Some((_, w1)) => Ends(Normally, w1, fuel))
    case Returning(a) =>
      (match Spread(m, a, env, w) case None => Fails case Some((vs, w1)) => Ends(Returned(vs), w1, fuel))
    case ElementSet(x, i, e) =>
      (match SetMeaning(m, x, i, e, env, w) case None => Fails case Some((_, w1)) => Ends(Normally, w1, fuel))
    case Raising(_, _) => Fails
    case BreakOut => Ends(Broke, w, fuel)
    case NextTurn => Ends(Continued, w, fuel)
    case Conditional(c, body) =>
      (match Value(m, c, env, w)
       case None => Fails
       case Some((v, w1)) => if m.truth(v) then StmtsMeaning(m, cx, local, body, w1, fuel) else Ends(Normally, w1, fuel))
    case Alternative(c, body, other) =>
      (match Value(m, c, env, w)
       case None => Fails
       case Some((v, w1)) => StmtsMeaning(m, cx, local, if m.truth(v) then body else other, w1, fuel))
    case Loop(c, body) =>
      (match Value(m, c, env, w)
       case None => Fails
       case Some((v, w1)) =>
         if !m.truth(v) then Ends(Normally, w1, fuel)
         else
           match StmtsMeaning(m, cx, local, body, w1, fuel)
           case Fails => Fails
           case OutOfFuel => OutOfFuel
           case Ends(how, w2, left) =>
             match how
             case Broke => Ends(Normally, w2, left)
             case Returned(vs) => Ends(Returned(vs), w2, left)
             case _ => if left == 0 then OutOfFuel else StmtMeaning(m, cx, local, s, w2, left - 1))
  }

  function StmtsMeaning<V, W>(m: Semantics<V, W>, cx: Context, local: Env, ss: Stmts, w: W, fuel: nat): (r: Result<V, W>)
    requires RunnableAll(cx, local, ss)
    ensures r.Ends? ==> r.left <= fuel
    decreases fuel, ss
  {
    match ss
    case Done => Ends(Normally, w, fuel)
    case Then(s, rest) =>
      match StmtMeaning(m, cx, local, s, w, fuel)
      case Ends(Normally, w1, left) => StmtsMeaning(m, cx, local, rest, w1, left)
      case r => r
  }

  // ----- the virtual machine -----

  datatype Status = AtNormal | AtReturn | AtContinue | AtBreak

  datatype Exit<+V, +W> = Exit(status: Status, stack: seq<V>, w: W, left: nat) | Failed | Exhausted

  /** A block is left: its part of the stack is dropped unless it holds the values of a `return`. */
  function Leaving<V, W>(status: Status, base: nat, stack: seq<V>, w: W, fuel: nat): Exit<V, W> {
    Exit(status, if status.AtReturn? || base > |stack| then stack else stack[..base], w, fuel)
  }

  datatype Frame<+V> = Frame(base: nat, ci: nat, stack: seq<V>, labels: seq<nat>, assign: seq<Target>)

  /** RunCode from command `f.ci` on. */
  function RunFrom<V, W>(m: Semantics<V, W>, blocks: seq<Block>, b: nat, f: Frame<V>, w: W, fuel: nat): (r: Exit<V, W>)
    requires b < |blocks|
    ensures r.Exit? ==> r.left <= fuel
    decreases fuel, |blocks| - b, if f.ci < |blocks[b].code| then |blocks[b].code| - f.ci else 0
  {
    var code, stack := blocks[b].code, f.stack;
    if f.ci >= |code| then Leaving(AtNormal, f.base, stack, w, fuel)
    else
      match code[f.ci]
      case If(k) =>
        if stack == [] then Failed
        else if m.truth(stack[|stack| - 1]) then RunChild(m, blocks, b, k, f, w, fuel)
        else RunFrom(m, blocks, b, f.(ci := f.ci + 1), w, fuel)
      case Else(k) =>
        if stack == [] then Failed
        else if !m.truth(stack[|stack| - 1]) then RunChild(m, blocks, b, k, f, w, fuel)
        else RunFrom(m, blocks, b, f.(ci := f.ci + 1), w, fuel)
      case While(k) =>
        if stack == [] || k <= b || k >= |blocks| then Failed
        else
          var rest := stack[..|stack| - 1];
          if !m.truth(stack[|stack| - 1]) then RunFrom(m, blocks, b, f.(ci := f.ci + 1, stack := rest), w, fuel)
          else
            (match RunFrom(m, blocks, k, Frame(|rest|, 0, rest, [], []), w, fuel)
             case Failed => Failed
             case Exhausted => Exhausted
             case Exit(status, s, w1, left) =>
               if f.labels == [] then Failed
               else
                 var f1 := f.(stack := s, labels := f.labels[..|f.labels| - 1]);
                 match status
                 case AtReturn => Leaving(AtReturn, f.base, s, w1, left)
                 case AtContinue =>
                   if left == 0 then Exhausted
                   else RunFrom(m, blocks, b, f1.(ci := f.labels[|f.labels| - 1]), w1, left - 1)
                 case _ => RunFrom(m, blocks, b, f1.(ci := f.ci + 1), w1, left))
      case Label => RunFrom(m, blocks, b, f.(ci := f.ci + 1, labels := f.labels + [f.ci]), w, fuel)
      case Continue => Leaving(AtContinue, f.base, stack, w, fuel)
      case Break => Leaving(AtBreak, f.base, stack, w, fuel)
      case Return => Leaving(AtReturn, f.base, stack, w, fuel)
      case AssignVar(ts) => RunFrom(m, blocks, b, f.(ci := f.ci + 1, assign := ts), w, fuel)
      case Assign =>
        var n := |f.assign|;
        if n > |stack| then Failed
        else
          (match AssignAll(m, f.assign, stack[|stack| - n..], w)
           case None => Failed
           case Some(w1) => RunFrom(m, blocks, b, f.(ci := f.ci + 1), w1, fuel))
      case ErrorCmd(_) => Failed
      case SetIndex(t) =>
        var n := |stack|;
        if n < 3 then Failed
        else
          (match m.store(t, stack[n - 3], stack[n - 2], stack[n - 1], w)
           case None => Failed
           case Some((v, w1)) => RunFrom(m, blocks, b, f.(ci := f.ci + 1, stack := stack[..n - 3] + [v]), w1, fuel))
      case c =>
        match Exec1(m, c, stack, w)
        case None => Failed
        case Some((s, w1)) => RunFrom(m, blocks, b, f.(ci := f.ci + 1, stack := s), w1, fuel)
  }

  /** The block of an `if` or `else`; a status other than the normal one leaves this block too. */
  function RunChild<V, W>(m: Semantics<V, W>, blocks: seq<Block>, b: nat, k: nat, f: Frame<V>, w: W, fuel: nat): (r: Exit<V, W>)
    requires b < |blocks| && f.ci < |blocks[b].code|
    ensures r.Exit? ==> r.left <= fuel
    decreases fuel, |blocks| - b, |blocks[b].code| - f.ci, 0
  {
    if k <= b || k >= |blocks| then Failed
    else
      match RunFrom(m, blocks, k, Frame(|f.stack|, 0, f.stack, [], []), w, fuel)
      case Failed => Failed
      case Exhausted => Exhausted
      case Exit(status, s, w1, left) =>
        if status.AtNormal? then RunFrom(m, blocks, b, f.(ci := f.ci + 1, stack := s), w1, left)
        else Leaving(status, f.base, s, w1, left)
  }

  // ----- what the code of a program looks like -----

  predicate CodeAt(code: seq<Code>, ci: nat, seg: seq<Code>) {
    ci + |seg| <= |code| && code[ci..ci + |seg|] == seg
  }

  /** The commands that a statement leaves in its own block. */
  function CodeLen(cx: Context, local: Env, s: Stmt): nat
    requires GoodStmt(cx, local, s)
  {
    var env := cx.vm + local;
    match s
    case EmptyLine => 0
    case Assignment(_, _, a) => |PostfixArgs(a, env)| + 2
    case CallOnly(n, args) => |Postfix(Apply(n, args), env)|
    case Returning(a) => |PostfixArgs(a, env)| + 1
    case ElementSet(_, i, e) => |Postfix(i, env)| + |Postfix(e, env)| + 2
    case Raising(_, e) => |Postfix(e, env)| + 1
    case Conditional(c, _) => |Postfix(c, env)| + 1
    case Alternative(c, _, _) => |Postfix(c, env)| + 2
    case Loop(c, _) => |Postfix(c, env)| + 2
    case _ => 1
  }

  function CodeLenAll(cx: Context, local: Env, ss: Stmts): nat
    requires GoodStmts(cx, local, ss)
  {
    match ss case Done => 0 case Then(s, rest) => CodeLen(cx, local, s) + CodeLenAll(cx, local, rest)
  }

  /** The block of `ss` ends with it, and with one `continue` if it belongs to a loop. */
  ghost predicate Holds(cx: Context, local: Env, blocks: seq<Block>, b: nat, k: nat, ss: Stmts, loop: bool)
    requires GoodStmts(cx, local, ss)
    decreases ss, 1
  {
    && b < k < |blocks| && Implements(cx, local, blocks, k, 0, ss)
    && CodeLenAll(cx, local, ss) + (if loop then 1 else 0) == |blocks[k].code|
    && (loop ==> Last(blocks[k].code) == Continue)
  }

  /** The code of `s` stands in block `b` from command `ci` on: the compositional
      translation, whatever the numbers of the blocks are. A loop leaves its label,
      its condition and one command, and no `continue` outside its block. */
  ghost predicate Stands(cx: Context, local: Env, blocks: seq<Block>, b: nat, ci: nat, s: Stmt)
    requires b < |blocks| && GoodStmt(cx, local, s)
    decreases s
  {
    var env, code := cx.vm + local, blocks[b].code;
    match s
    case EmptyLine => ci <= |code|
    case Assignment(_, _, a) => CodeAt(code, ci, [AssignVar(StmtTargets(local, s))] + PostfixArgs(a, env) + [Assign])
    case CallOnly(n, args) => CodeAt(code, ci, Postfix(Apply(n, args), env))
    case Returning(a) => CodeAt(code, ci, PostfixArgs(a, env) + [Return])
    case ElementSet(x, i, e) =>
      CodeAt(code, ci, [ReadPlace(x, env)] + Postfix(i, env) + Postfix(e, env) + [SetIndex(ElementOf(x, env))])
    case Raising(k, e) => CodeAt(code, ci, Postfix(e, env) + [ErrorCmd(k)])
    case BreakOut => CodeAt(code, ci, [Break])
    case NextTurn => CodeAt(code, ci, [Continue])
    case Conditional(c, body) =>
      var j := ci + |Postfix(c, env)|;
      j < |code| && CodeAt(code, ci, Postfix(c, env)) && code[j].If? && Holds(cx, local, blocks, b, code[j].block, body, false)
    case Alternative(c, body, other) =>
      var j := ci + |Postfix(c, env)|;
      j + 1 < |code| && CodeAt(code, ci, Postfix(c, env)) &&
      code[j].If? && Holds(cx, local, blocks, b, code[j].block, body, false) &&
      code[j + 1].Else? && Holds(cx, local, blocks, b, code[j + 1].block, other, false)
    case Loop(c, body) =>
      var j := ci + 1 + |Postfix(c, env)|;
      j < |code| && code[ci] == Label && CodeAt(code, ci + 1, Postfix(c, env)) &&
      code[j].While? && Holds(cx, local, blocks, b, code[j].block, body, true)
  }

  ghost predicate Implements(cx: Context, local: Env, blocks: seq<Block>, b: nat, ci: nat, ss: Stmts)
    requires b < |blocks| && GoodStmts(cx, local, ss)
    decreases ss, 0
  {
    match ss
    case Done => ci <= |blocks[b].code|
    case Then(s, rest) =>
      Stands(cx, local, blocks, b, ci, s) && Implements(cx, local, blocks, b, ci + CodeLen(cx, local, s), rest)
  }

  /** Block `b` may have grown, the blocks behind it are the same. */
  predicate Grown(a: seq<Block>, a': seq<Block>, b: nat) {
    b < |a| <= |a'| && a[b].code <= a'[b].code && forall k :: b < k < |a| ==> a'[k].code == a[k].code
  }

  lemma CodeAtKept(code: seq<Code>, code': seq<Code>, ci: nat, seg: seq<Code>)
    requires CodeAt(code, ci, seg) && code <= code'
    ensures CodeAt(code', ci, seg)
  {
  }

  lemma {:induction false} StandsKept(cx: Context, local: Env, a: seq<Block>, a': seq<Block>, b: nat, c: nat, ci: nat, s: Stmt)
    requires Grown(a, a', b) && b <= c < |a| && GoodStmt(cx, local, s) && Stands(cx, local, a, c, ci, s)
    ensures Stands(cx, local, a', c, ci, s)
    decreases s
  {
    hide Postfix, PostfixArgs, CodeAt, Holds, StmtTargets;
    var env, code := cx.vm + local, a[c].code;
    assert code <= a'[c].code;
    forall i: nat, seg | CodeAt(code, i, seg) ensures CodeAt(a'[c].code, i, seg) { CodeAtKept(code, a'[c].code, i, seg); }
    match s
    case Conditional(e, body) => HoldsKept(cx, local, a, a', b, c, code[ci + |Postfix(e, env)|].block, body, false);
    case Alternative(e, body, other) =>
      HoldsKept(cx, local, a, a', b, c, code[ci + |Postfix(e, env)|].block, body, false);
      HoldsKept(cx, local, a, a', b, c, code[ci + |Postfix(e, env)| + 1].block, other, false);
    case Loop(e, body) => HoldsKept(cx, local, a, a', b, c, code[ci + 1 + |Postfix(e, env)|].block, body, true);
    case _ =>
  }

  lemma {:induction false} HoldsKept(cx: Context, local: Env, a: seq<Block>, a': seq<Block>, b: nat, c: nat, k: nat, ss: Stmts, loop: bool)
    requires Grown(a, a', b) && b <= c && GoodStmts(cx, local, ss) && Holds(cx, local, a, c, k, ss, loop)
    ensures Holds(cx, local, a', c, k, ss, loop)
    decreases ss, 1
  {
    hide Implements, CodeLenAll;
    ImplementsKept(cx, local, a, a', b, k, 0, ss);
  }

  lemma {:induction false} ImplementsKept(cx: Context, local: Env, a: seq<Block>, a': seq<Block>, b: nat, c: nat, ci: nat, ss: Stmts)
    requires Grown(a, a', b) && b <= c < |a| && GoodStmts(cx, local, ss) && Implements(cx, local, a, c, ci, ss)
    ensures Implements(cx, local, a', c, ci, ss)
    decreases ss, 0
  {
    hide Stands, CodeLen, GoodStmt;
    if ss.Then? {
      StandsKept(cx, local, a, a', b, c, ci, ss.s);
      ImplementsKept(cx, local, a, a', b, c, ci + CodeLen(cx, local, ss.s), ss.rest);
    }
  }

  // ----- the reference translation produces this code -----

  /** What building a statement in block `b` achieves. */
  ghost predicate Added(cx: Context, local: Env, blocks: seq<Block>, bs: seq<Block>, b: nat, s: Stmt)
    requires GoodStmt(cx, local, s)
  {
    && Grown(blocks, bs, b)
    && Stands(cx, local, bs, b, |blocks[b].code|, s)
    && |bs[b].code| == |blocks[b].code| + CodeLen(cx, local, s)
  }

  ghost predicate AddedAll(cx: Context, local: Env, blocks: seq<Block>, bs: seq<Block>, b: nat, ss: Stmts)
    requires GoodStmts(cx, local, ss)
  {
    && Grown(blocks, bs, b)
    && Implements(cx, local, bs, b, |blocks[b].code|, ss)
    && |bs[b].code| == |blocks[b].code| + CodeLenAll(cx, local, ss)
  }

  lemma EmitAdds(blocks: seq<Block>, b: nat, code: seq<Code>)
    requires b < |blocks|
    ensures var bs := Emit(blocks, b, code);
            Grown(blocks, bs, b) && CodeAt(bs[b].code, |blocks[b].code|, code) && |bs[b].code| == |blocks[b].code| + |code|
  {
  }

  lemma {:induction false} OtherBlocks(cx: Context, local: Env, ss: Stmts, blocks: seq<Block>, b: nat)
    requires b < |blocks| && GoodStmts(cx, local, ss)
    ensures |blocks| <= |BuildAll(cx, local, ss, blocks, b)|
    ensures forall k :: 0 <= k < |blocks| && k != b ==> BuildAll(cx, local, ss, blocks, b)[k] == blocks[k]
  {
    hide BuildAll;
    forall k | 0 <= k < |blocks| && k != b ensures BuildAll(cx, local, ss, blocks, b)[k] == blocks[k] {
      BuildAllApart(cx, local, ss, blocks, b, k, []);
    }
  }

  /** A child block is built behind the code that refers to it. */
  lemma {:induction false} ChildAdded(cx: Context, local: Env, blocks: seq<Block>, b: nat, code: seq<Code>, body: Stmts)
    requires b < |blocks| && GoodStmts(cx, local, body)
    ensures var n := |blocks|;
            var bs := BuildAll(cx, local, body, Open(blocks, b, code), n);
            Grown(blocks, bs, b) && bs[b].code == blocks[b].code + code && Holds(cx, local, bs, b, n, body, false)
    decreases body, 1
  {
    var n, o := |blocks|, Open(blocks, b, code);
    BuildImplements(cx, local, o, n, body);
    OtherBlocks(cx, local, body, o, n);
    assert o[n].code == [];
  }

  lemma {:induction false} BuildImplements(cx: Context, local: Env, blocks: seq<Block>, b: nat, ss: Stmts)
    requires b < |blocks| && GoodStmts(cx, local, ss)
    ensures AddedAll(cx, local, blocks, BuildAll(cx, local, ss, blocks, b), b, ss)
    decreases ss, 0
  {
    hide Stands, CodeLen, Build, GoodStmt;
    if ss.Then? {
      var bs := Build(cx, local, ss.s, blocks, b);
      BuildStands(cx, local, blocks, b, ss.s);
      BuildImplements(cx, local, bs, b, ss.rest);
      StandsKept(cx, local, bs, BuildAll(cx, local, ss, blocks, b), b, b, |blocks[b].code|, ss.s);
    }
  }

  lemma {:induction false} BuildStands(cx: Context, local: Env, blocks: seq<Block>, b: nat, s: Stmt)
    requires b < |blocks| && GoodStmt(cx, local, s)
    ensures Added(cx, local, blocks, Build(cx, local, s, blocks, b), b, s)
    decreases s
  {
    hide Postfix, PostfixArgs, Emit, Open, CodeAt, BuildAll, Holds, PlaceTargets, PlaceTarget, GoodPlace;
    var env, n := cx.vm + local, |blocks|;
    match s {
      case Assignment(_, _, a) => EmitAdds(blocks, b, [AssignVar(StmtTargets(local, s))] + PostfixArgs(a, env) + [Assign]);
      case CallOnly(f, args) => EmitAdds(blocks, b, Postfix(Apply(f, args), env));
      case Returning(a) => EmitAdds(blocks, b, PostfixArgs(a, env) + [Return]);
      case ElementSet(x, i, e) =>
        EmitAdds(blocks, b, [ReadPlace(x, env)] + Postfix(i, env) + Postfix(e, env) + [SetIndex(ElementOf(x, env))]);
      case Raising(k, e) => EmitAdds(blocks, b, Postfix(e, env) + [ErrorCmd(k)]);
      case BreakOut => EmitAdds(blocks, b, [Break]);
      case NextTurn => EmitAdds(blocks, b, [Continue]);
      case Conditional(c, body) => ConditionalStands(cx, local, blocks, b, s);
      case Alternative(c, body, other) => AlternativeStands(cx, local, blocks, b, s);
      case Loop(c, body) => LoopStands(cx, local, blocks, b, s);
      case EmptyLine =>
    }
  }

  lemma {:induction false} ConditionalStands(cx: Context, local: Env, blocks: seq<Block>, b: nat, s: Stmt)
    requires b < |blocks| && GoodStmt(cx, local, s) && s.Conditional?
    ensures Added(cx, local, blocks, Build(cx, local, s, blocks, b), b, s)
    decreases s, 0
  {
    hide Postfix, Open, BuildAll, Holds, CodeAt;
    var env, n := cx.vm + local, |blocks|;
    var p := Postfix(s.cond, env);
    ChildAdded(cx, local, blocks, b, p + [If(n)], s.body);
    CodeBehind(blocks[b].code, p, [If(n)]);
  }

  lemma CodeBehind(code: seq<Code>, p: seq<Code>, tail: seq<Code>)
    ensures CodeAt(code + (p + tail), |code|, p)
    ensures forall k :: 0 <= k < |tail| ==> (code + (p + tail))[|code| + |p| + k] == tail[k]
  {
  }

  lemma {:induction false} AlternativeStands(cx: Context, local: Env, blocks: seq<Block>, b: nat, s: Stmt)
    requires b < |blocks| && GoodStmt(cx, local, s) && s.Alternative?
    ensures Added(cx, local, blocks, Build(cx, local, s, blocks, b), b, s)
    decreases s, 0
  {
    hide Postfix, Open, BuildAll, Holds, CodeAt;
    var env, n := cx.vm + local, |blocks|;
    var p := Postfix(s.cond, env);
    ChildAdded(cx, local, blocks, b, p + [If(n)], s.body);
    var mid := BuildAll(cx, local, s.body, Open(blocks, b, p + [If(n)]), n);
    ChildAdded(cx, local, mid, b, [Else(|mid|)], s.other);
    var bs := Build(cx, local, s, blocks, b);
    HoldsKept(cx, local, mid, bs, b, b, n, s.body, false);
    assert blocks[b].code + (p + [If(n)]) + [Else(|mid|)] == blocks[b].code + (p + [If(n), Else(|mid|)]);
    CodeBehind(blocks[b].code, p, [If(n), Else(|mid|)]);
  }

  lemma {:induction false} LoopStands(cx: Context, local: Env, blocks: seq<Block>, b: nat, s: Stmt)
    requires b < |blocks| && GoodStmt(cx, local, s) && s.Loop?
    ensures Added(cx, local, blocks, Build(cx, local, s, blocks, b), b, s)
    decreases s, 0
  {
    hide Postfix, Open, BuildAll, CodeAt, Holds;
    var env, n := cx.vm + local, |blocks|;
    var p := Postfix(s.cond, env);
    var code := [Label] + p + [While(n)];
    ChildAdded(cx, local, blocks, b, code, s.body);
    var mid := BuildAll(cx, local, s.body, Open(blocks, b, code), n);
    var bs := Build(cx, local, s, blocks, b);
    LoopEnd(cx, local, mid, b, n, s.body);
    var own := blocks[b].code + [Label];
    assert blocks[b].code + code == own + (p + [While(n)]);
    CodeBehind(own, p, [While(n)]);
    assert bs[b].code[|own| - 1] == Label && bs[b].code[|own| + |p| + 0] == While(n);
  }

  lemma {:induction false} LoopEnd(cx: Context, local: Env, blocks: seq<Block>, b: nat, n: nat, body: Stmts)
    requires GoodStmts(cx, local, body) && Holds(cx, local, blocks, b, n, body, false)
    ensures Holds(cx, local, Emit(blocks, n, [Continue]), b, n, body, true)
  {
    hide Implements, CodeLenAll;
    var bs := Emit(blocks, n, [Continue]);
    assert Grown(blocks, bs, n);
    ImplementsKept(cx, local, blocks, bs, n, n, 0, body);
  }
}

/**
 CompileBlock meets the reference translation: on the text of a structured
 program the machine of Blocks does exactly what Build of Statements says.
 */
module StatementCompilation {
  import opened Lexemes
  import opened Initializers
  import opened Expressions
  import opened ExpressionTrees
  import opened ExpressionCompilation
  import opened IndexAssignments
  import opened Blocks
  import opened Statements

  // ----- runs of the machine -----

  ghost predicate RunsTo(lex: seq<Lexeme>, cx: Context, m: Machine, m': Machine) {
    Valid(lex, m) && Valid(lex, m') && Compile(lex, cx, m) == Compile(lex, cx, m')
  }

  lemma {:induction false} OneStep(lex: seq<Lexeme>, cx: Context, m: Machine, m': Machine)
    requires Valid(lex, m) && m.i < |lex| && Turn(lex, cx, m) == Good(m')
    ensures RunsTo(lex, cx, m, m')
  {
    hide Valid, Turn;
    StepKeeps(lex, cx, m);
  }

  lemma {:induction false} GotoTurn(lex: seq<Lexeme>, cx: Context, m: Machine, next: State, act: Act, m': Machine)
    requires Valid(lex, m) && Nested(m.blocks, m.bstack) && m.i < |lex| && Table(m.cur, lex[m.i]) == Goto(next, act)
    requires Handle(cx, act, m.(i := m.i + 1, cur := next), lex[m.i]) == Good(m')
    ensures RunsTo(lex, cx, m, m')
  {
    hide Valid, Nested, Table, Handle;
    ValidNested(lex, m);
    OneStep(lex, cx, m, m');
  }

  /** The machine stands at the start of a statement in a body with the given names. */
  ghost predicate AtStatement(lex: seq<Lexeme>, cx: Context, local: Env, m: Machine) {
    && Valid(lex, m) && m.cur.InBody? && m.fork == 0
    && Closed(m.blocks) && Local(m.blocks, m.bstack) == local
    && Settled(m.blocks[Top(m.bstack)].code)
  }

  /** No list of assigned variables is open. */
  predicate Settled(code: seq<Code>) {
    code != [] ==> !Last(code).AssignVar?
  }

  lemma AtStatementFacts(lex: seq<Lexeme>, cx: Context, local: Env, m: Machine)
    requires AtStatement(lex, cx, local, m)
    ensures Nested(m.blocks, m.bstack) && |m.bstack| == |m.stack| + 1 >= 2 && Top(m.bstack) < |m.blocks|
    ensures Scope(cx, m) == cx.vm + local && Valid(lex, m) && m.cur.InBody? && m.fork == 0
    ensures Settled(m.blocks[Top(m.bstack)].code)
  {
  }

  // ----- expressions inside statements -----

  /** A list of values behind a keyword or an equals sign, up to the end of the line. */
  lemma {:induction false} ListEval(lex: seq<Lexeme>, p: nat, a: Args, env: Env)
    requires p < |lex| && (lex[p] == Equals || (lex[p].Key? && lex[p].k != KwTail)) && GoodArgs(a, env)
    requires At(lex, p + 1, PrintArgs(a) + [NewLine])
    ensures EvalAt(lex, p, env) == Good((p + 1 + |PrintArgs(a)|, PostfixArgs(a, env)))
  {
    hide Run, PrintArgs, PostfixArgs, OutputArgs, CanonicalArgs, EvenRunsArgs, BadCallArgs;
    AtConcat(lex, p + 1, PrintArgs(a), [NewLine]);
    var q := p + 1 + |PrintArgs(a)|;
    AtIndex(lex, q, [NewLine], 0);
    IntroStep(lex, p, env);
    if a.Arg? {
      ListTheorem(lex, p + 1, a, env);
    } else {
      NoArgsPrint(a, env);
      NoValues(lex, p + 1, env);
    }
  }

  lemma NoArgsPrint(a: Args, env: Env)
    requires a.NoArg?
    ensures PrintArgs(a) == [] && PostfixArgs(a, env) == []
  {
  }

  lemma {:induction false} NoValues(lex: seq<Lexeme>, p: nat, env: Env)
    requires 0 < p < |lex| && lex[p] == NewLine && (lex[p - 1] == Equals || lex[p - 1].Key?)
    ensures EvalAt(lex, p, env) == Good((p, []))
  {
    hide MapFrom, ArrayFrom, StepRPar, StepRBrack, StepOper, StepComma, StepIdent, StepExtend;
    var s := Start(p);
    assert EvalStep(lex, s, env) == Stop(p, s);
    assert s.code + Reverse(s.buffer) == [];
    assert Finish(p, s) == Good((p, []));
  }

  /** The condition of `if` or `while`, up to the opening bracket. */
  lemma {:induction false} CondEval(lex: seq<Lexeme>, p: nat, e: Expr, env: Env)
    requires p < |lex| && lex[p].Key? && lex[p].k != KwTail && GoodCond(e, env)
    requires At(lex, p + 1, Print(e)) && At(lex, p + 1 + |Print(e)|, [LCurly])
    ensures EvalAt(lex, p, env) == Good((p + |Print(e)|, Postfix(e, env)))
  {
    hide Run, Print, Postfix, OutputArgs, Canonical, EvenRuns, BadCall;
    var a := Arg(e, NoArg);
    OneArg(e, env);
    AtIndex(lex, p + 1 + |Print(e)|, [LCurly], 0);
    IntroStep(lex, p, env);
    ListTheorem(lex, p + 1, a, env);
  }

  lemma OneArg(e: Expr, env: Env)
    requires Canonical(e, env)
    ensures PrintArgs(Arg(e, NoArg)) == Print(e) && PostfixArgs(Arg(e, NoArg), env) == Postfix(e, env)
  {
    assert Print(e) + [] == Print(e) && Postfix(e, env) + [] == Postfix(e, env);
    assert PostfixArgs(NoArg, env) == [];
  }

  /** A call as a statement, up to the end of the line. */
  lemma {:induction false} CallEval(lex: seq<Lexeme>, p: nat, e: Expr, env: Env)
    requires GoodArgs(Arg(e, NoArg), env) && Fresh(lex, p)
    requires At(lex, p, Print(e) + [NewLine])
    ensures EvalAt(lex, p, env) == Good((p + |Print(e)|, Postfix(e, env)))
  {
    hide Run, Print, Postfix, OutputArgs, Canonical, EvenRuns, BadCall;
    OneArg(e, env);
    AtConcat(lex, p, Print(e), [NewLine]);
    AtIndex(lex, p + |Print(e)|, [NewLine], 0);
    ListTheorem(lex, p, Arg(e, NoArg), env);
  }

  // ----- single turns -----

  lemma {:induction false} LineTurn(lex: seq<Lexeme>, cx: Context, local: Env, m: Machine)
    requires AtStatement(lex, cx, local, m) && m.i < |lex| && lex[m.i] == NewLine
    ensures RunsTo(lex, cx, m, m.(i := m.i + 1)) && AtStatement(lex, cx, local, m.(i := m.i + 1))
  {
    hide Valid, Nested, Local, Closed;
    AtStatementFacts(lex, cx, local, m);
    OneStep(lex, cx, m, m.(i := m.i + 1));
  }

  lemma {:induction false} EmitReady(lex: seq<Lexeme>, cx: Context, local: Env, m: Machine, m': Machine, code: seq<Code>)
    requires AtStatement(lex, cx, local, m) && Valid(lex, m') && Settled(code) && code != []
    requires m' == m.(i := m'.i, blocks := Emit(m.blocks, Top(m.bstack), code))
    ensures AtStatement(lex, cx, local, m')
  {
    hide Valid;
    AtStatementFacts(lex, cx, local, m);
    EmitNames(m.blocks, Top(m.bstack), code);
    NamesKept(m.blocks, m'.blocks, m.bstack);
    assert Last(m'.blocks[Top(m.bstack)].code) == Last(code);
  }

  lemma EmitTwice(blocks: seq<Block>, b: nat, x: seq<Code>, y: seq<Code>)
    requires b < |blocks|
    ensures Emit(Emit(blocks, b, x), b, y) == Emit(blocks, b, x + y)
  {
    assert blocks[b].code + x + y == blocks[b].code + (x + y);
  }

  /** `break` and `continue`. */
  lemma {:induction false} JumpStep(lex: seq<Lexeme>, cx: Context, local: Env, m: Machine, k: Keyword, c: Code)
    requires AtStatement(lex, cx, local, m) && m.i < |lex| && lex[m.i] == Key(k)
    requires (k == KwBreak && c == Break) || (k == KwContinue && c == Continue)
    ensures var m' := m.(i := m.i + 1, blocks := Emit(m.blocks, Top(m.bstack), [c]));
            RunsTo(lex, cx, m, m') && AtStatement(lex, cx, local, m')
  {
    hide Valid, Nested, Local, Closed;
    AtStatementFacts(lex, cx, local, m);
    var m' := m.(i := m.i + 1, blocks := Emit(m.blocks, Top(m.bstack), [c]));
    OneStep(lex, cx, m, m');
    EmitReady(lex, cx, local, m, m', [c]);
  }

  /** An expression followed by its command: `return` and the end of an assignment. */
  lemma {:induction false} EvalThenStep(lex: seq<Lexeme>, cx: Context, m: Machine, j: nat, code: seq<Code>, act: Act, c: Code)
    requires Valid(lex, m) && Nested(m.blocks, m.bstack) && m.i < |lex| && Table(m.cur, lex[m.i]) == EvalThen(InBody, act)
    requires (act == DoReturn && c == Return) || (act == DoAssign && c == Assign) || (act == DoError && lex[m.i].Key? && c == ErrorCmd(lex[m.i].k))
    requires EvalAt(lex, m.i, Scope(cx, m)) == Good((j, code))
    ensures RunsTo(lex, cx, m, m.(i := j + 1, cur := InBody, blocks := Emit(m.blocks, Top(m.bstack), code + [c])))
  {
    hide Valid, Nested, Table, EvalAt, Scope;
    ValidNested(lex, m);
    TopIn(m.blocks, m.bstack);
    var top := Top(m.bstack);
    assert [] + code == code;
    EmitTwice(m.blocks, top, code, [c]);
    OneStep(lex, cx, m, m.(i := j + 1, cur := InBody, blocks := Emit(m.blocks, top, code + [c])));
  }

  // ----- assignments -----

  /** The machine inside an assignment: the places read so far are collected. */
  function Collecting(m: Machine, i: nat, ts: seq<Target>): Machine
    requires m.bstack != [] && Top(m.bstack) < |m.blocks|
  {
    m.(i := i, cur := InAssign, blocks := Emit(m.blocks, Top(m.bstack), if ts == [] then [] else [AssignVar(ts)]))
  }

  lemma {:induction false} PlaceFound(cx: Context, local: Env, blocks: seq<Block>, bstack: seq<nat>, x: Place)
    requires Nested(blocks, bstack) && Local(blocks, bstack) == local && GoodPlace(cx, local, x)
    ensures TargetAct(cx, blocks, bstack, PlaceToken(x)) == Good(PlaceTarget(local, x))
  {
    hide Nested, Local;
  }

  lemma {:induction false} CollectingNames(lex: seq<Lexeme>, cx: Context, local: Env, m: Machine, i: nat, ts: seq<Target>)
    requires AtStatement(lex, cx, local, m)
    ensures m.bstack != [] && Top(m.bstack) < |m.blocks|
    ensures var m1 := Collecting(m, i, ts); Nested(m1.blocks, m1.bstack) && Local(m1.blocks, m1.bstack) == local
  {
    hide Valid;
    AtStatementFacts(lex, cx, local, m);
    EmitNames(m.blocks, Top(m.bstack), if ts == [] then [] else [AssignVar(ts)]);
    NamesKept(m.blocks, Collecting(m, i, ts).blocks, m.bstack);
  }

  lemma {:induction false} Collected(m: Machine, i: nat, ts: seq<Target>, t: Target)
    requires m.bstack != [] && Top(m.bstack) < |m.blocks| && Settled(m.blocks[Top(m.bstack)].code)
    ensures var m1, m2, top := Collecting(m, i, ts), Collecting(m, i + 1, ts + [t]), Top(m.bstack);
            m2 == m1.(i := i + 1, blocks := m1.blocks[top := m1.blocks[top].(code := AddTarget(m1.blocks[top].code, t))])
  {
    hide AddTarget, Settled;
    TargetCode(m.blocks[Top(m.bstack)].code, ts, t);
  }

  lemma {:induction false} PlaceStep(lex: seq<Lexeme>, cx: Context, local: Env, m: Machine, i: nat, ts: seq<Target>, x: Place)
    requires AtStatement(lex, cx, local, m) && i < |lex| && lex[i] == PlaceToken(x) && GoodPlace(cx, local, x)
    requires Valid(lex, Collecting(m, i, ts))
    ensures RunsTo(lex, cx, Collecting(m, i, ts), Collecting(m, i + 1, ts + [PlaceTarget(local, x)]))
  {
    hide Valid, Nested, Local, Closed, TargetAct, Collecting, AddTarget, GoodPlace, RunsTo, PlaceTarget;
    AtStatementFacts(lex, cx, local, m);
    CollectingNames(lex, cx, local, m, i, ts);
    var m1, t := Collecting(m, i, ts), PlaceTarget(local, x);
    PlaceFound(cx, local, m1.blocks, m1.bstack, x);
    Collected(m, i, ts, t);
    CollectingIs(m, i, ts);
    GotoTurn(lex, cx, m1, InAssign, DoTarget, Collecting(m, i + 1, ts + [t]));
  }

  lemma CollectingIs(m: Machine, i: nat, ts: seq<Target>)
    requires m.bstack != [] && Top(m.bstack) < |m.blocks|
    ensures var m1 := Collecting(m, i, ts); m1.i == i && m1.cur == InAssign && m1.bstack == m.bstack && |m1.blocks| == |m.blocks|
  {
  }

  lemma TargetCode(code: seq<Code>, ts: seq<Target>, t: Target)
    requires Settled(code)
    ensures AddTarget(code + (if ts == [] then [] else [AssignVar(ts)]), t) == code + [AssignVar(ts + [t])]
  {
    if ts == [] {
      assert code + [] == code;
      assert ts + [t] == [t];
    } else {
      assert Front(code + [AssignVar(ts)]) == code;
    }
  }

  /** The machine first takes the place for the start of an expression and comes back. */
  lemma {:induction false} BackForth(lex: seq<Lexeme>, cx: Context, local: Env, m: Machine, x: Place)
    requires AtStatement(lex, cx, local, m) && m.i + 1 < |lex| && lex[m.i] == PlaceToken(x)
    requires lex[m.i + 1] == Comma || lex[m.i + 1] == Equals
    ensures m.bstack != [] && Top(m.bstack) < |m.blocks| && RunsTo(lex, cx, m, Collecting(m, m.i, []))
  {
    hide Valid, Nested, Local, Closed;
    AtStatementFacts(lex, cx, local, m);
    var m1 := m.(i := m.i + 1, cur := InAssignEval, fork := m.i);
    ForkTurn(lex, cx, m);
    NothingEmitted(m.blocks, Top(m.bstack));
    OneStep(lex, cx, m1, Collecting(m, m.i, []));
  }

  lemma NothingEmitted(blocks: seq<Block>, b: nat)
    requires b < |blocks|
    ensures Emit(blocks, b, []) == blocks
  {
    assert blocks[b].code + [] == blocks[b].code;
  }

  lemma {:induction false} CommaTurn(lex: seq<Lexeme>, cx: Context, local: Env, m: Machine, i: nat, ts: seq<Target>)
    requires AtStatement(lex, cx, local, m) && m.bstack != [] && Top(m.bstack) < |m.blocks|
    requires i < |lex| && lex[i] == Comma && Valid(lex, Collecting(m, i, ts))
    ensures RunsTo(lex, cx, Collecting(m, i, ts), Collecting(m, i + 1, ts))
  {
    hide Valid, Nested, Local, Closed;
    CollectingNames(lex, cx, local, m, i, ts);
    GotoTurn(lex, cx, Collecting(m, i, ts), InAssign, DoNothing, Collecting(m, i + 1, ts));
  }

  lemma {:induction false} PlacesRun(lex: seq<Lexeme>, cx: Context, local: Env, m: Machine, i: nat, ts: seq<Target>, xs: seq<Place>)
    requires AtStatement(lex, cx, local, m) && m.bstack != [] && Top(m.bstack) < |m.blocks|
    requires At(lex, i, PlaceTokens(xs)) && Valid(lex, Collecting(m, i, ts))
    requires forall k :: 0 <= k < |xs| ==> GoodPlace(cx, local, xs[k])
    ensures RunsTo(lex, cx, Collecting(m, i, ts), Collecting(m, i + |PlaceTokens(xs)|, ts + PlaceTargets(local, xs)))
    decreases |xs|
  {
    hide Valid, AtStatement, Collecting, GoodPlace;
    if xs == [] {
      assert ts + [] == ts;
    } else {
      hide Compile, At;
      var x, rest := xs[0], xs[1..];
      AtConcat(lex, i, [Comma, PlaceToken(x)], PlaceTokens(rest));
      AtIndex(lex, i, [Comma, PlaceToken(x)], 0);
      AtIndex(lex, i, [Comma, PlaceToken(x)], 1);
      CommaTurn(lex, cx, local, m, i, ts);
      PlaceStep(lex, cx, local, m, i + 1, ts, x);
      var ts1 := ts + [PlaceTarget(local, x)];
      PlacesRun(lex, cx, local, m, i + 2, ts1, rest);
      assert ts1 + PlaceTargets(local, rest) == ts + PlaceTargets(local, xs);
    }
  }

  /** The end of an assignment: the values and the command. */
  lemma {:induction false} ValuesRun(lex: seq<Lexeme>, cx: Context, local: Env, m: Machine, i: nat, ts: seq<Target>, a: Args)
    requires AtStatement(lex, cx, local, m) && m.bstack != [] && Top(m.bstack) < |m.blocks| && ts != []
    requires At(lex, i, [Equals] + (PrintArgs(a) + [NewLine])) && GoodArgs(a, cx.vm + local) && Valid(lex, Collecting(m, i, ts))
    ensures var m' := m.(i := i + 1 + |PrintArgs(a)| + 1,
                         blocks := Emit(m.blocks, Top(m.bstack), [AssignVar(ts)] + PostfixArgs(a, cx.vm + local) + [Assign]));
            RunsTo(lex, cx, Collecting(m, i, ts), m') && AtStatement(lex, cx, local, m')
  {
    hide Valid, Nested, Local, Closed, PrintArgs, PostfixArgs, At, CanonicalArgs, EvenRunsArgs, BadCallArgs, EvalAt;
    AtStatementFacts(lex, cx, local, m);
    CollectingNames(lex, cx, local, m, i, ts);
    AtConcat(lex, i, [Equals], PrintArgs(a) + [NewLine]);
    AtIndex(lex, i, [Equals], 0);
    var env, top := cx.vm + local, Top(m.bstack);
    ListEval(lex, i, a, env);
    var m1, code := Collecting(m, i, ts), PostfixArgs(a, env);
    assert Scope(cx, m1) == env;
    EvalThenStep(lex, cx, m1, i + 1 + |PrintArgs(a)|, code, DoAssign, Assign);
    EmitTwice(m.blocks, top, [AssignVar(ts)], code + [Assign]);
    assert [AssignVar(ts)] + (code + [Assign]) == [AssignVar(ts)] + code + [Assign];
    var m' := m.(i := i + 1 + |PrintArgs(a)| + 1, blocks := Emit(m.blocks, top, [AssignVar(ts)] + code + [Assign]));
    EmitReady(lex, cx, local, m, m', [AssignVar(ts)] + code + [Assign]);
  }

  /** Where the machine stands after the statement. */
  function Behind(cx: Context, local: Env, m: Machine, s: Stmt): Machine
    requires m.bstack != [] && Top(m.bstack) < |m.blocks| && GoodStmt(cx, local, s)
  {
    m.(i := m.i + |StmtText(s)|, blocks := Build(cx, local, s, m.blocks, Top(m.bstack)))
  }

  ghost predicate Compiled(lex: seq<Lexeme>, cx: Context, local: Env, m: Machine, s: Stmt)
    requires m.bstack != [] && Top(m.bstack) < |m.blocks| && GoodStmt(cx, local, s)
  {
    RunsTo(lex, cx, m, Behind(cx, local, m, s)) && AtStatement(lex, cx, local, Behind(cx, local, m, s))
  }

  ghost predicate Posed(lex: seq<Lexeme>, cx: Context, local: Env, m: Machine, s: Stmt) {
    && AtStatement(lex, cx, local, m) && m.bstack != [] && Top(m.bstack) < |m.blocks|
    && GoodStmt(cx, local, s) && At(lex, m.i, StmtText(s)) && Fresh(lex, m.i)
  }

  lemma {:induction false} AssignRun(lex: seq<Lexeme>, cx: Context, local: Env, m: Machine, s: Stmt)
    requires Posed(lex, cx, local, m, s) && s.Assignment?
    ensures Compiled(lex, cx, local, m, s)
  {
    hide Valid, AtStatement, Collecting, GoodPlace, Compile, At, PlaceTokens, PrintArgs, PostfixArgs, GoodArgs, PlaceTarget, PlaceTargets;
    var x, xs, a := s.first, s.more, s.values;
    var tail := [Equals] + (PrintArgs(a) + [NewLine]);
    AtConcat(lex, m.i, [PlaceToken(x)], PlaceTokens(xs) + tail);
    AtConcat(lex, m.i + 1, PlaceTokens(xs), tail);
    AtIndex(lex, m.i, [PlaceToken(x)], 0);
    AtIndex(lex, m.i + 1, PlaceTokens(xs) + tail, 0);
    FirstToken(xs, tail);
    BackForth(lex, cx, local, m, x);
    PlaceStep(lex, cx, local, m, m.i, [], x);
    var ts := [] + [PlaceTarget(local, x)];
    PlacesRun(lex, cx, local, m, m.i + 1, ts, xs);
    var ts' := ts + PlaceTargets(local, xs);
    ValuesRun(lex, cx, local, m, m.i + 1 + |PlaceTokens(xs)|, ts', a);
    assert ts' == [PlaceTarget(local, x)] + PlaceTargets(local, xs);
    assert |StmtText(s)| == 1 + |PlaceTokens(xs)| + 1 + |PrintArgs(a)| + 1;
  }

  lemma FirstToken(xs: seq<Place>, tail: seq<Lexeme>)
    requires tail != [] && tail[0] == Equals
    ensures var t := (PlaceTokens(xs) + tail)[0]; t == Comma || t == Equals
  {
  }

  lemma {:induction false} ForkTurn(lex: seq<Lexeme>, cx: Context, m: Machine)
    requires Valid(lex, m) && m.i < |lex| && m.cur.InBody? && (lex[m.i].Ident? || lex[m.i].Extend?)
    ensures RunsTo(lex, cx, m, m.(i := m.i + 1, cur := InAssignEval, fork := m.i))
  {
    hide Valid, Nested;
    ValidNested(lex, m);
    OneStep(lex, cx, m, m.(i := m.i + 1, cur := InAssignEval, fork := m.i));
  }

  lemma {:induction false} EvalBack(lex: seq<Lexeme>, cx: Context, m: Machine, q: nat, code: seq<Code>)
    requires Valid(lex, m) && Nested(m.blocks, m.bstack) && m.i < |lex| && m.cur.InAssignEval? && (lex[m.i] == LPar || lex[m.i] == LBrack)
    requires EvalAt(lex, m.fork, Scope(cx, m)) == Good((q, code))
    ensures RunsTo(lex, cx, m, m.(i := q + 1, cur := InBody, fork := 0, blocks := Emit(m.blocks, Top(m.bstack), code)))
  {
    hide Valid, Nested, EvalAt, Emit, Handle;
    ValidNested(lex, m);
    TopIn(m.blocks, m.bstack);
    assert Scope(cx, m.(cur := InBody, fork := 0)) == Scope(cx, m);
    assert [] + code == code;
    OneStep(lex, cx, m, m.(i := q + 1, cur := InBody, fork := 0, blocks := Emit(m.blocks, Top(m.bstack), code)));
  }

  lemma {:induction false} CallTurns(lex: seq<Lexeme>, cx: Context, local: Env, m: Machine, q: nat, code: seq<Code>)
    requires AtStatement(lex, cx, local, m) && m.i + 1 < |lex| && ((lex[m.i].Ident? && lex[m.i + 1] == LPar) || ((lex[m.i].Ident? || lex[m.i].Extend?) && lex[m.i + 1] == LBrack))
    requires EvalAt(lex, m.i, cx.vm + local) == Good((q, code)) && code != [] && Settled(code)
    ensures m.bstack != [] && Top(m.bstack) < |m.blocks|
    ensures var m' := m.(i := q + 1, blocks := Emit(m.blocks, Top(m.bstack), code));
            RunsTo(lex, cx, m, m') && AtStatement(lex, cx, local, m')
  {
    hide Valid, Nested, Local, Closed, EvalAt;
    AtStatementFacts(lex, cx, local, m);
    var m1 := m.(i := m.i + 1, cur := InAssignEval, fork := m.i);
    var m' := m.(i := q + 1, blocks := Emit(m.blocks, Top(m.bstack), code));
    ForkTurn(lex, cx, m);
    assert Scope(cx, m1) == cx.vm + local;
    EvalBack(lex, cx, m1, q, code);
    EmitReady(lex, cx, local, m, m', code);
  }

  lemma {:induction false} CallRun(lex: seq<Lexeme>, cx: Context, local: Env, m: Machine, s: Stmt)
    requires Posed(lex, cx, local, m, s) && s.CallOnly?
    ensures Compiled(lex, cx, local, m, s)
  {
    hide Valid, AtStatement, Compile, At, PrintArgs, PostfixArgs, EvalAt, BadCallArgs;
    var e, env := Apply(s.name, s.args), cx.vm + local;
    CallEval(lex, m.i, e, env);
    AtConcat(lex, m.i, Print(e), [NewLine]);
    AtIndex(lex, m.i, Print(e), 0);
    AtIndex(lex, m.i, Print(e), 1);
    CallTurns(lex, cx, local, m, m.i + |Print(e)|, Postfix(e, env));
  }

  /** The text of an assignment to an element, up to the end of the line. */
  lemma {:induction false} SetEval(lex: seq<Lexeme>, p: nat, x: Place, i: Expr, e: Expr, env: Env)
    requires KnownPlace(x, env) && GoodArgs(Arg(i, NoArg), env) && GoodArgs(Arg(e, NoArg), env)
    requires At(lex, p, SetText(x, i, e) + [NewLine])
    ensures EvalAt(lex, p, env) ==
            Good((p + |SetText(x, i, e)|, [ReadPlace(x, env)] + Postfix(i, env) + Postfix(e, env) + [SetIndex(ElementOf(x, env))]))
  {
    hide Run, SetText, Postfix, Output, Canonical, EvenRuns, BadCall;
    AtConcat(lex, p, SetText(x, i, e), [NewLine]);
    AtIndex(lex, p + |SetText(x, i, e)|, [NewLine], 0);
    SetTheorem(lex, p, x, i, e, env);
  }

  lemma {:induction false} ElementRun(lex: seq<Lexeme>, cx: Context, local: Env, m: Machine, s: Stmt)
    requires Posed(lex, cx, local, m, s) && s.ElementSet?
    ensures Compiled(lex, cx, local, m, s)
  {
    hide Valid, AtStatement, Compile, At, Print, Postfix, EvalAt, EvenRunsArgs, BadCallArgs;
    var env := cx.vm + local;
    SetEval(lex, m.i, s.base, s.index, s.value, env);
    AtConcat(lex, m.i, SetText(s.base, s.index, s.value), [NewLine]);
    AtIndex(lex, m.i, SetText(s.base, s.index, s.value), 0);
    AtIndex(lex, m.i, SetText(s.base, s.index, s.value), 1);
    CallTurns(lex, cx, local, m, m.i + |SetText(s.base, s.index, s.value)|,
              [ReadPlace(s.base, env)] + Postfix(s.index, env) + Postfix(s.value, env) + [SetIndex(ElementOf(s.base, env))]);
  }

  /** A keyword with one expression, up to the end of the line. */
  lemma {:induction false} KeyEval(lex: seq<Lexeme>, p: nat, k: Keyword, e: Expr, env: Env)
    requires k != KwTail && GoodArgs(Arg(e, NoArg), env) && At(lex, p, [Key(k)] + (Print(e) + [NewLine]))
    ensures p < |lex| && lex[p] == Key(k) && EvalAt(lex, p, env) == Good((p + 1 + |Print(e)|, Postfix(e, env)))
  {
    hide At, Print, Postfix, EvalAt, EvenRunsArgs, BadCallArgs;
    OneArg(e, env);
    AtConcat(lex, p, [Key(k)], Print(e) + [NewLine]);
    AtIndex(lex, p, [Key(k)], 0);
    ListEval(lex, p, Arg(e, NoArg), env);
  }

  /** `error`, `warning` and `info`. */
  lemma {:induction false} RaiseRun(lex: seq<Lexeme>, cx: Context, local: Env, m: Machine, s: Stmt)
    requires Posed(lex, cx, local, m, s) && s.Raising?
    ensures Compiled(lex, cx, local, m, s)
  {
    hide Valid, Compile, At, Print, Postfix, EvalAt, EvenRunsArgs, BadCallArgs, Nested, Local, Closed;
    var env := cx.vm + local;
    AtStatementFacts(lex, cx, local, m);
    KeyEval(lex, m.i, s.kind, s.message, env);
    EvalThenStep(lex, cx, m, m.i + 1 + |Print(s.message)|, Postfix(s.message, env), DoError, ErrorCmd(s.kind));
    EmitReady(lex, cx, local, m, Behind(cx, local, m, s), Postfix(s.message, env) + [ErrorCmd(s.kind)]);
  }

  lemma {:induction false} ReturnRun(lex: seq<Lexeme>, cx: Context, local: Env, m: Machine, s: Stmt)
    requires Posed(lex, cx, local, m, s) && s.Returning?
    ensures Compiled(lex, cx, local, m, s)
  {
    hide Valid, Compile, At, PrintArgs, PostfixArgs, EvalAt, CanonicalArgs, EvenRunsArgs, BadCallArgs, Nested, Local, Closed;
    var a, env := s.values, cx.vm + local;
    AtStatementFacts(lex, cx, local, m);
    AtConcat(lex, m.i, [Key(KwReturn)], PrintArgs(a) + [NewLine]);
    AtIndex(lex, m.i, [Key(KwReturn)], 0);
    ListEval(lex, m.i, a, env);
    EvalThenStep(lex, cx, m, m.i + 1 + |PrintArgs(a)|, PostfixArgs(a, env), DoReturn, Return);
    EmitReady(lex, cx, local, m, Behind(cx, local, m, s), PostfixArgs(a, env) + [Return]);
  }

  lemma {:induction false} ShortRun(lex: seq<Lexeme>, cx: Context, local: Env, m: Machine, s: Stmt)
    requires Posed(lex, cx, local, m, s) && (s.EmptyLine? || s.BreakOut? || s.NextTurn?)
    ensures Compiled(lex, cx, local, m, s)
  {
    hide Valid, AtStatement, Compile, At;
    AtIndex(lex, m.i, StmtText(s), 0);
    if s.EmptyLine? {
      LineTurn(lex, cx, local, m);
    } else {
      AtIndex(lex, m.i, StmtText(s), 1);
      var k, c := if s.BreakOut? then KwBreak else KwContinue, if s.BreakOut? then Break else Continue;
      JumpStep(lex, cx, local, m, k, c);
      LineTurn(lex, cx, local, m.(i := m.i + 1, blocks := Emit(m.blocks, Top(m.bstack), [c])));
    }
  }

  // ----- nested blocks -----

  /** The machine inside a new child block. */
  function Inside(m: Machine, i: nat, code: seq<Code>): Machine
    requires m.bstack != [] && Top(m.bstack) < |m.blocks|
  {
    m.(i := i, cur := InBody, stack := m.stack + [InBody], bstack := m.bstack + [|m.blocks|],
       blocks := Open(m.blocks, Top(m.bstack), code))
  }

  lemma {:induction false} CurlyTurn(lex: seq<Lexeme>, cx: Context, m: Machine)
    requires Valid(lex, m) && m.i < |lex| && m.cur.InBlock? && lex[m.i] == LCurly
    ensures RunsTo(lex, cx, m, m.(i := m.i + 1, cur := InBody))
  {
    hide Valid, Nested;
    ValidNested(lex, m);
    GotoTurn(lex, cx, m, InBody, DoNothing, m.(i := m.i + 1, cur := InBody));
  }

  lemma {:induction false} OpenAfterEmit(blocks: seq<Block>, b: nat, x: seq<Code>, y: seq<Code>)
    requires b < |blocks|
    ensures Emit(AddChild(Emit(blocks, b, x), b), b, y) == Open(blocks, b, x + y)
  {
    assert blocks[b].code + x + y == blocks[b].code + (x + y);
  }

  function Refer(act: Act, n: nat): seq<Code> {
    if act.DoIf? then [If(n)] else [While(n), Continue]
  }

  lemma {:induction false} CondTurn(lex: seq<Lexeme>, cx: Context, m: Machine, j: nat, code: seq<Code>, labelled: bool, act: Act)
    requires Valid(lex, m) && Nested(m.blocks, m.bstack) && m.i < |lex| && m.cur.InBody?
    requires Table(InBody, lex[m.i]) == EvalEnter(labelled, act) && (act.DoIf? || act.DoWhile?)
    requires EvalAt(lex, m.i, Scope(cx, m)) == Good((j, code)) && code != []
    ensures RunsTo(lex, cx, m, Inside(m, j + 1, (if labelled then [Label] else []) + code + Refer(act, |m.blocks|)).(cur := InBlock))
  {
    hide Valid, Nested, Table, EvalAt, Emit, AddChild;
    ValidNested(lex, m);
    TopIn(m.blocks, m.bstack);
    var top, n := Top(m.bstack), |m.blocks|;
    var x := (if labelled then [Label] else []) + code;
    OpenAfterEmit(m.blocks, top, x, Refer(act, n));
    EmitSize(m.blocks, top, x);
    OneStep(lex, cx, m, Inside(m, j + 1, x + Refer(act, n)).(cur := InBlock));
  }

  lemma EmitSize(blocks: seq<Block>, b: nat, x: seq<Code>)
    requires b < |blocks|
    ensures |Emit(blocks, b, x)| == |blocks|
  {
  }

  lemma {:induction false} InsideReady(lex: seq<Lexeme>, cx: Context, local: Env, m: Machine, i: nat, code: seq<Code>)
    requires AtStatement(lex, cx, local, m) && m.bstack != [] && Top(m.bstack) < |m.blocks|
    requires Valid(lex, Inside(m, i, code))
    ensures AtStatement(lex, cx, local, Inside(m, i, code))
  {
    hide Valid, Visible;
    AtStatementFacts(lex, cx, local, m);
    var c, n := Inside(m, i, code), |m.blocks|;
    OpenNames(m.blocks, Top(m.bstack), code);
    NamesKept(m.blocks, c.blocks, m.bstack);
    ValidNested(lex, c);
    assert c.bstack[..|m.bstack|] == m.bstack && Top(c.bstack) == n;
    NothingVisible(c.blocks, n);
    assert local + map[] == local;
  }

  lemma NothingVisible(blocks: seq<Block>, b: nat)
    requires b < |blocks| && blocks[b].objects == map[]
    ensures Visible(blocks, b) == map[]
  {
  }

  /** `else`: allowed because the block below ends with its `if`. */
  lemma {:induction false} ElseTurn(lex: seq<Lexeme>, cx: Context, m: Machine)
    requires Valid(lex, m) && m.i < |lex| && m.cur.InBody? && lex[m.i] == Key(KwElse)
    requires m.bstack != [] && Top(m.bstack) < |m.blocks|
    requires m.blocks[Top(m.bstack)].code != [] && Last(m.blocks[Top(m.bstack)].code).If?
    ensures RunsTo(lex, cx, m, Inside(m, m.i + 1, [Else(|m.blocks|)]).(cur := InBlock))
  {
    hide Valid, Nested, Emit, Last;
    ValidNested(lex, m);
    NestedPush(m);
    var m1 := PushBlock(m);
    assert m1.blocks[Top(m.bstack)].code == m.blocks[Top(m.bstack)].code;
    OneStep(lex, cx, m, Inside(m, m.i + 1, [Else(|m.blocks|)]).(cur := InBlock));
  }

  /** The machine at the end of the child block of `m` with the blocks built so far. */
  function AtEnd(m: Machine, i: nat, bs: seq<Block>): Machine {
    m.(i := i, cur := InBody, stack := m.stack + [InBody], bstack := m.bstack + [|m.blocks|], blocks := bs)
  }

  lemma {:induction false} CloseTurn(lex: seq<Lexeme>, cx: Context, m: Machine, i: nat, bs: seq<Block>)
    requires Valid(lex, AtEnd(m, i, bs)) && i < |lex| && lex[i] == RCurly && m.cur.InBody?
    requires m.bstack != [] && Top(m.bstack) < |m.blocks| < |bs|
    ensures RunsTo(lex, cx, AtEnd(m, i, bs), m.(i := i + 1, blocks := MoveContinue(bs, |m.blocks|, Top(m.bstack))))
  {
    hide Valid, MoveContinue;
    var c := AtEnd(m, i, bs);
    ValidNested(lex, c);
    NestedBelow(c.blocks, c.bstack);
    assert c.bstack[..|c.bstack| - 1] == m.bstack && c.stack[..|c.stack| - 1] == m.stack;
    OneStep(lex, cx, c, m.(i := i + 1, blocks := MoveContinue(bs, |m.blocks|, Top(m.bstack))));
  }

  // ----- layout -----

  lemma {:induction false} HeadLayout(lex: seq<Lexeme>, p: nat, k: Keyword, c: seq<Lexeme>, body: seq<Lexeme>, tail: seq<Lexeme>)
    requires At(lex, p, [Key(k)] + (c + ([LCurly] + (body + tail))))
    ensures p < |lex| && lex[p] == Key(k) && At(lex, p + 1, c) && At(lex, p + 1 + |c|, [LCurly])
    ensures At(lex, p + 2 + |c|, body) && At(lex, p + 2 + |c| + |body|, tail)
  {
    hide At;
    AtConcat(lex, p, [Key(k)], c + ([LCurly] + (body + tail)));
    AtIndex(lex, p, [Key(k)], 0);
    AtConcat(lex, p + 1, c, [LCurly] + (body + tail));
    AtConcat(lex, p + 1 + |c|, [LCurly], body + tail);
    AtConcat(lex, p + 2 + |c|, body, tail);
  }

  function HeadCode(loop: bool, cond: seq<Code>, n: nat): seq<Code> {
    if loop then [Label] + cond + [While(n), Continue] else cond + [If(n)]
  }

  lemma {:induction false} HeadTurn(lex: seq<Lexeme>, cx: Context, local: Env, m: Machine, j: nat, cond: seq<Code>, loop: bool)
    requires AtStatement(lex, cx, local, m) && m.bstack != [] && Top(m.bstack) < |m.blocks|
    requires m.i < |lex| && lex[m.i] == Key(if loop then KwWhile else KwIf)
    requires EvalAt(lex, m.i, cx.vm + local) == Good((j, cond)) && cond != []
    ensures RunsTo(lex, cx, m, Inside(m, j + 1, HeadCode(loop, cond, |m.blocks|)).(cur := InBlock))
  {
    hide Valid, Nested, Local, Closed, EvalAt, Open, AtStatement, Scope, Compile;
    AtStatementFacts(lex, cx, local, m);
    assert [] + cond == cond;
    CondTurn(lex, cx, m, j, cond, loop, if loop then DoWhile else DoIf);
  }

  /** From the keyword into the block. */
  lemma {:induction false} HeadRun(lex: seq<Lexeme>, cx: Context, local: Env, m: Machine, e: Expr, loop: bool)
    requires AtStatement(lex, cx, local, m) && m.bstack != [] && Top(m.bstack) < |m.blocks| && GoodCond(e, cx.vm + local)
    requires m.i < |lex| && lex[m.i] == Key(if loop then KwWhile else KwIf)
    requires At(lex, m.i + 1, Print(e)) && At(lex, m.i + 1 + |Print(e)|, [LCurly])
    ensures var c := Inside(m, m.i + 2 + |Print(e)|, HeadCode(loop, Postfix(e, cx.vm + local), |m.blocks|));
            RunsTo(lex, cx, m, c) && AtStatement(lex, cx, local, c) && Fresh(lex, c.i)
  {
    hide Valid, Nested, Local, Closed, Print, Postfix, EvalAt, At, EvenRuns, BadCall, Open, AtStatement, Compile, HeadCode;
    CondEval(lex, m.i, e, cx.vm + local);
    PostfixSome(e, cx.vm + local);
    var j, code := m.i + |Print(e)|, HeadCode(loop, Postfix(e, cx.vm + local), |m.blocks|);
    HeadTurn(lex, cx, local, m, j, Postfix(e, cx.vm + local), loop);
    AtIndex(lex, j + 1, [LCurly], 0);
    var c := Inside(m, j + 1, code).(cur := InBlock);
    CurlyTurn(lex, cx, c);
    assert c.(i := j + 2, cur := InBody) == Inside(m, j + 2, code);
    InsideReady(lex, cx, local, m, j + 2, code);
  }

  lemma {:induction false} PostfixSome(e: Expr, env: Env)
    requires Canonical(e, env)
    ensures Postfix(e, env) != []
    decreases e
  {
    match e
    case Paren(x) => PostfixSome(x, env);
    case _ =>
  }

  lemma {:induction false} BackOutside(lex: seq<Lexeme>, cx: Context, local: Env, m: Machine, m': Machine)
    requires AtStatement(lex, cx, local, m) && Valid(lex, m') && SameNames(m.blocks, m'.blocks)
    requires m' == m.(i := m'.i, blocks := m'.blocks) && m.bstack != [] && Top(m.bstack) < |m'.blocks|
    requires Settled(m'.blocks[Top(m.bstack)].code)
    ensures AtStatement(lex, cx, local, m')
  {
    hide Valid;
    AtStatementFacts(lex, cx, local, m);
    NamesKept(m.blocks, m'.blocks, m.bstack);
  }

  /** The closing bracket of an `if` or `else` block. */
  lemma {:induction false} CloseBranch(lex: seq<Lexeme>, cx: Context, local: Env, m: Machine, i: nat, body: Stmts, code: seq<Code>)
    requires AtStatement(lex, cx, local, m) && m.bstack != [] && Top(m.bstack) < |m.blocks| && GoodStmts(cx, local, body)
    requires code != [] && (Last(code).If? || Last(code).Else?)
    requires i < |lex| && lex[i] == RCurly
    requires Valid(lex, AtEnd(m, i, BuildAll(cx, local, body, Open(m.blocks, Top(m.bstack), code), |m.blocks|)))
    ensures var bs := BuildAll(cx, local, body, Open(m.blocks, Top(m.bstack), code), |m.blocks|);
            var m' := m.(i := i + 1, blocks := bs);
            RunsTo(lex, cx, AtEnd(m, i, bs), m') && AtStatement(lex, cx, local, m') &&
            bs[Top(m.bstack)].code == m.blocks[Top(m.bstack)].code + code
  {
    hide Valid, BuildAll, Compile, SameNames, AtStatement, GoodStmts;
    var top, n := Top(m.bstack), |m.blocks|;
    var o := Open(m.blocks, top, code);
    var bs := BuildAll(cx, local, body, o, n);
    BuildAllApart(cx, local, body, o, n, top, []);
    assert bs[top].code == m.blocks[top].code + code;
    CloseStep(lex, cx, local, m, i, bs);
    ChildNames(cx, local, body, m.blocks, top, code);
    BackOutside(lex, cx, local, m, m.(i := i + 1, blocks := bs));
  }

  lemma {:induction false} CloseStep(lex: seq<Lexeme>, cx: Context, local: Env, m: Machine, i: nat, bs: seq<Block>)
    requires AtStatement(lex, cx, local, m) && Valid(lex, AtEnd(m, i, bs)) && i < |lex| && lex[i] == RCurly
    requires m.bstack != [] && Top(m.bstack) < |m.blocks| < |bs|
    requires bs[Top(m.bstack)].code != [] && Last(bs[Top(m.bstack)].code) != Continue
    ensures RunsTo(lex, cx, AtEnd(m, i, bs), m.(i := i + 1, blocks := bs))
  {
    hide Valid, Compile;
    AtStatementFacts(lex, cx, local, m);
    CloseTurn(lex, cx, m, i, bs);
  }

  /** The closing bracket of a loop moves the `continue` into it. */
  lemma {:induction false} LoopBlocks(cx: Context, local: Env, blocks: seq<Block>, b: nat, body: Stmts, x: seq<Code>)
    requires b < |blocks| && GoodStmts(cx, local, body)
    ensures var n := |blocks|;
            var bs, bs' := BuildAll(cx, local, body, Open(blocks, b, x + [While(n), Continue]), n),
                           BuildAll(cx, local, body, Open(blocks, b, x + [While(n)]), n);
            MoveContinue(bs, n, b) == Emit(bs', n, [Continue]) && bs'[b].code == blocks[b].code + x + [While(n)]
  {
    var n := |blocks|;
    var o, o' := Open(blocks, b, x + [While(n), Continue]), Open(blocks, b, x + [While(n)]);
    var bs := BuildAll(cx, local, body, o, n);
    var code := blocks[b].code + (x + [While(n)]);
    assert code == blocks[b].code + x + [While(n)];
    assert o[b].code == code + [Continue] && Front(o[b].code) == code;
    assert o' == SetCode(o, b, code);
    hide BuildAll, Open, GoodStmts;
    BuildAllApart(cx, local, body, o, n, b, code);
    assert Last(bs[b].code) == Continue && Front(bs[b].code) == code;
  }

  lemma {:induction false} CloseLoop(lex: seq<Lexeme>, cx: Context, local: Env, m: Machine, i: nat, body: Stmts, x: seq<Code>)
    requires AtStatement(lex, cx, local, m) && m.bstack != [] && Top(m.bstack) < |m.blocks| && GoodStmts(cx, local, body)
    requires i < |lex| && lex[i] == RCurly
    requires Valid(lex, AtEnd(m, i, BuildAll(cx, local, body, Open(m.blocks, Top(m.bstack), x + [While(|m.blocks|), Continue]), |m.blocks|)))
    ensures var n := |m.blocks|;
            var bs := BuildAll(cx, local, body, Open(m.blocks, Top(m.bstack), x + [While(n), Continue]), n);
            var m' := m.(i := i + 1, blocks := Emit(BuildAll(cx, local, body, Open(m.blocks, Top(m.bstack), x + [While(n)]), n), n, [Continue]));
            RunsTo(lex, cx, AtEnd(m, i, bs), m') && AtStatement(lex, cx, local, m')
  {
    hide Valid, BuildAll, Compile, SameNames, GoodStmts, MoveContinue, Open, Nested, Local, Closed;
    var top, n := Top(m.bstack), |m.blocks|;
    var bs := BuildAll(cx, local, body, Open(m.blocks, top, x + [While(n), Continue]), n);
    var bs' := BuildAll(cx, local, body, Open(m.blocks, top, x + [While(n)]), n);
    LoopBlocks(cx, local, m.blocks, top, body, x);
    CloseTurn(lex, cx, m, i, bs);
    ChildNames(cx, local, body, m.blocks, top, x + [While(n)]);
    EmitNames(bs', n, [Continue]);
    var m' := m.(i := i + 1, blocks := Emit(bs', n, [Continue]));
    SameNamesChain(m.blocks, bs', m'.blocks);
    assert Last(m'.blocks[top].code) == While(n);
    BackOutside(lex, cx, local, m, m');
  }

  // ----- every statement -----

  /** A block from behind its opening bracket to its closing one. */
  lemma {:induction false} BlockRun(lex: seq<Lexeme>, cx: Context, local: Env, m: Machine, i: nat, code: seq<Code>, body: Stmts)
    requires m.bstack != [] && Top(m.bstack) < |m.blocks| && GoodStmts(cx, local, body)
    requires AtStatement(lex, cx, local, Inside(m, i, code)) && Fresh(lex, i) && At(lex, i, StmtsText(body))
    ensures RunsTo(lex, cx, Inside(m, i, code),
                   AtEnd(m, i + |StmtsText(body)|, BuildAll(cx, local, body, Open(m.blocks, Top(m.bstack), code), |m.blocks|)))
    decreases body, 1
  {
    hide Valid, Compile, AtStatement, At, Open, BuildAll, GoodStmts;
    StmtsRun(lex, cx, local, Inside(m, i, code), body);
  }

  lemma {:induction false} ConditionalRun(lex: seq<Lexeme>, cx: Context, local: Env, m: Machine, s: Stmt)
    requires Posed(lex, cx, local, m, s) && s.Conditional?
    ensures Compiled(lex, cx, local, m, s)
    decreases s, 0
  {
    hide Valid, Compile, AtStatement, At, Open, BuildAll, GoodStmts, Print, Postfix, GoodCond, StmtsText;
    var e, body, n := s.cond, s.body, |m.blocks|;
    GoodCondition(e, cx.vm + local);
    var code := Postfix(e, cx.vm + local) + [If(n)];
    HeadLayout(lex, m.i, KwIf, Print(e), StmtsText(body), [RCurly, NewLine]);
    HeadRun(lex, cx, local, m, e, false);
    var i := m.i + 2 + |Print(e)|;
    BlockRun(lex, cx, local, m, i, code, body);
    var r := i + |StmtsText(body)|;
    AtIndex(lex, r, [RCurly, NewLine], 0);
    AtIndex(lex, r, [RCurly, NewLine], 1);
    CloseBranch(lex, cx, local, m, r, body, code);
    LineTurn(lex, cx, local, m.(i := r + 1, blocks := Build(cx, local, s, m.blocks, Top(m.bstack))));
  }

  lemma GoodCondition(e: Expr, env: Env)
    requires GoodCond(e, env)
    ensures Canonical(e, env)
  {
  }

  lemma {:induction false} LoopRun(lex: seq<Lexeme>, cx: Context, local: Env, m: Machine, s: Stmt)
    requires Posed(lex, cx, local, m, s) && s.Loop?
    ensures Compiled(lex, cx, local, m, s)
    decreases s, 0
  {
    hide Valid, Compile, AtStatement, At, Open, BuildAll, GoodStmts, Print, Postfix, GoodCond, StmtsText;
    var e, body, n := s.cond, s.body, |m.blocks|;
    GoodCondition(e, cx.vm + local);
    var x := [Label] + Postfix(e, cx.vm + local);
    HeadLayout(lex, m.i, KwWhile, Print(e), StmtsText(body), [RCurly, NewLine]);
    HeadRun(lex, cx, local, m, e, true);
    var i := m.i + 2 + |Print(e)|;
    BlockRun(lex, cx, local, m, i, x + [While(n), Continue], body);
    var r := i + |StmtsText(body)|;
    AtIndex(lex, r, [RCurly, NewLine], 0);
    AtIndex(lex, r, [RCurly, NewLine], 1);
    CloseLoop(lex, cx, local, m, r, body, x);
    LineTurn(lex, cx, local, m.(i := r + 1, blocks := Build(cx, local, s, m.blocks, Top(m.bstack))));
  }

  /** From `else` to the end of its block. */
  lemma {:induction false} ElseRun(lex: seq<Lexeme>, cx: Context, local: Env, m: Machine, other: Stmts)
    requires AtStatement(lex, cx, local, m) && m.bstack != [] && Top(m.bstack) < |m.blocks| && GoodStmts(cx, local, other)
    requires At(lex, m.i, [Key(KwElse), LCurly] + (StmtsText(other) + [RCurly, NewLine]))
    requires m.blocks[Top(m.bstack)].code != [] && Last(m.blocks[Top(m.bstack)].code).If?
    ensures var m' := m.(i := m.i + 2 + |StmtsText(other)| + 2,
                         blocks := BuildAll(cx, local, other, Open(m.blocks, Top(m.bstack), [Else(|m.blocks|)]), |m.blocks|));
            RunsTo(lex, cx, m, m') && AtStatement(lex, cx, local, m')
    decreases other, 2
  {
    hide Valid, Compile, At, Open, BuildAll, GoodStmts, StmtsText, AtStatement;
    AtStatementFacts(lex, cx, local, m);
    var head, code, i := [Key(KwElse), LCurly], [Else(|m.blocks|)], m.i + 2;
    AtConcat(lex, m.i, head, StmtsText(other) + [RCurly, NewLine]);
    AtIndex(lex, m.i, head, 0);
    AtIndex(lex, m.i, head, 1);
    AtConcat(lex, i, StmtsText(other), [RCurly, NewLine]);
    ElseTurn(lex, cx, m);
    var c := Inside(m, m.i + 1, code).(cur := InBlock);
    CurlyTurn(lex, cx, c);
    assert c.(i := i, cur := InBody) == Inside(m, i, code);
    InsideReady(lex, cx, local, m, i, code);
    BlockRun(lex, cx, local, m, i, code, other);
    var r := i + |StmtsText(other)|;
    AtIndex(lex, r, [RCurly, NewLine], 0);
    AtIndex(lex, r, [RCurly, NewLine], 1);
    CloseBranch(lex, cx, local, m, r, other, code);
    LineTurn(lex, cx, local, m.(i := r + 1, blocks := BuildAll(cx, local, other, Open(m.blocks, Top(m.bstack), code), |m.blocks|)));
  }

  lemma {:induction false} AlternativeRun(lex: seq<Lexeme>, cx: Context, local: Env, m: Machine, s: Stmt)
    requires Posed(lex, cx, local, m, s) && s.Alternative?
    ensures Compiled(lex, cx, local, m, s)
    decreases s, 0
  {
    hide Valid, Compile, AtStatement, At, Open, BuildAll, GoodStmts, Print, Postfix, GoodCond, StmtsText;
    var e, body, n := s.cond, s.body, |m.blocks|;
    GoodCondition(e, cx.vm + local);
    var code := Postfix(e, cx.vm + local) + [If(n)];
    var tail := StmtsText(s.other) + [RCurly, NewLine];
    HeadLayout(lex, m.i, KwIf, Print(e), StmtsText(body), [RCurly, Key(KwElse), LCurly] + tail);
    HeadRun(lex, cx, local, m, e, false);
    var i := m.i + 2 + |Print(e)|;
    BlockRun(lex, cx, local, m, i, code, body);
    var r := i + |StmtsText(body)|;
    assert [RCurly, Key(KwElse), LCurly] + tail == [RCurly] + ([Key(KwElse), LCurly] + tail);
    AtConcat(lex, r, [RCurly], [Key(KwElse), LCurly] + tail);
    AtIndex(lex, r, [RCurly], 0);
    CloseBranch(lex, cx, local, m, r, body, code);
    var bs := BuildAll(cx, local, body, Open(m.blocks, Top(m.bstack), code), n);
    assert Last(bs[Top(m.bstack)].code) == If(n);
    ElseRun(lex, cx, local, m.(i := r + 1, blocks := bs), s.other);
  }

  /** CompileBlock does to any statement what the reference translation says. */
  lemma {:induction false} StmtRun(lex: seq<Lexeme>, cx: Context, local: Env, m: Machine, s: Stmt)
    requires Posed(lex, cx, local, m, s)
    ensures Compiled(lex, cx, local, m, s)
    decreases s, 1
  {
    hide Compiled, GoodStmt, AtStatement, At, StmtText;
    match s {
      case Assignment(_, _, _) => AssignRun(lex, cx, local, m, s);
      case CallOnly(_, _) => CallRun(lex, cx, local, m, s);
      case Returning(_) => ReturnRun(lex, cx, local, m, s);
      case ElementSet(_, _, _) => ElementRun(lex, cx, local, m, s);
      case Raising(_, _) => RaiseRun(lex, cx, local, m, s);
      case Conditional(_, _) => ConditionalRun(lex, cx, local, m, s);
      case Alternative(_, _, _) => AlternativeRun(lex, cx, local, m, s);
      case Loop(_, _) => LoopRun(lex, cx, local, m, s);
      case _ => ShortRun(lex, cx, local, m, s);
    }
  }

  lemma {:induction false} TextEnds(s: Stmt)
    ensures StmtText(s)[|StmtText(s)| - 1] == NewLine
  {
    hide Print, PrintArgs, PlaceTokens, StmtsText;
  }

  /** The main result: on the text of a structured program the machine arrives
      behind it with exactly the blocks of the reference translation. */
  lemma {:induction false} StmtsRun(lex: seq<Lexeme>, cx: Context, local: Env, m: Machine, ss: Stmts)
    requires AtStatement(lex, cx, local, m) && m.bstack != [] && Top(m.bstack) < |m.blocks|
    requires GoodStmts(cx, local, ss) && At(lex, m.i, StmtsText(ss)) && Fresh(lex, m.i)
    ensures var m' := m.(i := m.i + |StmtsText(ss)|, blocks := BuildAll(cx, local, ss, m.blocks, Top(m.bstack)));
            RunsTo(lex, cx, m, m') && AtStatement(lex, cx, local, m') && Fresh(lex, m'.i)
    decreases ss, 0
  {
    hide Valid, Compile, At, StmtText, GoodStmt, Build, AtStatement;
    if ss.Done? {
      AtStatementFacts(lex, cx, local, m);
    } else {
      AtConcat(lex, m.i, StmtText(ss.s), StmtsText(ss.rest));
      AtIndex(lex, m.i, StmtText(ss.s), |StmtText(ss.s)| - 1);
      TextEnds(ss.s);
      StmtRun(lex, cx, local, m, ss.s);
      StmtsRun(lex, cx, local, Behind(cx, local, m, ss.s), ss.rest);
    }
  }
}

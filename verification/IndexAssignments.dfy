/**
 Assignments to an element, as in `a[x] = e`: what compileEval makes of them.
 */
module IndexAssignments {
  import opened Wrappers
  import opened Lexemes
  import opened Initializers
  import opened Expressions
  import opened ExpressionTrees
  import opened ExpressionCompilation

  // ----- places -----

  /** What can stand on the left of an assignment: a variable or an outer variable. */
  datatype Place = VarPlace(name: string) | OuterPlace(name: string)

  function PlaceToken(x: Place): Lexeme {
    match x case VarPlace(n) => Ident(n) case OuterPlace(n) => Lexeme.Extend(n)
  }

  predicate KnownPlace(x: Place, env: Env) {
    x.VarPlace? ==> x.name in env && env[x.name].ObjVar?
  }

  /** The command that pushes the value of the place. */
  function ReadPlace(x: Place, env: Env): Code
    requires KnownPlace(x, env)
  {
    match x case VarPlace(n) => Var(env[n].v) case OuterPlace(n) => ExtendVar(n)
  }

  /** The place that the command for an element stores to. */
  function ElementOf(x: Place, env: Env): Target
    requires KnownPlace(x, env)
  {
    match x case VarPlace(n) => ToVar(env[n].v) case OuterPlace(n) => ToExtend(n)
  }

  function SetText(x: Place, index: Expr, value: Expr): seq<Lexeme> {
    [PlaceToken(x), LBrack] + (Print(index) + ([RBrack, Equals] + Print(value)))
  }

  // ----- the steps -----

  /** The state behind the opening bracket. */
  function SetOpened(i: nat, x: Place, env: Env): EvalState
    requires KnownPlace(x, env)
  {
    EvalState(i, [Index(ElementOf(x, env))] + [Sys], [ReadPlace(x, env)], [], None, false)
  }

  lemma {:induction false} SetStart(lex: seq<Lexeme>, p: nat, x: Place, env: Env)
    requires p + 2 < |lex| && lex[p] == PlaceToken(x) && lex[p + 1] == LBrack && KnownPlace(x, env)
    ensures EvalAt(lex, p, env) == Run(lex, SetOpened(p + 2, x, env), env)
  {
    hide Run, MapFrom, ArrayFrom;
    var s, s1 := Start(p), EvalState(p + 1, [Index(ElementOf(x, env))], [ReadPlace(x, env)], [], None, true);
    assert [] + [Index(ElementOf(x, env))] == [Index(ElementOf(x, env))] && [] + [ReadPlace(x, env)] == [ReadPlace(x, env)];
    StepOnce(lex, s, s1, env);
    StepOnce(lex, s1, SetOpened(p + 2, x, env), env);
  }

  /** The closing bracket in front of an equals sign: the element is remembered. */
  lemma {:induction false} CloseSetStep(lex: seq<Lexeme>, s: EvalState, t: Target, q: seq<Code>, env: Env)
    requires s.i + 1 < |lex| && lex[s.i] == RBrack && lex[s.i + 1] == Equals
    requires s.buffer == [Index(t)] + [Sys] + q && Ops(q)
    ensures Run(lex, s, env) ==
            Run(lex, s.(i := s.i + 2, buffer := [], code := s.code + Reverse(q), setIndex := Some(t), noMap := false), env)
  {
    hide Run, CloseBracket, Reverse;
    CloseOps([Index(t)], q, s.code);
    assert Front([Index(t)]) == [];
    StepOnce(lex, s, s.(i := s.i + 2, buffer := [], code := s.code + Reverse(q), setIndex := Some(t), noMap := false), env);
  }

  /** At the end of the value the command that stores is the last one. */
  lemma {:induction false} EndSetStep(lex: seq<Lexeme>, s: EvalState, t: Target, env: Env)
    requires 0 < s.i <= |lex| && EndsAt(lex, s.i, s.noMap) && EndsOperand(lex[s.i - 1])
    requires Ops(s.buffer) && s.setIndex == Some(t)
    ensures Run(lex, s, env) == Good((StopAt(lex, s.i), s.code + Reverse(s.buffer) + [SetIndex(t)]))
  {
    hide MapFrom, ArrayFrom, Reverse, StepRPar, StepRBrack, StepOper, StepComma, StepIdent, StepExtend;
  }

  lemma {:induction false} SetLayout(lex: seq<Lexeme>, p: nat, x: Place, index: Expr, value: Expr, env: Env)
    requires At(lex, p, SetText(x, index, value)) && Canonical(value, env)
    requires EndsAt(lex, p + |SetText(x, index, value)|, EndNoMap(value))
    ensures p + 2 < |lex| && lex[p] == PlaceToken(x) && lex[p + 1] == LBrack && At(lex, p + 2, Print(index))
    ensures var q := p + 2 + |Print(index)|;
            && q + 1 < |lex| && lex[q] == RBrack && lex[q + 1] == Equals && At(lex, q + 2, Print(value))
            && p + |SetText(x, index, value)| == q + 2 + |Print(value)| <= |lex|
            && EndsOperand(lex[q + 1 + |Print(value)|]) && Follow(lex, q + 2 + |Print(value)|)
  {
    hide At, Print, EndsOperand;
    var i, v, q := Print(index), Print(value), p + 2 + |Print(index)|;
    AtConcat(lex, p, [PlaceToken(x), LBrack], i + ([RBrack, Equals] + v));
    AtConcat(lex, p + 2, i, [RBrack, Equals] + v);
    AtConcat(lex, q, [RBrack, Equals], v);
    AtIndex(lex, p, [PlaceToken(x), LBrack], 0);
    AtIndex(lex, p, [PlaceToken(x), LBrack], 1);
    AtIndex(lex, q, [RBrack, Equals], 0);
    AtIndex(lex, q, [RBrack, Equals], 1);
    PrintEnds(value, env);
    AtIndex(lex, q + 2, v, |v| - 1);
  }

  /** The index, from behind the opening bracket to behind the equals sign. */
  lemma {:induction false} IndexRun(lex: seq<Lexeme>, p: nat, x: Place, index: Expr, env: Env)
    requires KnownPlace(x, env) && Canonical(index, env) && BadCall(index, env) == None && At(lex, p, Print(index)) && p > 0 && lex[p - 1] == LBrack
    requires var q := p + |Print(index)|; q + 1 < |lex| && lex[q] == RBrack && lex[q + 1] == Equals
    ensures Run(lex, SetOpened(p, x, env), env) ==
            Run(lex, EvalState(p + |Print(index)| + 2, [], [ReadPlace(x, env)] + Output(index, env), [], Some(ElementOf(x, env)), false), env)
  {
    hide Run, Emitted, Print, Reverse, Bins, Uns, Output, Canonical, BadCall, At;
    var s, q, t := SetOpened(p, x, env), p + |Print(index)|, ElementOf(x, env);
    assert Ready(s.buffer, Level(index));
    Operand(lex, s, index, env);
    var s1 := AfterOperand(s, index, env);
    GroupCode(s.code, index, env);
    assert s1.buffer == [Index(t)] + [Sys] + (Bins(index) + Uns(index));
    CloseSetStep(lex, s1, t, Bins(index) + Uns(index), env);
  }

  /** The value, from behind the equals sign to the end. */
  lemma {:induction false} ValueRun(lex: seq<Lexeme>, p: nat, code: seq<Code>, t: Target, value: Expr, env: Env)
    requires Canonical(value, env) && BadCall(value, env) == None && At(lex, p, Print(value)) && p > 0 && lex[p - 1] == Equals
    requires var q := p + |Print(value)|; q <= |lex| && EndsAt(lex, q, EndNoMap(value)) && EndsOperand(lex[q - 1]) && Follow(lex, q)
    ensures Run(lex, EvalState(p, [], code, [], Some(t), false), env) ==
            Good((StopAt(lex, p + |Print(value)|), code + Output(value, env) + [SetIndex(t)]))
  {
    hide Run, Emitted, Print, Reverse, Bins, Uns, Output, Canonical, BadCall, At, EndsAt, EndsOperand, Follow;
    var s := EvalState(p, [], code, [], Some(t), false);
    assert Fresh(lex, p) by { EqualsNoOperand(lex, p); }
    Operand(lex, s, value, env);
    var s1 := AfterOperand(s, value, env);
    GroupCode(code, value, env);
    assert s1.buffer == Bins(value) + Uns(value);
    EndSetStep(lex, s1, t, env);
  }

  lemma EqualsNoOperand(lex: seq<Lexeme>, p: nat)
    requires 0 < p <= |lex| && lex[p - 1] == Equals
    ensures Fresh(lex, p)
  {
  }

  /** The main result: `x[index] = value` compiles to the place, the index and the value,
      each in postfix order, and the command that stores the element. */
  lemma {:induction false} SetTheorem(lex: seq<Lexeme>, p: nat, x: Place, index: Expr, value: Expr, env: Env)
    requires KnownPlace(x, env) && Canonical(index, env) && Canonical(value, env)
    requires BadCall(index, env) == None && BadCall(value, env) == None
    requires At(lex, p, SetText(x, index, value)) && EndsAt(lex, p + |SetText(x, index, value)|, EndNoMap(value))
    ensures EvalAt(lex, p, env) ==
            Good((StopAt(lex, p + |SetText(x, index, value)|),
                  [ReadPlace(x, env)] + Output(index, env) + Output(value, env) + [SetIndex(ElementOf(x, env))]))
    ensures EvenRuns(index) && EvenRuns(value) ==>
            [ReadPlace(x, env)] + Output(index, env) + Output(value, env) + [SetIndex(ElementOf(x, env))] ==
            [ReadPlace(x, env)] + Postfix(index, env) + Postfix(value, env) + [SetIndex(ElementOf(x, env))]
  {
    hide Run, Print, Output, Postfix, Canonical, BadCall, At, EndsAt, EndsOperand, Follow, EvenRuns, StopAt;
    SetLayout(lex, p, x, index, value, env);
    SetStart(lex, p, x, env);
    IndexRun(lex, p + 2, x, index, env);
    ValueRun(lex, p + 4 + |Print(index)|, [ReadPlace(x, env)] + Output(index, env), ElementOf(x, env), value, env);
    OutputIsPostfix(index, env);
    OutputIsPostfix(value, env);
  }
}

/**
 Calls in other forms: with a last argument that is spread, as in `f(a, b...)`, and of
 outer functions, as in `$f(a)`. What compileEval makes of them.
 */
module CallForms {
  import opened Wrappers
  import opened Lexemes
  import opened Initializers
  import opened Expressions
  import opened ExpressionTrees
  import opened ExpressionCompilation

  function SpreadText(n: string, a: Args): seq<Lexeme> {
    [Ident(n), LPar] + (PrintArgs(a) + [Key(KwTail), RPar])
  }

  /** The command for `...` comes in front of the operators that are still pending. */
  function SpreadOutput(e: Expr, env: Env): seq<Code>
    requires Canonical(e, env)
  {
    Emitted(e, env) + [UnwrapArr] + Reverse(Bins(e) + Uns(e))
  }

  function SpreadArgs(a: Args, env: Env): seq<Code>
    requires CanonicalArgs(a, env) && a.Arg?
    decreases a
  {
    if a.rest.NoArg? then SpreadOutput(a.e, env) else Output(a.e, env) + SpreadArgs(a.rest, env)
  }

  /** The last argument. */
  function LastOf(a: Args): Expr
    requires a.Arg?
  {
    if a.rest.NoArg? then a.e else LastOf(a.rest)
  }

  // ----- the arguments -----

  lemma {:induction false} SpreadLayout(lex: seq<Lexeme>, i: nat, a: Args, env: Env)
    requires a.Arg? && CanonicalArgs(a, env) && At(lex, i, PrintArgs(a) + [Key(KwTail), RPar])
    ensures var q := i + |Print(a.e)|;
            && At(lex, i, Print(a.e)) && Follow(lex, q)
            && (a.rest.NoArg? ==> q + 1 < |lex| && lex[q] == Key(KwTail) && lex[q + 1] == RPar && |PrintArgs(a)| == |Print(a.e)|)
            && (a.rest.Arg? ==> At(lex, q, [Comma]) && At(lex, q + 1, PrintArgs(a.rest) + [Key(KwTail), RPar]) &&
                                Fresh(lex, q + 1) && |PrintArgs(a)| == |Print(a.e)| + 1 + |PrintArgs(a.rest)|)
  {
    hide Print, PrintArgs, At;
    PrintArgsShape(a);
    var q, tail := i + |Print(a.e)|, [Key(KwTail), RPar];
    if a.rest.NoArg? {
      AtConcat(lex, i, Print(a.e), tail);
      AtIndex(lex, q, tail, 0);
      AtIndex(lex, q, tail, 1);
    } else {
      assert PrintArgs(a) + tail == Print(a.e) + ([Comma] + (PrintArgs(a.rest) + tail));
      AtConcat(lex, i, Print(a.e), [Comma] + (PrintArgs(a.rest) + tail));
      AtConcat(lex, q, [Comma], PrintArgs(a.rest) + tail);
      AtIndex(lex, q, [Comma], 0);
    }
  }

  /** The state behind the call. */
  function AfterSpread(s: EvalState, b: seq<Code>, f: Func, a: Args, counts: seq<nat>, total: nat, env: Env): EvalState
    requires CanonicalArgs(a, env) && a.Arg?
  {
    s.(i := s.i + |PrintArgs(a)| + 2, buffer := b, code := s.code + SpreadArgs(a, env) + CallCode(f, total),
       parcount := counts, noMap := true)
  }

  ghost predicate SpreadCompiles(lex: seq<Lexeme>, s: EvalState, b: seq<Code>, f: Func, a: Args, counts: seq<nat>, total: nat, env: Env)
    requires CanonicalArgs(a, env) && a.Arg?
  {
    Run(lex, s, env) ==
    if BadCallArgs(a, env).Some? then Bad(ErrWrongParams(BadCallArgs(a, env).value))
    else if WrongCount(f, total) then Bad(ErrWrongParams(f.name))
    else Run(lex, AfterSpread(s, b, f, a, counts, total, env), env)
  }

  lemma {:induction false} LastSpread(lex: seq<Lexeme>, s: EvalState, b: seq<Code>, f: Func, e: Expr, counts: seq<nat>, n: nat, env: Env)
    requires Canonical(e, env) && InCall(s, b, f, counts, n)
    requires var q := s.i + |Print(e)|; q + 1 < |lex| && lex[q] == Key(KwTail) && lex[q + 1] == RPar
    ensures Run(lex, AfterOperand(s, e, env), env) ==
            if WrongCount(f, n) then Bad(ErrWrongParams(f.name))
            else Run(lex, s.(i := s.i + |Print(e)| + 2, buffer := b, code := s.code + SpreadOutput(e, env) + CallCode(f, n),
                             parcount := counts, noMap := true), env)
  {
    hide Run, Reverse, Print, Emitted, Bins, Uns, CallCode, WrongCount;
    GroupCode(s.code, e, env);
    var s1, q := AfterOperand(s, e, env), Bins(e) + Uns(e);
    var s2 := s1.(i := s1.i + 1, code := s1.code + [UnwrapArr], noMap := false);
    TailStep(lex, s1, env);
    assert s2.buffer == b + [CallCommand(f)] + [Sys] + q;
    CloseCallStep(lex, s2, b, f, q, counts, n, env);
    assert s.code + Emitted(e, env) + [UnwrapArr] + Reverse(q) == s.code + SpreadOutput(e, env);
  }

  lemma TailStep(lex: seq<Lexeme>, s: EvalState, env: Env)
    requires s.i < |lex| && lex[s.i] == Key(KwTail)
    ensures Run(lex, s, env) == Run(lex, s.(i := s.i + 1, code := s.code + [UnwrapArr], noMap := false), env)
  {
    hide Run;
    StepOnce(lex, s, s.(i := s.i + 1, code := s.code + [UnwrapArr], noMap := false), env);
  }

  lemma SpreadFirst(c: seq<Code>, a: Args, env: Env)
    requires a.Arg? && CanonicalArgs(a, env)
    ensures a.rest.NoArg? ==> SpreadArgs(a, env) == SpreadOutput(a.e, env)
    ensures a.rest.Arg? ==> c + Output(a.e, env) + SpreadArgs(a.rest, env) == c + SpreadArgs(a, env)
  {
    hide Output, SpreadOutput;
  }

  lemma {:induction false} SpreadRun(lex: seq<Lexeme>, s: EvalState, b: seq<Code>, f: Func, a: Args, counts: seq<nat>, n: nat, env: Env)
    requires a.Arg? && CanonicalArgs(a, env) && InCall(s, b, f, counts, n)
    requires At(lex, s.i, PrintArgs(a) + [Key(KwTail), RPar]) && Fresh(lex, s.i)
    ensures SpreadCompiles(lex, s, b, f, a, counts, n - 1 + Count(a), env)
    decreases a
  {
    hide Run, Reverse, Print, PrintArgs, Emitted, OutputArgs, BadCall, BadCallArgs, Bins, Uns, Output, CallCode, WrongCount, AfterOperand, At,
         SpreadArgs, SpreadOutput;
    SpreadLayout(lex, s.i, a, env);
    ArgsOutput(s.code, a, env);
    SpreadFirst(s.code, a, env);
    Operand(lex, s, a.e, env);
    if BadCall(a.e, env).None? {
      if a.rest.NoArg? {
        LastSpread(lex, s, b, f, a.e, counts, n, env);
      } else {
        NextArg(lex, s, b, f, a.e, counts, n, env);
        SpreadRun(lex, AfterArg(s, a.e, counts, n, env), b, f, a.rest, counts, n + 1, env);
      }
    }
  }

  // ----- the call -----

  /** The main result: a call with `...` that stands alone compiles to its arguments, the
      command that spreads the last one, and the call. */
  lemma {:induction false} SpreadTheorem(lex: seq<Lexeme>, p: nat, n: string, a: Args, env: Env)
    requires a.Arg? && CanonicalArgs(a, env) && n in env && env[n].ObjFunc? && BadCallArgs(a, env) == None
    requires At(lex, p, SpreadText(n, a)) && EndsAt(lex, p + |SpreadText(n, a)|, true)
    ensures EvalAt(lex, p, env) ==
            if WrongCount(env[n].f, Count(a)) then Bad(ErrWrongParams(env[n].f.name))
            else Good((StopAt(lex, p + |SpreadText(n, a)|), SpreadArgs(a, env) + CallCode(env[n].f, Count(a))))
    ensures SpreadArgs(a, env) == OutputArgs(a, env) + [UnwrapArr] <==> Bins(LastOf(a)) == [] && Uns(LastOf(a)) == []
  {
    hide Run, PrintArgs, SpreadArgs, OutputArgs, CallCode, WrongCount, At, BadCallArgs, Bins, Uns;
    var f, s, q := env[n].f, Start(p), p + |SpreadText(n, a)|;
    var t := PrintArgs(a) + [Key(KwTail), RPar];
    AtConcat(lex, p, [Ident(n), LPar], t);
    AtIndex(lex, p, [Ident(n), LPar], 0);
    AtIndex(lex, p, [Ident(n), LPar], 1);
    SpreadStart(lex, p + 2, a, env);
    CallStart(lex, s, n, env);
    var s1 := s.(i := p + 2, buffer := [] + [CallCommand(f)] + [Sys], parcount := [] + [1], noMap := false);
    assert [] + [CallCommand(f)] == [CallCommand(f)];
    SpreadRun(lex, s1, [], f, a, [], 1, env);
    var s2 := AfterSpread(s1, [], f, a, [], Count(a), env);
    AtConcat(lex, p + 2, PrintArgs(a), [Key(KwTail), RPar]);
    AtIndex(lex, q - 2, [Key(KwTail), RPar], 1);
    EndStep(lex, s2, env);
    assert [] + SpreadArgs(a, env) + CallCode(f, Count(a)) + Reverse([]) == SpreadArgs(a, env) + CallCode(f, Count(a));
    SpreadsLast(a, env);
  }

  lemma {:induction false} SpreadStart(lex: seq<Lexeme>, i: nat, a: Args, env: Env)
    requires a.Arg? && CanonicalArgs(a, env) && At(lex, i, PrintArgs(a) + [Key(KwTail), RPar]) && i > 0 && lex[i - 1] == LPar
    ensures i < |lex| && lex[i] != RPar && Fresh(lex, i)
  {
    hide At, PrintArgs;
    SpreadLayout(lex, i, a, env);
    PrintEnds(a.e, env);
    AtIndex(lex, i, Print(a.e), 0);
  }

  /** The spreading command stands behind the value of the last argument if and only if no
      operator of that argument is pending. */
  lemma {:induction false} SpreadsLast(a: Args, env: Env)
    requires a.Arg? && CanonicalArgs(a, env)
    ensures SpreadArgs(a, env) == OutputArgs(a, env) + [UnwrapArr] <==> Bins(LastOf(a)) == [] && Uns(LastOf(a)) == []
    decreases a
  {
    hide Output, Bins, Uns, Emitted, SpreadOutput;
    if a.rest.NoArg? {
      assert OutputArgs(a, env) == Output(a.e, env);
      SpreadsOne(a.e, env);
    } else {
      SpreadsLast(a.rest, env);
      var o, x, y := Output(a.e, env), SpreadArgs(a.rest, env), OutputArgs(a.rest, env) + [UnwrapArr];
      assert OutputArgs(a, env) + [UnwrapArr] == o + y;
      if o + x == o + y { assert x == (o + x)[|o|..] && y == (o + y)[|o|..]; }
    }
  }

  lemma {:induction false} SpreadsOne(e: Expr, env: Env)
    requires Canonical(e, env)
    ensures SpreadOutput(e, env) == Output(e, env) + [UnwrapArr] <==> Bins(e) == [] && Uns(e) == []
  {
    hide Bins, Uns, Emitted, Output, Reverse;
    GroupCode([], e, env);
    var x, q := Emitted(e, env), Bins(e) + Uns(e);
    var r := Reverse(q);
    assert Output(e, env) == x + r by { assert [] + x + r == x + r && [] + Output(e, env) == Output(e, env); }
    if q == [] {
      ReverseNone();
      assert x + [UnwrapArr] + [] == x + [] + [UnwrapArr];
    } else {
      ReverseFirst(q);
      assert (x + [UnwrapArr] + r)[|x|] == UnwrapArr && (x + r + [UnwrapArr])[|x|] == r[0];
    }
  }

  lemma ReverseNone()
    ensures Reverse([]) == []
  {
  }

  lemma ReverseFirst(q: seq<Code>)
    requires q != []
    ensures Reverse(q) != [] && Reverse(q)[0] == q[|q| - 1]
  {
  }

  // ----- calls of outer functions -----

  function OuterText(n: string, a: Args): seq<Lexeme> {
    [Lexeme.Extend(n), LPar] + (PrintArgs(a) + [RPar])
  }

  /** Inside the parentheses of the call. */
  predicate InOuter(s: EvalState, n: string, k: nat) {
    s.buffer == [CallExtend(n)] + [Sys] && s.parcount == [k] && !s.noMap && s.setIndex == None
  }

  /** The state behind the call; the count of its arguments stays. */
  function AfterOuter(s: EvalState, n: string, a: Args, k: nat, env: Env): EvalState
    requires CanonicalArgs(a, env)
  {
    s.(i := s.i + |PrintArgs(a)| + 1, buffer := [CallExtend(n)], code := s.code + OutputArgs(a, env), parcount := [k], noMap := true)
  }

  lemma {:induction false} OuterClose(lex: seq<Lexeme>, s: EvalState, n: string, q: seq<Code>, env: Env)
    requires s.i < |lex| && lex[s.i] == RPar && s.buffer == [CallExtend(n)] + [Sys] + q && Ops(q)
    ensures Run(lex, s, env) == Run(lex, s.(i := s.i + 1, buffer := [CallExtend(n)], code := s.code + Reverse(q), noMap := true), env)
  {
    hide Run, CloseBracket, Reverse;
    CloseOps([CallExtend(n)], q, s.code);
    StepOnce(lex, s, s.(i := s.i + 1, buffer := [CallExtend(n)], code := s.code + Reverse(q), noMap := true), env);
  }

  lemma {:induction false} OuterLast(lex: seq<Lexeme>, s: EvalState, n: string, e: Expr, k: nat, env: Env)
    requires Canonical(e, env) && At(lex, s.i + |Print(e)|, [RPar]) && InOuter(s, n, k)
    ensures Run(lex, AfterOperand(s, e, env), env) ==
            Run(lex, s.(i := s.i + |Print(e)| + 1, buffer := [CallExtend(n)], code := s.code + Output(e, env), noMap := true), env)
  {
    hide Run, Reverse, Print, Emitted, Bins, Uns, Output, At;
    GroupCode(s.code, e, env);
    var s1, q := AfterOperand(s, e, env), Bins(e) + Uns(e);
    assert s1.buffer == s.buffer + q;
    AtIndex(lex, s1.i, [RPar], 0);
    OuterClose(lex, s1, n, q, env);
  }

  lemma {:induction false} OuterNext(lex: seq<Lexeme>, s: EvalState, n: string, e: Expr, k: nat, env: Env)
    requires Canonical(e, env) && At(lex, s.i + |Print(e)|, [Comma]) && InOuter(s, n, k)
    ensures Run(lex, AfterOperand(s, e, env), env) == Run(lex, AfterArg(s, e, [], k, env), env)
  {
    hide Run, Reverse, Print, Emitted, Bins, Uns, Output, At;
    GroupCode(s.code, e, env);
    var s1, q := AfterOperand(s, e, env), Bins(e) + Uns(e);
    assert s1.buffer == s.buffer + q && [] + [k] == [k];
    AtIndex(lex, s1.i, [Comma], 0);
    CommaStep(lex, s1, s.buffer, q, [], k, env);
  }

  lemma OuterJoin(s: EvalState, n: string, a: Args, k: nat, env: Env)
    requires a.Arg? && CanonicalArgs(a, env) && InOuter(s, n, k)
    ensures a.rest.Arg? && |PrintArgs(a)| == |Print(a.e)| + 1 + |PrintArgs(a.rest)| ==>
              var t := AfterArg(s, a.e, [], k, env);
              && InOuter(t, n, k + 1) && t.i == s.i + |Print(a.e)| + 1
              && AfterOuter(t, n, a.rest, k + 1 + Count(a.rest) - 1, env) == AfterOuter(s, n, a, k + Count(a) - 1, env)
    ensures a.rest.NoArg? && |PrintArgs(a)| == |Print(a.e)| ==>
              s.(i := s.i + |Print(a.e)| + 1, buffer := [CallExtend(n)], code := s.code + Output(a.e, env), noMap := true) ==
              AfterOuter(s, n, a, k + Count(a) - 1, env)
  {
    hide Print, PrintArgs, Output, OutputArgs;
    ArgsOutput(s.code, a, env);
    assert [] + [k + 1] == [k + 1];
  }

  lemma {:induction false} OuterArgs(lex: seq<Lexeme>, s: EvalState, n: string, a: Args, k: nat, env: Env)
    requires a.Arg? && CanonicalArgs(a, env) && InOuter(s, n, k) && BadCallArgs(a, env) == None
    requires At(lex, s.i, PrintArgs(a) + [RPar]) && Fresh(lex, s.i)
    ensures Run(lex, s, env) == Run(lex, AfterOuter(s, n, a, k + Count(a) - 1, env), env)
    decreases a
  {
    hide Run, Reverse, Print, PrintArgs, Emitted, OutputArgs, BadCall, BadCallArgs, Bins, Uns, Output, At, AfterOperand,
         AfterOuter, AfterArg;
    ArgLayout(lex, s, a, env);
    ArgsOutput(s.code, a, env);
    OuterJoin(s, n, a, k, env);
    Operand(lex, s, a.e, env);
    if a.rest.NoArg? {
      OuterLast(lex, s, n, a.e, k, env);
    } else {
      OuterNext(lex, s, n, a.e, k, env);
      OuterArgs(lex, AfterArg(s, a.e, [], k, env), n, a.rest, k + 1, env);
    }
  }

  lemma {:induction false} OuterStart(lex: seq<Lexeme>, p: nat, n: string, a: Args, env: Env)
    requires CanonicalArgs(a, env) && At(lex, p, OuterText(n, a))
    ensures var k := if a.NoArg? then 0 else 1;
            EvalAt(lex, p, env) == Run(lex, EvalState(p + 2, [CallExtend(n)] + [Sys], [], [k], None, false), env)
    ensures p + 1 < |lex| && lex[p + 1] == LPar && At(lex, p + 2, PrintArgs(a) + [RPar])
  {
    hide Run, PrintArgs, At, MapFrom, ArrayFrom;
    AtConcat(lex, p, [Lexeme.Extend(n), LPar], PrintArgs(a) + [RPar]);
    AtIndex(lex, p, [Lexeme.Extend(n), LPar], 0);
    AtIndex(lex, p, [Lexeme.Extend(n), LPar], 1);
    AtIndex(lex, p + 2, PrintArgs(a) + [RPar], 0);
    ArgsFirst(a, env);
    var k := if a.NoArg? then 0 else 1;
    var s1 := EvalState(p + 1, [CallExtend(n)], [], [k], None, true);
    assert [] + [CallExtend(n)] == [CallExtend(n)] && [] + [k] == [k];
    StepOnce(lex, Start(p), s1, env);
    StepOnce(lex, s1, EvalState(p + 2, [CallExtend(n)] + [Sys], [], [k], None, false), env);
  }

  /** A call of an outer function that stands alone compiles to its arguments and the call;
      with an operator behind it the compiler panics. */
  lemma {:induction false} OuterTheorem(lex: seq<Lexeme>, p: nat, n: string, a: Args, env: Env)
    requires CanonicalArgs(a, env) && BadCallArgs(a, env) == None && At(lex, p, OuterText(n, a))
    ensures var q := p + |OuterText(n, a)|;
            && (EndsAt(lex, q, true) ==> EvalAt(lex, p, env) == Good((StopAt(lex, q), OutputArgs(a, env) + [CallExtend(n)])))
            && (q < |lex| && lex[q].Oper? ==> EvalAt(lex, p, env) == Panic)
  {
    hide Run, PrintArgs, OutputArgs, At, BadCallArgs;
    OuterStart(lex, p, n, a, env);
    var k, q := if a.NoArg? then 0 else 1, p + |OuterText(n, a)|;
    var s1 := EvalState(p + 2, [CallExtend(n)] + [Sys], [], [k], None, false);
    var s2 := AfterOuter(s1, n, a, Count(a), env);
    AtConcat(lex, p + 2, PrintArgs(a), [RPar]);
    AtIndex(lex, q - 1, [RPar], 0);
    if a.NoArg? {
      NoArgLayout(lex, p + 2, a);
      OuterNone(a, env);
      assert s1.buffer + [] == s1.buffer && [] + Reverse([]) == [];
      OuterClose(lex, s1, n, [], env);
    } else {
      OuterArgs(lex, s1, n, a, 1, env);
    }
    assert [] + OutputArgs(a, env) == OutputArgs(a, env);
    OuterEnd(lex, s2, n, env);
  }

  lemma OuterNone(a: Args, env: Env)
    requires a.NoArg?
    ensures OutputArgs(a, env) == [] && Count(a) == 0 && PrintArgs(a) == []
  {
  }

  lemma {:induction false} OuterEnd(lex: seq<Lexeme>, s: EvalState, n: string, env: Env)
    requires 0 < s.i <= |lex| && s.buffer == [CallExtend(n)] && s.setIndex == None && s.noMap && lex[s.i - 1] == RPar
    ensures EndsAt(lex, s.i, true) ==> Run(lex, s, env) == Good((StopAt(lex, s.i), s.code + [CallExtend(n)]))
    ensures s.i < |lex| && lex[s.i].Oper? ==> Run(lex, s, env) == Panic
  {
    hide MapFrom, ArrayFrom, StepRPar, StepRBrack, StepComma, StepIdent, StepExtend;
    assert Reverse([CallExtend(n)]) == [CallExtend(n)] by { assert [CallExtend(n)][..0] == [] && Reverse([]) == []; }
  }
}

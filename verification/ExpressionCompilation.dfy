/**
 The run of the translator over the lexemes of a tree, from any point of a
 larger lexeme list: it appends exactly the code of the tree, leaves the tree's
 pending operators on the buffer and restores the argument counts; or it stops
 at the first call of a built-in function with a wrong number of arguments.
 */
module ExpressionCompilation {
  import opened Wrappers
  import opened Lexemes
  import opened Initializers
  import opened Expressions
  import opened ExpressionTrees

  /** The buffer may take an operand that binds at level `k`. */
  predicate Ready(buffer: seq<Code>, k: nat) {
    buffer == [] ||
    (Priority(Last(buffer)).Some? &&
     (Last(buffer) == Sys || k >= UNARY_PRIORITY || Priority(Last(buffer)).value < k))
  }

  /** No operand stands in front of position `p`. */
  predicate Fresh(lex: seq<Lexeme>, p: nat) {
    p == 0 || p > |lex| || !EndsOperand(lex[p - 1])
  }

  /** What stands at `q` does not turn the operand in front of it into something else. */
  predicate Follow(lex: seq<Lexeme>, q: nat) {
    q < |lex| ==> lex[q] != LPar && lex[q] != LBrack && lex[q] != Equals
  }

  predicate Ops(q: seq<Code>) {
    forall k :: 0 <= k < |q| ==> q[k].Bin? || q[k].Un?
  }

  function EndNoMap(e: Expr): bool {
    match e
    case Literal(_) => false
    case Prefix(_, x) => EndNoMap(x)
    case Infix(_, _, _, r) => EndNoMap(r)
    case _ => true
  }

  /** The first built-in function, in the order of closing parentheses, that is called with a wrong number of arguments. */
  function BadCall(e: Expr, env: Env): Option<string>
    requires Canonical(e, env)
    decreases e
  {
    match e
    case Paren(x) => BadCall(x, env)
    case Element(_, x) => BadCall(x, env)
    case Prefix(_, x) => BadCall(x, env)
    case Infix(_, _, l, r) => if BadCall(l, env).Some? then BadCall(l, env) else BadCall(r, env)
    case Apply(n, args) =>
      if BadCallArgs(args, env).Some? then BadCallArgs(args, env)
      else if WrongCount(env[n].f, Count(args)) then Some(env[n].f.name)
      else None
    case _ => None
  }

  function BadCallArgs(a: Args, env: Env): Option<string>
    requires CanonicalArgs(a, env)
    decreases a
  {
    match a
    case NoArg => None
    case Arg(e, rest) => if BadCall(e, env).Some? then BadCall(e, env) else BadCallArgs(rest, env)
  }

  function AfterOperand(s: EvalState, e: Expr, env: Env): EvalState
    requires Canonical(e, env)
  {
    s.(i := s.i + |Print(e)|, buffer := s.buffer + Bins(e) + Uns(e),
       code := s.code + Emitted(e, env), noMap := EndNoMap(e))
  }

  // ----- the buffer loops on the pending operators of a tree -----

  lemma {:induction false} PendingOps(e: Expr, env: Env)
    requires Canonical(e, env)
    ensures Ops(Bins(e)) && Ops(Uns(e))
    ensures forall k :: 0 <= k < |Bins(e)| ==> Bins(e)[k].Bin? && BinPriority(Bins(e)[k].b) >= Level(e)
    ensures forall k :: 0 <= k < |Uns(e)| ==> Uns(e)[k].Un?
    decreases e
  {
    match e
    case Infix(b, _, l, r) => PendingOps(r, env);
    case Prefix(u, x) => PendingOps(x, env);
    case _ =>
  }

  lemma {:induction false} ReverseAppend(a: seq<Code>, b: seq<Code>)
    ensures Reverse(a + b) == Reverse(b) + Reverse(a)
    decreases |b|
  {
    if b == [] {
      assert a + b == a;
    } else {
      assert (a + b)[..|a + b| - 1] == a + b[..|b| - 1];
      ReverseAppend(a, b[..|b| - 1]);
    }
  }

  lemma FrontAppend(a: seq<Code>, q: seq<Code>)
    requires q != []
    ensures Front(a + q) == a + Front(q) && Last(a + q) == Last(q)
  {
  }

  lemma {:induction false} CloseOps(b: seq<Code>, q: seq<Code>, code: seq<Code>)
    requires Ops(q)
    ensures CloseBracket(b + [Sys] + q, code) == Good((b, code + Reverse(q)))
    decreases |q|
  {
    if q == [] {
      FrontAppend(b, [Sys]);
      assert b + [Sys] + q == b + [Sys];
      assert code + Reverse(q) == code;
    } else {
      FrontAppend(b + [Sys], q);
      CloseOps(b, Front(q), code + [Last(q)]);
      assert code + [Last(q)] + Reverse(Front(q)) == code + Reverse(q);
    }
  }

  lemma {:induction false} FlushOps(b: seq<Code>, q: seq<Code>, code: seq<Code>)
    requires Ops(q)
    requires b == [] || Last(b) == Sys
    ensures FlushToBracket(b + q, code) == (b, code + Reverse(q))
    decreases |q|
  {
    if q == [] {
      assert b + q == b;
      assert code + Reverse(q) == code;
    } else {
      FrontAppend(b, q);
      FlushOps(b, Front(q), code + [Last(q)]);
      assert code + [Last(q)] + Reverse(Front(q)) == code + Reverse(q);
    }
  }

  lemma {:induction false} RunOfPrefixes(b: seq<Code>, us: seq<Code>, k: nat)
    requires forall j :: 0 <= j < |us| ==> us[j].Un?
    requires b == [] || (Priority(Last(b)).Some? && Priority(Last(b)).value != UNARY_PRIORITY)
    requires k <= |us|
    ensures RunStart(b + us, |b| + k) == Some(|b|)
    decreases k
  {
    if k > 0 {
      assert (b + us)[|b| + k - 1] == us[k - 1];
      RunOfPrefixes(b, us, k - 1);
    } else if b != [] {
      assert (b + us)[|b| - 1] == Last(b);
    }
  }

  lemma {:induction false} PopBins(b: seq<Code>, bs: seq<Code>, code: seq<Code>, p: nat)
    requires forall k :: 0 <= k < |bs| ==> bs[k].Bin? && BinPriority(bs[k].b) >= p
    requires p < UNARY_PRIORITY && Ready(b, p)
    ensures PopHigher(b + bs, code, p) == Good((b, code + Reverse(bs)))
    decreases |bs|
  {
    hide RunStart;
    if bs == [] {
      assert b + bs == b;
      assert code + Reverse(bs) == code;
    } else {
      FrontAppend(b, bs);
      PopBins(b, Front(bs), code + [Last(bs)], p);
      assert code + [Last(bs)] + Reverse(Front(bs)) == code + Reverse(bs);
    }
  }

  /** A binary operator emits all that its left operand left pending, and no more. */
  lemma {:induction false} PopPending(b: seq<Code>, bs: seq<Code>, us: seq<Code>, code: seq<Code>, p: nat)
    requires forall k :: 0 <= k < |bs| ==> bs[k].Bin? && BinPriority(bs[k].b) >= p
    requires forall k :: 0 <= k < |us| ==> us[k].Un?
    requires p < UNARY_PRIORITY && Ready(b, p)
    ensures PopHigher(b + bs + us, code, p) == Good((b, code + us + Reverse(bs)))
  {
    hide Reverse, PopHigher;
    var q := b + bs;
    if us == [] {
      assert q + us == q && code + us == code;
    } else {
      if bs != [] { FrontAppend(b, bs); } else { assert q == b; }
      PopRun(q, us, code, p);
    }
    PopBins(b, bs, code + us, p);
  }

  lemma {:induction false} PopRun(q: seq<Code>, us: seq<Code>, code: seq<Code>, p: nat)
    requires us != [] && forall k :: 0 <= k < |us| ==> us[k].Un?
    requires q == [] || (Priority(Last(q)).Some? && Priority(Last(q)).value != UNARY_PRIORITY)
    requires p < UNARY_PRIORITY
    ensures PopHigher(q + us, code, p) == PopHigher(q, code + us, p)
  {
    hide RunStart;
    RunOfPrefixes(q, us, |us| - 1);
    FrontAppend(q, us);
    assert |q + us| - 1 == |q| + (|us| - 1);
    assert (q + us)[..|q|] == q && (q + us)[|q|..] == us;
  }

  // ----- shape of the printed trees -----

  lemma {:induction false} TokensEnd(v: Init)
    requires v.InitMap? || v.InitArray?
    ensures Tokens(v)[|Tokens(v)| - 1] == (if v.InitMap? then RCurly else RBrack)
    ensures Tokens(v)[0] == (if v.InitMap? then LCurly else LBrack)
  {
  }

  lemma {:induction false} PrintEnds(e: Expr, env: Env)
    requires Canonical(e, env)
    ensures EndsOperand(Print(e)[|Print(e)| - 1])
    ensures Print(e)[0] != RPar
    decreases e
  {
    match e
    case Literal(v) => TokensEnd(v);
    case Prefix(_, x) => PrintEnds(x, env);
    case Infix(_, _, l, r) =>
      PrintEnds(l, env);
      PrintEnds(r, env);
    case _ =>
  }

  lemma Regroup(a: seq<Lexeme>, b: seq<Lexeme>, c: seq<Lexeme>)
    ensures a + b + c == a + (b + c)
  {
  }

  lemma {:induction false} PrintShape(e: Expr)
    ensures e.Paren? ==> Print(e) == [LPar] + (Print(e.e) + [RPar])
    ensures e.Element? ==> Print(e) == [Ident(e.name), LBrack] + (Print(e.index) + [RBrack])
    ensures e.Apply? ==> Print(e) == [Ident(e.name), LPar] + (PrintArgs(e.args) + [RPar])
    ensures e.Prefix? ==> Print(e) == [Oper(PrefixSymbol(e.u))] + Print(e.e)
    ensures e.Infix? ==> Print(e) == Print(e.l) + ([Oper(Symbol(e.b))] + ((if e.newLine then [NewLine] else []) + Print(e.r)))
  {
    hide Symbol, PrefixSymbol, Tokens;
    match e
    case Paren(x) => Regroup([LPar], Print(x), [RPar]);
    case Element(n, x) => Regroup([Ident(n), LBrack], Print(x), [RBrack]);
    case Apply(n, args) => Regroup([Ident(n), LPar], PrintArgs(args), [RPar]);
    case Infix(b, nl, _, r) => Regroup([Oper(Symbol(b))], if nl then [NewLine] else [], Print(r));
    case _ =>
  }

  lemma PrintArgsShape(a: Args)
    requires a.Arg?
    ensures a.rest.NoArg? ==> PrintArgs(a) == Print(a.e)
    ensures a.rest.Arg? ==> PrintArgs(a) == Print(a.e) + ([Comma] + PrintArgs(a.rest))
    ensures a.rest.Arg? ==> PrintArgs(a) + [RPar] == Print(a.e) + ([Comma] + (PrintArgs(a.rest) + [RPar]))
  {
    hide Print;
    if a.rest.Arg? {
      assert Print(a.e) + ([Comma] + PrintArgs(a.rest)) + [RPar] == Print(a.e) + ([Comma] + (PrintArgs(a.rest) + [RPar]));
    }
  }

  // ----- single steps -----

  lemma StepOnce(lex: seq<Lexeme>, s: EvalState, s': EvalState, env: Env)
    requires s.i < |lex| && EvalStep(lex, s, env) == Next(s')
    ensures Run(lex, s, env) == Run(lex, s', env)
  {
    hide EvalStep;
  }

  lemma StepFails(lex: seq<Lexeme>, s: EvalState, e: Error, env: Env)
    requires s.i < |lex| && EvalStep(lex, s, env) == StepBad(e)
    ensures Run(lex, s, env) == Bad(e)
  {
    hide EvalStep;
  }

  lemma {:induction false} OpenStep(lex: seq<Lexeme>, s: EvalState, env: Env)
    requires s.i < |lex|
    requires lex[s.i] == LPar || (lex[s.i] == LBrack && s.noMap)
    ensures Run(lex, s, env) == Run(lex, s.(i := s.i + 1, buffer := s.buffer + [Sys], noMap := false), env)
  {
    hide Run, MapFrom, ArrayFrom;
    StepOnce(lex, s, s.(i := s.i + 1, buffer := s.buffer + [Sys], noMap := false), env);
  }

  /** A closing parenthesis that is not the end of a call. */
  lemma {:induction false} CloseGroupStep(lex: seq<Lexeme>, s: EvalState, b: seq<Code>, q: seq<Code>, env: Env)
    requires s.i < |lex| && lex[s.i] == RPar
    requires s.buffer == b + [Sys] + q && Ops(q)
    requires b == [] || Priority(Last(b)).Some?
    ensures Run(lex, s, env) == Run(lex, s.(i := s.i + 1, buffer := b, code := s.code + Reverse(q), noMap := true), env)
  {
    hide Run, CloseBracket, Reverse;
    CloseOps(b, q, s.code);
    StepOnce(lex, s, s.(i := s.i + 1, buffer := b, code := s.code + Reverse(q), noMap := true), env);
  }

  /** The closing parenthesis of a call. */
  lemma {:induction false} CloseCallStep(lex: seq<Lexeme>, s: EvalState, b: seq<Code>, f: Func, q: seq<Code>, counts: seq<nat>, n: nat, env: Env)
    requires s.i < |lex| && lex[s.i] == RPar
    requires s.buffer == b + [if f.variadic then CallVari(f) else Call(f)] + [Sys] + q && Ops(q)
    requires s.parcount == counts + [n]
    ensures Run(lex, s, env) ==
            if WrongCount(f, n) then Bad(ErrWrongParams(f.name))
            else Run(lex, s.(i := s.i + 1, buffer := b, code := s.code + Reverse(q) + CallCode(f, n),
                             parcount := counts, noMap := true), env)
  {
    hide Run, CloseBracket, Reverse;
    var cmd := if f.variadic then CallVari(f) else Call(f);
    CloseOps(b + [cmd], q, s.code);
    FrontAppend(b, [cmd]);
    assert Front([cmd]) == [] && b + Front([cmd]) == b;
    assert s.parcount[..|s.parcount| - 1] == counts;
    if WrongCount(f, n) {
      StepFails(lex, s, ErrWrongParams(f.name), env);
    } else {
      var c := s.code + Reverse(q);
      assert c + CallCode(f, n) == (if f.variadic then c + [Push(ArgCount(n))] else c) + [cmd];
      StepOnce(lex, s, s.(i := s.i + 1, buffer := b, code := c + CallCode(f, n),
                          parcount := counts, noMap := true), env);
    }
  }

  lemma {:induction false} CloseIndexStep(lex: seq<Lexeme>, s: EvalState, b: seq<Code>, t: Target, q: seq<Code>, env: Env)
    requires s.i < |lex| && lex[s.i] == RBrack && Follow(lex, s.i + 1)
    requires s.buffer == b + [Index(t)] + [Sys] + q && Ops(q)
    ensures Run(lex, s, env) ==
            Run(lex, s.(i := s.i + 1, buffer := b, code := s.code + Reverse(q) + [Index(t)], noMap := true), env)
  {
    hide Run, CloseBracket, Reverse;
    CloseOps(b + [Index(t)], q, s.code);
    FrontAppend(b, [Index(t)]);
    assert b + Front([Index(t)]) == b;
    StepOnce(lex, s, s.(i := s.i + 1, buffer := b, code := s.code + Reverse(q) + [Index(t)], noMap := true), env);
  }

  lemma {:induction false} CommaStep(lex: seq<Lexeme>, s: EvalState, b: seq<Code>, q: seq<Code>, counts: seq<nat>, n: nat, env: Env)
    requires s.i < |lex| && lex[s.i] == Comma
    requires s.buffer == b + q && Ops(q) && b != [] && Last(b) == Sys
    requires s.parcount == counts + [n]
    ensures Run(lex, s, env) ==
            Run(lex, s.(i := s.i + 1, buffer := b, code := s.code + Reverse(q), parcount := counts + [n + 1], noMap := false), env)
  {
    hide Run, FlushToBracket, Reverse;
    FlushOps(b, q, s.code);
    assert s.parcount[..|s.parcount| - 1] == counts;
    StepOnce(lex, s, s.(i := s.i + 1, buffer := b, code := s.code + Reverse(q), parcount := counts + [n + 1], noMap := false), env);
  }

  lemma {:induction false} PrefixStep(lex: seq<Lexeme>, s: EvalState, u: Unary, env: Env)
    requires s.i < |lex| && lex[s.i] == Oper(PrefixSymbol(u)) && Fresh(lex, s.i)
    requires s.buffer == [] || Priority(Last(s.buffer)).Some?
    ensures Run(lex, s, env) == Run(lex, s.(i := s.i + 1, buffer := s.buffer + [Un(u)], noMap := false), env)
  {
    hide Run;
    StepOnce(lex, s, s.(i := s.i + 1, buffer := s.buffer + [Un(u)], noMap := false), env);
  }

  lemma {:induction false} InfixStep(lex: seq<Lexeme>, s: EvalState, bin: Binary, b: seq<Code>, bs: seq<Code>, us: seq<Code>, env: Env)
    requires 0 < s.i < |lex| && lex[s.i] == Oper(Symbol(bin)) && EndsOperand(lex[s.i - 1])
    requires s.buffer == b + bs + us
    requires forall k :: 0 <= k < |bs| ==> bs[k].Bin? && BinPriority(bs[k].b) >= BinPriority(bin)
    requires forall k :: 0 <= k < |us| ==> us[k].Un?
    requires Ready(b, BinPriority(bin))
    ensures Run(lex, s, env) ==
            Run(lex, s.(i := s.i + 1, buffer := b + [Bin(bin)], code := s.code + us + Reverse(bs), noMap := false), env)
  {
    hide Run, PopHigher, Reverse;
    PopPending(b, bs, us, s.code, BinPriority(bin));
    StepOnce(lex, s, s.(i := s.i + 1, buffer := b + [Bin(bin)], code := s.code + us + Reverse(bs), noMap := false), env);
  }

  lemma {:induction false} LineStep(lex: seq<Lexeme>, s: EvalState, env: Env)
    requires 0 < s.i < |lex| && lex[s.i] == NewLine && lex[s.i - 1].Oper?
    ensures Run(lex, s, env) == Run(lex, s.(i := s.i + 1, noMap := false), env)
  {
    hide Run;
    StepOnce(lex, s, s.(i := s.i + 1, noMap := false), env);
  }

  lemma {:induction false} TokensAt(lex: seq<Lexeme>, p: nat, toks: seq<Lexeme>)
    requires At(lex, p, toks) && NewLine !in toks
    ensures After(lex, p, toks) == Some(p + |toks|)
    decreases |toks|
  {
    if toks != [] {
      AtIndex(lex, p, toks, 0);
      assert toks == [toks[0]] + toks[1..];
      AtConcat(lex, p, [toks[0]], toks[1..]);
      TokensAt(lex, p + 1, toks[1..]);
    }
  }

  lemma {:induction false} NoLineBreaks(v: Init)
    ensures NewLine !in Tokens(v)
    decreases v
  {
    match v
    case InitMap(fs) => NoLineBreaksFields(fs);
    case InitArray(es) => NoLineBreaksElems(es);
    case _ =>
  }

  lemma {:induction false} NoLineBreaksFields(fs: Fields)
    ensures NewLine !in FieldTokens(fs)
    decreases fs
  {
    if fs.Field? {
      NoLineBreaks(fs.value);
      NoLineBreaksFields(fs.rest);
    }
  }

  lemma {:induction false} NoLineBreaksElems(es: Elems)
    ensures NewLine !in ElemTokens(es)
    decreases es
  {
    if es.Elem? {
      NoLineBreaks(es.value);
      NoLineBreaksElems(es.rest);
    }
  }

  // ----- operands -----

  predicate OperandAt(lex: seq<Lexeme>, s: EvalState, e: Expr, env: Env) {
    && Canonical(e, env)
    && At(lex, s.i, Print(e))
    && Ready(s.buffer, Level(e))
    && !s.noMap
    && Fresh(lex, s.i)
    && Follow(lex, s.i + |Print(e)|)
  }

  /** What the translator makes of the operand at its position. */
  ghost predicate Compiles(lex: seq<Lexeme>, s: EvalState, e: Expr, env: Env)
    requires Canonical(e, env)
  {
    Run(lex, s, env) ==
    match BadCall(e, env)
    case Some(n) => Bad(ErrWrongParams(n))
    case None => Run(lex, AfterOperand(s, e, env), env)
  }

  lemma {:induction false} AtomsEmit(s: EvalState, e: Expr, env: Env)
    requires Canonical(e, env) && (e.Atom? || e.Name? || e.Outer? || e.Literal?)
    ensures AfterOperand(s, e, env) ==
            s.(i := s.i + |Print(e)|, code := s.code + Postfix(e, env), noMap := !e.Literal?)
    ensures BadCall(e, env) == None
  {
    assert s.buffer + [] + [] == s.buffer;
  }

  lemma {:induction false} SimpleStep(lex: seq<Lexeme>, s: EvalState, e: Expr, env: Env)
    requires Canonical(e, env) && (e.Atom? || e.Name? || e.Outer?) && !s.noMap
    requires s.i < |lex| && lex[s.i] == Print(e)[0] && Follow(lex, s.i + 1)
    ensures |Print(e)| == 1 && EvalStep(lex, s, env) == Next(s.(i := s.i + 1, code := s.code + Postfix(e, env), noMap := true))
  {
    hide MapFrom, ArrayFrom, StepRPar, StepRBrack, StepOper, StepComma, StepNewLine;
  }

  lemma {:induction false} SimpleOperand(lex: seq<Lexeme>, s: EvalState, e: Expr, env: Env)
    requires OperandAt(lex, s, e, env)
    requires e.Atom? || e.Name? || e.Outer?
    ensures Compiles(lex, s, e, env)
  {
    hide Run, AfterOperand, BadCall, EvalStep, Ready, Postfix, Emitted;
    AtIndex(lex, s.i, Print(e), 0);
    AtomsEmit(s, e, env);
    SimpleStep(lex, s, e, env);
    StepOnce(lex, s, AfterOperand(s, e, env), env);
  }

  lemma {:induction false} LiteralParsed(lex: seq<Lexeme>, p: nat, v: Init, env: Env)
    requires At(lex, p, Tokens(v)) && (v.InitMap? || v.InitArray?) && Meaning(v, env).Good?
    ensures lex[p] == (if v.InitMap? then LCurly else LBrack)
    ensures ValueAt(lex, p, env) == Good((Meaning(v, env).value, p + |Tokens(v)| - 1))
  {
    hide ValueAt, Meaning, Tokens, After;
    AtIndex(lex, p, Tokens(v), 0);
    TokensEnd(v);
    NoLineBreaks(v);
    TokensAt(lex, p, Tokens(v));
    ValueRoundTrip(lex, p, v, env);
  }

  lemma MeaningKind(v: Init, env: Env)
    requires (v.InitMap? || v.InitArray?) && Meaning(v, env).Good?
    ensures if v.InitMap? then Meaning(v, env).value.ItemMap? else Meaning(v, env).value.ItemArray?
  {
  }

  lemma {:induction false} LiteralStep(lex: seq<Lexeme>, s: EvalState, x: Item, j: nat, env: Env)
    requires s.i < |lex| && (lex[s.i] == LCurly || lex[s.i] == LBrack) && !s.noMap
    requires ValueAt(lex, s.i, env) == Good((x, j))
    ensures j < |lex|
    ensures lex[s.i] == LCurly ==> x.ItemMap? && EvalStep(lex, s, env) == Next(s.(i := j + 1, code := s.code + [MapInit(x.entries)]))
    ensures lex[s.i] == LBrack ==> x.ItemArray? && EvalStep(lex, s, env) == Next(s.(i := j + 1, code := s.code + [ArrayInit(x.items)]))
  {
    hide MapFrom, ArrayFrom, StepNewLine, StepRPar, StepRBrack, StepOper, StepComma, StepIdent, StepExtend;
  }

  lemma {:induction false} LiteralOperand(lex: seq<Lexeme>, s: EvalState, e: Expr, env: Env)
    requires OperandAt(lex, s, e, env) && e.Literal?
    ensures Compiles(lex, s, e, env)
  {
    hide Run, AfterOperand, ValueAt, EvalStep, Tokens, Meaning, Emitted, BadCall;
    LiteralParsed(lex, s.i, e.init, env);
    MeaningKind(e.init, env);
    LiteralStep(lex, s, Meaning(e.init, env).value, s.i + |Tokens(e.init)| - 1, env);
    AtomsEmit(s, e, env);
    StepOnce(lex, s, AfterOperand(s, e, env), env);
  }

  // Parentheses.

  function Opened(s: EvalState): EvalState {
    s.(i := s.i + 1, buffer := s.buffer + [Sys], noMap := false)
  }

  lemma {:induction false} ParenLayout(lex: seq<Lexeme>, s: EvalState, e: Expr, env: Env)
    requires OperandAt(lex, s, e, env) && e.Paren?
    ensures s.i < |lex| && lex[s.i] == LPar
    ensures OperandAt(lex, Opened(s), e.e, env)
    ensures At(lex, s.i + 1 + |Print(e.e)|, [RPar])
    ensures |Print(e)| == |Print(e.e)| + 2
  {
    hide At, Print;
    var x := e.e;
    PrintShape(e);
    AtConcat(lex, s.i, [LPar], Print(x) + [RPar]);
    AtConcat(lex, s.i + 1, Print(x), [RPar]);
    AtIndex(lex, s.i, [LPar], 0);
    AtIndex(lex, s.i + 1 + |Print(x)|, [RPar], 0);
  }

  /** Closing a group emits what its expression left pending. */
  lemma {:induction false} GroupCode(c: seq<Code>, e: Expr, env: Env)
    requires Canonical(e, env)
    ensures Ops(Bins(e) + Uns(e))
    ensures c + Emitted(e, env) + Reverse(Bins(e) + Uns(e)) == c + Output(e, env)
  {
    hide Emitted, Reverse, Bins, Uns, Canonical;
    PendingOps(e, env);
    ReverseAppend(Bins(e), Uns(e));
    var x, u, b := Emitted(e, env), Reverse(Uns(e)), Reverse(Bins(e));
    assert c + x + (u + b) == c + (x + u + b);
  }

  lemma ParenAfter(s: EvalState, e: Expr, env: Env)
    requires Canonical(e, env) && e.Paren?
    ensures AfterOperand(s, e, env) ==
            s.(i := s.i + |Print(e)|, code := s.code + Output(e.e, env), noMap := true)
    ensures BadCall(e, env) == BadCall(e.e, env)
  {
    assert s.buffer + [] + [] == s.buffer;
  }

  lemma Appended(a: seq<Code>, b: seq<Code>, c: seq<Code>, d: seq<Code>)
    ensures a + b + c + d == a + b + (c + d)
  {
  }

  lemma {:induction false} ParenOperand(lex: seq<Lexeme>, s: EvalState, e: Expr, env: Env)
    requires OperandAt(lex, s, e, env) && e.Paren?
    ensures Compiles(lex, s, e, env)
    decreases e, 0
  {
    hide Run, Emitted, Print, Reverse, BadCall, Bins, Uns, Canonical, Output;
    ParenLayout(lex, s, e, env);
    ParenAfter(s, e, env);
    OpenStep(lex, s, env);
    Operand(lex, Opened(s), e.e, env);
    if BadCall(e.e, env).None? {
      var s2 := AfterOperand(Opened(s), e.e, env);
      GroupCode(s.code, e.e, env);
      Appended(s.buffer, [Sys], Bins(e.e), Uns(e.e));
      CloseGroupStep(lex, s2, s.buffer, Bins(e.e) + Uns(e.e), env);
    }
  }

  // Prefix operators.

  lemma {:induction false} PrefixLayout(lex: seq<Lexeme>, s: EvalState, e: Expr, env: Env)
    requires OperandAt(lex, s, e, env) && e.Prefix?
    ensures s.i < |lex| && lex[s.i] == Oper(PrefixSymbol(e.u)) && Fresh(lex, s.i)
    ensures s.buffer == [] || Priority(Last(s.buffer)).Some?
    ensures OperandAt(lex, s.(i := s.i + 1, buffer := s.buffer + [Un(e.u)], noMap := false), e.e, env)
  {
    hide At, Print;
    PrintShape(e);
    AtConcat(lex, s.i, [Oper(PrefixSymbol(e.u))], Print(e.e));
    AtIndex(lex, s.i, [Oper(PrefixSymbol(e.u))], 0);
  }

  lemma {:induction false} PrefixAfter(s: EvalState, e: Expr, env: Env)
    requires Canonical(e, env) && e.Prefix?
    ensures AfterOperand(s, e, env) ==
            AfterOperand(s.(i := s.i + 1, buffer := s.buffer + [Un(e.u)], noMap := false), e.e, env)
    ensures BadCall(e, env) == BadCall(e.e, env)
  {
    TightBins(e.e);
    assert s.buffer + [Un(e.u)] + [] + Uns(e.e) == s.buffer + [] + ([Un(e.u)] + Uns(e.e));
  }

  lemma {:induction false} PrefixOperand(lex: seq<Lexeme>, s: EvalState, e: Expr, env: Env)
    requires OperandAt(lex, s, e, env) && e.Prefix?
    ensures Compiles(lex, s, e, env)
    decreases e, 0
  {
    hide Run, Emitted, Print, BadCall, Bins, Uns, Canonical, AfterOperand, At;
    PrefixLayout(lex, s, e, env);
    PrefixAfter(s, e, env);
    PrefixStep(lex, s, e.u, env);
    Operand(lex, s.(i := s.i + 1, buffer := s.buffer + [Un(e.u)], noMap := false), e.e, env);
  }

  // Binary operators.

  lemma {:induction false} InfixLayout(lex: seq<Lexeme>, p: nat, e: Expr, env: Env)
    requires At(lex, p, Print(e)) && Canonical(e, env) && e.Infix?
    ensures var q := p + |Print(e.l)|;
            var n := if e.newLine then 1 else 0;
            && At(lex, p, Print(e.l))
            && 0 < q < |lex| && lex[q] == Oper(Symbol(e.b)) && EndsOperand(lex[q - 1])
            && (e.newLine ==> q + 1 < |lex| && lex[q + 1] == NewLine)
            && At(lex, q + 1 + n, Print(e.r))
            && |Print(e)| == |Print(e.l)| + 1 + n + |Print(e.r)|
  {
    hide At, Print, Symbol, EndsOperand;
    var l, r := e.l, e.r;
    var nl := if e.newLine then [NewLine] else [];
    var op := [Oper(Symbol(e.b))];
    PrintShape(e);
    AtConcat(lex, p, Print(l), op + (nl + Print(r)));
    var q := p + |Print(l)|;
    AtConcat(lex, q, op, nl + Print(r));
    AtConcat(lex, q + 1, nl, Print(r));
    AtIndex(lex, q, op, 0);
    if e.newLine { AtIndex(lex, q + 1, nl, 0); }
    PrintEnds(l, env);
    AtIndex(lex, p, Print(l), |Print(l)| - 1);
  }

  /** The state in front of the right operand. */
  function AfterOperator(s: EvalState, e: Expr, env: Env): EvalState
    requires Canonical(e, env) && e.Infix?
  {
    s.(i := s.i + |Print(e.l)| + 1 + (if e.newLine then 1 else 0), buffer := s.buffer + [Bin(e.b)],
       code := s.code + Emitted(e.l, env) + Uns(e.l) + Reverse(Bins(e.l)), noMap := false)
  }

  lemma {:induction false} InfixAfter(s: EvalState, e: Expr, env: Env)
    requires Canonical(e, env) && e.Infix?
    requires |Print(e)| == |Print(e.l)| + 1 + (if e.newLine then 1 else 0) + |Print(e.r)|
    ensures AfterOperand(AfterOperator(s, e, env), e.r, env) == AfterOperand(s, e, env)
  {
    hide Reverse, Print;
    var a, u, b, c := Emitted(e.l, env), Uns(e.l), Reverse(Bins(e.l)), Emitted(e.r, env);
    assert s.code + a + u + b + c == s.code + (a + u + b + c);
    assert s.buffer + [Bin(e.b)] + Bins(e.r) == s.buffer + ([Bin(e.b)] + Bins(e.r));
  }

  lemma {:induction false} OperatorRun(lex: seq<Lexeme>, s: EvalState, e: Expr, env: Env)
    requires OperandAt(lex, s, e, env) && e.Infix?
    ensures Run(lex, AfterOperand(s, e.l, env), env) == Run(lex, AfterOperator(s, e, env), env)
  {
    hide Run, Emitted, Print, Bins, Uns, Reverse, At, BadCall, Ready, Symbol, EndsOperand;
    InfixLayout(lex, s.i, e, env);
    PendingOps(e.l, env);
    var s1 := AfterOperand(s, e.l, env);
    InfixStep(lex, s1, e.b, s.buffer, Bins(e.l), Uns(e.l), env);
    if e.newLine {
      LineStep(lex, AfterOperator(s, e, env).(i := s1.i + 1), env);
    }
  }

  lemma {:induction false} InfixReady(lex: seq<Lexeme>, s: EvalState, e: Expr, env: Env)
    requires OperandAt(lex, s, e, env) && e.Infix?
    ensures Canonical(e, env) && OperandAt(lex, s, e.l, env) && OperandAt(lex, AfterOperator(s, e, env), e.r, env)
    ensures |Print(e)| == |Print(e.l)| + 1 + (if e.newLine then 1 else 0) + |Print(e.r)|
  {
    hide Emitted, Print, Bins, Uns, Reverse, At, Symbol;
    InfixLayout(lex, s.i, e, env);
  }

  lemma {:induction false} InfixOperand(lex: seq<Lexeme>, s: EvalState, e: Expr, env: Env)
    requires OperandAt(lex, s, e, env) && e.Infix?
    ensures Compiles(lex, s, e, env)
    decreases e, 0
  {
    hide Run, OperandAt, AfterOperand, AfterOperator;
    InfixReady(lex, s, e, env);
    Operand(lex, s, e.l, env);
    if BadCall(e.l, env).None? {
      OperatorRun(lex, s, e, env);
      Operand(lex, AfterOperator(s, e, env), e.r, env);
      InfixAfter(s, e, env);
    }
  }

  // Indexing.

  function IndexOpened(s: EvalState, v: VarRef): EvalState {
    Opened(s.(i := s.i + 1, buffer := s.buffer + [Index(ToVar(v))], code := s.code + [Var(v)], noMap := true))
  }

  lemma {:induction false} ElementLayout(lex: seq<Lexeme>, s: EvalState, e: Expr, env: Env)
    requires OperandAt(lex, s, e, env) && e.Element?
    ensures s.i + 2 < |lex| && lex[s.i] == Ident(e.name) && lex[s.i + 1] == LBrack
    ensures OperandAt(lex, IndexOpened(s, env[e.name].v), e.index, env)
    ensures At(lex, s.i + 2 + |Print(e.index)|, [RBrack]) && Follow(lex, s.i + 3 + |Print(e.index)|)
    ensures |Print(e)| == |Print(e.index)| + 3
  {
    hide At, Print;
    var x := e.index;
    PrintShape(e);
    AtConcat(lex, s.i, [Ident(e.name), LBrack], Print(x) + [RBrack]);
    AtConcat(lex, s.i + 2, Print(x), [RBrack]);
    AtIndex(lex, s.i, [Ident(e.name), LBrack], 0);
    AtIndex(lex, s.i, [Ident(e.name), LBrack], 1);
    AtIndex(lex, s.i + 2 + |Print(x)|, [RBrack], 0);
  }

  lemma {:induction false} ElementAfter(s: EvalState, e: Expr, env: Env)
    requires Canonical(e, env) && e.Element?
    ensures AfterOperand(s, e, env) ==
            s.(i := s.i + |Print(e)|,
               code := s.code + [Var(env[e.name].v)] + Output(e.index, env) + [Index(ToVar(env[e.name].v))], noMap := true)
    ensures BadCall(e, env) == BadCall(e.index, env)
  {
    hide Output, Print;
    assert s.buffer + [] + [] == s.buffer;
    var o, v := Output(e.index, env), env[e.name].v;
    assert s.code + [Var(v)] + o + [Index(ToVar(v))] == s.code + ([Var(v)] + o + [Index(ToVar(v))]);
  }

  lemma {:induction false} IndexStart(lex: seq<Lexeme>, s: EvalState, n: string, env: Env)
    requires s.i + 2 < |lex| && lex[s.i] == Ident(n) && lex[s.i + 1] == LBrack
    requires n in env && env[n].ObjVar?
    ensures Run(lex, s, env) == Run(lex, IndexOpened(s, env[n].v), env)
  {
    hide Run, MapFrom, ArrayFrom;
    var v := env[n].v;
    var s0 := s.(i := s.i + 1, buffer := s.buffer + [Index(ToVar(v))], code := s.code + [Var(v)], noMap := true);
    StepOnce(lex, s, s0, env);
    OpenStep(lex, s0, env);
  }

  /** The closing bracket of an index, with the operators of the index on the buffer. */
  lemma {:induction false} IndexClosed(lex: seq<Lexeme>, s: EvalState, i: nat, n: string, x: Expr, env: Env)
    requires Canonical(x, env) && n in env && env[n].ObjVar?
    requires i < |lex| && lex[i] == RBrack && Follow(lex, i + 1) && i == s.i + 2 + |Print(x)|
    ensures var v := env[n].v;
            Run(lex, AfterOperand(IndexOpened(s, v), x, env), env) ==
            Run(lex, s.(i := i + 1, code := s.code + [Var(v)] + Output(x, env) + [Index(ToVar(v))], noMap := true), env)
  {
    hide Run, Emitted, Print, Reverse, Bins, Uns, Output, Canonical;
    var v := env[n].v;
    var s2 := AfterOperand(IndexOpened(s, v), x, env);
    GroupCode(s.code + [Var(v)], x, env);
    Appended(s.buffer + [Index(ToVar(v))], [Sys], Bins(x), Uns(x));
    CloseIndexStep(lex, s2, s.buffer, ToVar(v), Bins(x) + Uns(x), env);
  }

  lemma {:induction false} IndexEnd(lex: seq<Lexeme>, s: EvalState, e: Expr, env: Env)
    requires OperandAt(lex, s, e, env) && e.Element?
    ensures Run(lex, AfterOperand(IndexOpened(s, env[e.name].v), e.index, env), env) == Run(lex, AfterOperand(s, e, env), env)
  {
    hide Run, AfterOperand, IndexOpened, Print, Output, Ready, BadCall;
    ElementLayout(lex, s, e, env);
    ElementAfter(s, e, env);
    AtIndex(lex, s.i + 2 + |Print(e.index)|, [RBrack], 0);
    IndexClosed(lex, s, s.i + 2 + |Print(e.index)|, e.name, e.index, env);
  }

  lemma {:induction false} ElementOperand(lex: seq<Lexeme>, s: EvalState, e: Expr, env: Env)
    requires OperandAt(lex, s, e, env) && e.Element?
    ensures Compiles(lex, s, e, env)
    decreases e, 0
  {
    hide Run, BadCall, At, Ready, Follow, AfterOperand, IndexOpened;
    ElementLayout(lex, s, e, env);
    ElementAfter(s, e, env);
    IndexStart(lex, s, e.name, env);
    Operand(lex, IndexOpened(s, env[e.name].v), e.index, env);
    IndexEnd(lex, s, e, env);
  }

  // Calls.

  function CallCommand(f: Func): Code {
    if f.variadic then CallVari(f) else Call(f)
  }

  /** The state inside the parentheses of a call, in front of an argument. */
  predicate InCall(s: EvalState, b: seq<Code>, f: Func, counts: seq<nat>, n: nat) {
    s.buffer == b + [CallCommand(f)] + [Sys] && s.parcount == counts + [n] && !s.noMap
  }

  function AfterCall(s: EvalState, b: seq<Code>, f: Func, a: Args, counts: seq<nat>, total: nat, env: Env): EvalState
    requires CanonicalArgs(a, env)
  {
    s.(i := s.i + |PrintArgs(a)| + 1, buffer := b, code := s.code + OutputArgs(a, env) + CallCode(f, total),
       parcount := counts, noMap := true)
  }

  ghost predicate ArgsCompile(lex: seq<Lexeme>, s: EvalState, b: seq<Code>, f: Func, a: Args, counts: seq<nat>, total: nat, env: Env)
    requires CanonicalArgs(a, env)
  {
    Run(lex, s, env) ==
    if BadCallArgs(a, env).Some? then Bad(ErrWrongParams(BadCallArgs(a, env).value))
    else if WrongCount(f, total) then Bad(ErrWrongParams(f.name))
    else Run(lex, AfterCall(s, b, f, a, counts, total, env), env)
  }

  lemma {:induction false} NoArgs(lex: seq<Lexeme>, s: EvalState, b: seq<Code>, f: Func, counts: seq<nat>, env: Env)
    requires At(lex, s.i, [RPar]) && InCall(s, b, f, counts, 0)
    ensures ArgsCompile(lex, s, b, f, NoArg, counts, 0, env)
  {
    hide Run;
    AtIndex(lex, s.i, [RPar], 0);
    assert s.buffer == b + [CallCommand(f)] + [Sys] + [];
    assert s.code + Reverse([]) == s.code && s.code + [] == s.code;
    CloseCallStep(lex, s, b, f, [], counts, 0, env);
  }

  lemma {:induction false} ArgLayout(lex: seq<Lexeme>, s: EvalState, a: Args, env: Env)
    requires a.Arg? && CanonicalArgs(a, env)
    requires At(lex, s.i, PrintArgs(a) + [RPar])
    ensures At(lex, s.i, Print(a.e)) && Follow(lex, s.i + |Print(a.e)|)
    ensures a.rest.NoArg? ==> At(lex, s.i + |Print(a.e)|, [RPar]) && |PrintArgs(a)| == |Print(a.e)|
    ensures a.rest.Arg? ==> At(lex, s.i + |Print(a.e)|, [Comma]) &&
                            At(lex, s.i + |Print(a.e)| + 1, PrintArgs(a.rest) + [RPar]) &&
                            Fresh(lex, s.i + |Print(a.e)| + 1) &&
                            |PrintArgs(a)| == |Print(a.e)| + 1 + |PrintArgs(a.rest)|
  {
    hide Print, PrintArgs, At;
    PrintArgsShape(a);
    var q := s.i + |Print(a.e)|;
    if a.rest.NoArg? {
      AtConcat(lex, s.i, Print(a.e), [RPar]);
      AtIndex(lex, q, [RPar], 0);
    } else {
      AtConcat(lex, s.i, Print(a.e), [Comma] + (PrintArgs(a.rest) + [RPar]));
      AtConcat(lex, q, [Comma], PrintArgs(a.rest) + [RPar]);
      AtIndex(lex, q, [Comma], 0);
    }
  }

  lemma ArgsOutput(c: seq<Code>, a: Args, env: Env)
    requires a.Arg? && CanonicalArgs(a, env)
    ensures c + Output(a.e, env) + OutputArgs(a.rest, env) == c + OutputArgs(a, env)
    ensures a.rest.NoArg? ==> OutputArgs(a, env) == Output(a.e, env)
    ensures a.rest.NoArg? ==> BadCallArgs(a, env) == BadCall(a.e, env)
    ensures BadCallArgs(a, env) == if BadCall(a.e, env).Some? then BadCall(a.e, env) else BadCallArgs(a.rest, env)
  {
    hide Output, BadCall;
  }

  /** The arguments of a call, from the `n`-th one to the closing parenthesis. */
  lemma {:induction false} ArgsRun(lex: seq<Lexeme>, s: EvalState, b: seq<Code>, f: Func, a: Args, counts: seq<nat>, n: nat, env: Env)
    requires a.Arg? && CanonicalArgs(a, env)
    requires At(lex, s.i, PrintArgs(a) + [RPar]) && Fresh(lex, s.i)
    requires InCall(s, b, f, counts, n)
    ensures ArgsCompile(lex, s, b, f, a, counts, n - 1 + Count(a), env)
    decreases a
  {
    hide Run, Reverse, Print, PrintArgs, Emitted, OutputArgs, BadCall, BadCallArgs, Bins, Uns, Output, CallCode, WrongCount, AfterOperand, At;
    ArgLayout(lex, s, a, env);
    ArgsOutput(s.code, a, env);
    Operand(lex, s, a.e, env);
    if BadCall(a.e, env).None? {
      if a.rest.NoArg? {
        LastArg(lex, s, b, f, a.e, counts, n, env);
      } else {
        NextArg(lex, s, b, f, a.e, counts, n, env);
        ArgsRun(lex, AfterArg(s, a.e, counts, n, env), b, f, a.rest, counts, n + 1, env);
      }
    }
  }

  /** The state after an argument and the comma that follows it. */
  function AfterArg(s: EvalState, e: Expr, counts: seq<nat>, n: nat, env: Env): EvalState
    requires Canonical(e, env)
  {
    s.(i := s.i + |Print(e)| + 1, code := s.code + Output(e, env), parcount := counts + [n + 1], noMap := false)
  }

  lemma {:induction false} NextArg(lex: seq<Lexeme>, s: EvalState, b: seq<Code>, f: Func, e: Expr, counts: seq<nat>, n: nat, env: Env)
    requires Canonical(e, env) && At(lex, s.i + |Print(e)|, [Comma])
    requires InCall(s, b, f, counts, n)
    ensures Run(lex, AfterOperand(s, e, env), env) == Run(lex, AfterArg(s, e, counts, n, env), env)
  {
    hide Run, Reverse, Print, Emitted, Bins, Uns, Output, At;
    GroupCode(s.code, e, env);
    var s1, q := AfterOperand(s, e, env), Bins(e) + Uns(e);
    assert s1.buffer == s.buffer + q;
    AtIndex(lex, s1.i, [Comma], 0);
    CommaStep(lex, s1, s.buffer, q, counts, n, env);
  }

  lemma {:induction false} LastArg(lex: seq<Lexeme>, s: EvalState, b: seq<Code>, f: Func, e: Expr, counts: seq<nat>, n: nat, env: Env)
    requires Canonical(e, env) && At(lex, s.i + |Print(e)|, [RPar])
    requires InCall(s, b, f, counts, n)
    ensures Run(lex, AfterOperand(s, e, env), env) ==
            if WrongCount(f, n) then Bad(ErrWrongParams(f.name))
            else Run(lex, s.(i := s.i + |Print(e)| + 1, buffer := b, code := s.code + Output(e, env) + CallCode(f, n),
                             parcount := counts, noMap := true), env)
  {
    hide Run, Reverse, Print, Emitted, Bins, Uns, Output, At, CallCode, WrongCount;
    GroupCode(s.code, e, env);
    var s1, q := AfterOperand(s, e, env), Bins(e) + Uns(e);
    assert s1.buffer == s.buffer + q;
    AtIndex(lex, s1.i, [RPar], 0);
    CloseCallStep(lex, s1, b, f, q, counts, n, env);
  }

  lemma ArgsFirst(a: Args, env: Env)
    requires CanonicalArgs(a, env)
    ensures (PrintArgs(a) + [RPar])[0] == RPar <==> a.NoArg?
  {
    if a.Arg? {
      PrintEnds(a.e, env);
      PrintArgsShape(a);
    }
  }

  lemma {:induction false} ApplyLayout(lex: seq<Lexeme>, s: EvalState, e: Expr, env: Env)
    requires OperandAt(lex, s, e, env) && e.Apply?
    ensures s.i + 2 < |lex| && lex[s.i] == Ident(e.name) && lex[s.i + 1] == LPar
    ensures lex[s.i + 2] == RPar <==> e.args.NoArg?
    ensures Fresh(lex, s.i + 2)
    ensures At(lex, s.i + 2, PrintArgs(e.args) + [RPar])
    ensures |Print(e)| == |PrintArgs(e.args)| + 3
  {
    hide At, Print, PrintArgs;
    var a := e.args;
    PrintShape(e);
    AtConcat(lex, s.i, [Ident(e.name), LPar], PrintArgs(a) + [RPar]);
    AtIndex(lex, s.i, [Ident(e.name), LPar], 0);
    AtIndex(lex, s.i, [Ident(e.name), LPar], 1);
    AtIndex(lex, s.i + 2, PrintArgs(a) + [RPar], 0);
    ArgsFirst(a, env);
  }

  lemma {:induction false} CallStart(lex: seq<Lexeme>, s: EvalState, n: string, env: Env)
    requires s.i + 2 < |lex| && lex[s.i] == Ident(n) && lex[s.i + 1] == LPar
    requires n in env && env[n].ObjFunc?
    ensures Run(lex, s, env) ==
            Run(lex, s.(i := s.i + 2, buffer := s.buffer + [CallCommand(env[n].f)] + [Sys],
                        parcount := s.parcount + [if lex[s.i + 2] != RPar then 1 else 0], noMap := false), env)
  {
    hide Run, MapFrom, ArrayFrom;
    var s0 := s.(i := s.i + 1, buffer := s.buffer + [CallCommand(env[n].f)],
                 parcount := s.parcount + [if lex[s.i + 2] != RPar then 1 else 0], noMap := true);
    StepOnce(lex, s, s0, env);
    OpenStep(lex, s0, env);
  }

  lemma {:induction false} ApplyAfter(s: EvalState, e: Expr, env: Env)
    requires Canonical(e, env) && e.Apply? && |Print(e)| == |PrintArgs(e.args)| + 3
    ensures AfterOperand(s, e, env) ==
            AfterCall(s.(i := s.i + 2), s.buffer, env[e.name].f, e.args, s.parcount, Count(e.args), env)
  {
    hide Print, PrintArgs, OutputArgs, CallCode;
    assert s.buffer + [] + [] == s.buffer;
    var o, c := OutputArgs(e.args, env), CallCode(env[e.name].f, Count(e.args));
    assert s.code + o + c == s.code + (o + c);
  }

  lemma {:induction false} ApplyOperand(lex: seq<Lexeme>, s: EvalState, e: Expr, env: Env)
    requires OperandAt(lex, s, e, env) && e.Apply?
    ensures Compiles(lex, s, e, env)
    decreases e, 0
  {
    hide Run, Emitted, Print, PrintArgs, OutputArgs, BadCallArgs, CallCode, Bins, Uns, WrongCount, AfterOperand;
    ApplyLayout(lex, s, e, env);
    ApplyAfter(s, e, env);
    CallStart(lex, s, e.name, env);
    var f := env[e.name].f;
    var n := if e.args.NoArg? then 0 else 1;
    var s1 := s.(i := s.i + 2, buffer := s.buffer + [CallCommand(f)] + [Sys], parcount := s.parcount + [n], noMap := false);
    if e.args.NoArg? {
      NoArgLayout(lex, s1.i, e.args);
      NoArgs(lex, s1, s.buffer, f, s.parcount, env);
    } else {
      ArgsRun(lex, s1, s.buffer, f, e.args, s.parcount, 1, env);
    }
  }

  lemma NoArgLayout(lex: seq<Lexeme>, p: nat, a: Args)
    requires a.NoArg? && At(lex, p, PrintArgs(a) + [RPar])
    ensures At(lex, p, [RPar])
  {
    assert PrintArgs(a) + [RPar] == [RPar];
  }

  /** Every operand, wherever it stands, compiles to its own code and nothing else. */
  lemma {:induction false} Operand(lex: seq<Lexeme>, s: EvalState, e: Expr, env: Env)
    requires OperandAt(lex, s, e, env)
    ensures Compiles(lex, s, e, env)
    decreases e, 1
  {
    hide Run, Emitted, Print, Canonical, Compiles;
    match e
    case Atom(_) => SimpleOperand(lex, s, e, env);
    case Name(_) => SimpleOperand(lex, s, e, env);
    case Outer(_) => SimpleOperand(lex, s, e, env);
    case Literal(_) => LiteralOperand(lex, s, e, env);
    case Paren(_) => ParenOperand(lex, s, e, env);
    case Element(_, _) => ElementOperand(lex, s, e, env);
    case Apply(_, _) => ApplyOperand(lex, s, e, env);
    case Prefix(_, _) => PrefixOperand(lex, s, e, env);
    case Infix(_, _, _, _) => InfixOperand(lex, s, e, env);
  }

  // ----- whole expressions -----

  /** Where an expression ends: at the end of the text, at a line break, or at a curly bracket. */
  predicate EndsAt(lex: seq<Lexeme>, q: nat, noMap: bool) {
    q == |lex| || (q < |lex| && (lex[q] == NewLine || lex[q] == RCurly || (lex[q] == LCurly && noMap)))
  }

  /** The position that the translator reports for an expression that ends in front of `q`. */
  function StopAt(lex: seq<Lexeme>, q: nat): int
    requires q <= |lex|
  {
    if q < |lex| && lex[q] != NewLine then q - 1 else q
  }

  function EndNoMapArgs(a: Args): bool
    requires a.Arg?
  {
    if a.rest.NoArg? then EndNoMap(a.e) else EndNoMapArgs(a.rest)
  }

  lemma {:induction false} EndStep(lex: seq<Lexeme>, s: EvalState, env: Env)
    requires 0 < s.i <= |lex| && EndsAt(lex, s.i, s.noMap) && EndsOperand(lex[s.i - 1])
    requires Ops(s.buffer) && s.setIndex == None
    ensures Run(lex, s, env) == Good((StopAt(lex, s.i), s.code + Reverse(s.buffer)))
  {
    hide MapFrom, ArrayFrom, Reverse, StepRPar, StepRBrack, StepOper, StepComma, StepIdent, StepExtend;
  }

  ghost predicate ListCompiles(lex: seq<Lexeme>, s: EvalState, a: Args, env: Env)
    requires CanonicalArgs(a, env) && s.i + |PrintArgs(a)| <= |lex|
  {
    Run(lex, s, env) ==
    match BadCallArgs(a, env)
    case Some(n) => Bad(ErrWrongParams(n))
    case None => Good((StopAt(lex, s.i + |PrintArgs(a)|), s.code + OutputArgs(a, env)))
  }

  lemma {:induction false} ListLayout(lex: seq<Lexeme>, p: nat, a: Args, env: Env)
    requires a.Arg? && CanonicalArgs(a, env) && At(lex, p, PrintArgs(a))
    requires EndsAt(lex, p + |PrintArgs(a)|, EndNoMapArgs(a))
    ensures At(lex, p, Print(a.e)) && Follow(lex, p + |Print(a.e)|)
    ensures p + |Print(a.e)| > 0 && EndsOperand(lex[p + |Print(a.e)| - 1])
    ensures a.rest.NoArg? ==> |PrintArgs(a)| == |Print(a.e)|
    ensures a.rest.Arg? ==> At(lex, p + |Print(a.e)|, [Comma]) && At(lex, p + |Print(a.e)| + 1, PrintArgs(a.rest)) &&
                            Fresh(lex, p + |Print(a.e)| + 1) &&
                            |PrintArgs(a)| == |Print(a.e)| + 1 + |PrintArgs(a.rest)|
  {
    hide Print, PrintArgs, At;
    PrintArgsShape(a);
    PrintEnds(a.e, env);
    if a.rest.Arg? {
      AtConcat(lex, p, Print(a.e), [Comma] + PrintArgs(a.rest));
      AtConcat(lex, p + |Print(a.e)|, [Comma], PrintArgs(a.rest));
      AtIndex(lex, p + |Print(a.e)|, [Comma], 0);
    }
    AtIndex(lex, p, Print(a.e), |Print(a.e)| - 1);
  }

  lemma {:induction false} TopComma(lex: seq<Lexeme>, s: EvalState, e: Expr, env: Env)
    requires Canonical(e, env) && At(lex, s.i + |Print(e)|, [Comma])
    requires s.buffer == [] && s.parcount == []
    ensures Run(lex, AfterOperand(s, e, env), env) ==
            Run(lex, s.(i := s.i + |Print(e)| + 1, code := s.code + Output(e, env), noMap := false), env)
  {
    hide Run, Reverse, Print, Emitted, Bins, Uns, Output, At, FlushToBracket;
    GroupCode(s.code, e, env);
    var s1, q := AfterOperand(s, e, env), Bins(e) + Uns(e);
    assert s1.buffer == [] + q;
    AtIndex(lex, s1.i, [Comma], 0);
    FlushOps([], q, s1.code);
    StepOnce(lex, s1, s.(i := s.i + |Print(e)| + 1, code := s.code + Output(e, env), noMap := false), env);
  }

  lemma {:induction false} LastOne(lex: seq<Lexeme>, s: EvalState, e: Expr, env: Env)
    requires Canonical(e, env) && s.buffer == [] && s.setIndex == None
    requires 0 < s.i + |Print(e)| <= |lex| && EndsAt(lex, s.i + |Print(e)|, EndNoMap(e)) && EndsOperand(lex[s.i + |Print(e)| - 1])
    ensures Run(lex, AfterOperand(s, e, env), env) == Good((StopAt(lex, s.i + |Print(e)|), s.code + Output(e, env)))
  {
    hide Run, Reverse, Print, Emitted, Bins, Uns, Output, EndsAt, EndsOperand;
    GroupCode(s.code, e, env);
    var s1 := AfterOperand(s, e, env);
    assert s1.buffer == Bins(e) + Uns(e);
    EndStep(lex, s1, env);
  }

  /** A list of expressions, as after `return` or `=`. */
  lemma {:induction false} ListRun(lex: seq<Lexeme>, s: EvalState, a: Args, env: Env)
    requires a.Arg? && CanonicalArgs(a, env) && At(lex, s.i, PrintArgs(a)) && Fresh(lex, s.i)
    requires EndsAt(lex, s.i + |PrintArgs(a)|, EndNoMapArgs(a))
    requires s.buffer == [] && s.parcount == [] && s.setIndex == None && !s.noMap
    ensures ListCompiles(lex, s, a, env)
    decreases a
  {
    hide Run, Print, PrintArgs, OutputArgs, BadCall, BadCallArgs, Output, AfterOperand, EndsAt, EndsOperand, StopAt;
    ListLayout(lex, s.i, a, env);
    ArgsOutput(s.code, a, env);
    Operand(lex, s, a.e, env);
    if BadCall(a.e, env).None? {
      if a.rest.NoArg? {
        LastOne(lex, s, a.e, env);
      } else {
        TopComma(lex, s, a.e, env);
        ListRun(lex, s.(i := s.i + |Print(a.e)| + 1, code := s.code + Output(a.e, env), noMap := false), a.rest, env);
      }
    }
  }

  /** compileEval on a list of expressions: its code is the output of each tree
      in order, and the reported position is the end of the list. */
  lemma {:induction false} ListTheorem(lex: seq<Lexeme>, p: nat, a: Args, env: Env)
    requires a.Arg? && CanonicalArgs(a, env) && At(lex, p, PrintArgs(a)) && Fresh(lex, p)
    requires EndsAt(lex, p + |PrintArgs(a)|, EndNoMapArgs(a))
    requires BadCallArgs(a, env) == None
    ensures EvalAt(lex, p, env) == Good((StopAt(lex, p + |PrintArgs(a)|), OutputArgs(a, env)))
    ensures OutputArgs(a, env) == PostfixArgs(a, env) <==> EvenRunsArgs(a)
  {
    hide Run, OutputArgs, PrintArgs;
    ListRun(lex, Start(p), a, env);
    assert [] + OutputArgs(a, env) == OutputArgs(a, env);
    ArgsOutputIsPostfix(a, env);
  }

  /** The keyword or the equals sign in front of the list is passed over. */
  lemma {:induction false} IntroStep(lex: seq<Lexeme>, p: nat, env: Env)
    requires p < |lex| && (lex[p] == Equals || (lex[p].Key? && lex[p].k != KwTail))
    ensures EvalAt(lex, p, env) == EvalAt(lex, p + 1, env)
  {
    hide Run, MapFrom, ArrayFrom, StepRPar, StepRBrack, StepOper, StepComma, StepIdent, StepExtend;
    StepOnce(lex, Start(p), Start(p + 1), env);
  }
}

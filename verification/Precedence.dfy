/** Which operator takes which operand: what compileEval makes of two operators in a row. */
module Precedence {
  import opened Wrappers
  import opened Lexemes
  import opened Initializers
  import opened Expressions
  import opened ExpressionTrees
  import opened ExpressionCompilation

  /** From the loosest operators to the tightest. */
  datatype Tier = Disjunction | Conjunction | Equality | Order | Sum | Product

  function TierOf(b: Binary): Tier {
    match b
    case Or => Disjunction
    case And => Conjunction
    case Equal => Equality case NotEq => Equality
    case Less => Order case NotLess => Order case Great => Order case NotGreat => Order
    case Add => Sum case Sub => Sum
    case Mul => Product case Div => Product
  }

  predicate Looser(s: Tier, t: Tier) {
    match s
    case Disjunction => !t.Disjunction?
    case Conjunction => !t.Disjunction? && !t.Conjunction?
    case Equality => t.Order? || t.Sum? || t.Product?
    case Order => t.Sum? || t.Product?
    case Sum => t.Product?
    case Product => false
  }

  lemma TiersAre(f: Binary, g: Binary)
    ensures BinPriority(f) < BinPriority(g) <==> Looser(TierOf(f), TierOf(g))
    ensures BinPriority(f) < UNARY_PRIORITY
  {
  }

  /** Constants, names, literals, elements, calls and anything in parentheses. */
  predicate Operand(e: Expr) {
    !e.Infix? && !e.Prefix?
  }

  predicate Plain(e: Expr, env: Env) {
    Operand(e) && Canonical(e, env) && EvenRuns(e) && BadCall(e, env) == None
  }

  lemma {:induction false} TreeCompiles(lex: seq<Lexeme>, p: nat, t: Expr, env: Env)
    requires Canonical(t, env) && EvenRuns(t) && BadCall(t, env) == None && Fresh(lex, p)
    requires At(lex, p, Print(t)) && EndsAt(lex, p + |Print(t)|, EndNoMap(t))
    ensures EvalAt(lex, p, env) == Good((StopAt(lex, p + |Print(t)|), Postfix(t, env)))
  {
    hide Run, Canonical, EvenRuns, BadCall, Print, EndNoMap, Postfix, At, EndsAt, Fresh;
    var a := Arg(t, NoArg);
    assert PrintArgs(a) == Print(t) && EndNoMapArgs(a) == EndNoMap(t);
    assert PostfixArgs(a, env) == Postfix(t, env) + PostfixArgs(NoArg, env) == Postfix(t, env) + [];
    assert Postfix(t, env) + [] == Postfix(t, env);
    assert BadCallArgs(a, env) == None && EvenRunsArgs(a) && CanonicalArgs(a, env);
    ListTheorem(lex, p, a, env);
  }

  lemma OperandFacts(e: Expr)
    requires Operand(e)
    ensures Uns(e) == Reverse(Uns(e)) == [] && Level(e) == 100
  {
  }

  /** The tokens of `x f y g z`. */
  function Row(x: Expr, f: Binary, y: Expr, g: Binary, z: Expr): seq<Lexeme> {
    Print(x) + ([Oper(Symbol(f))] + (Print(y) + ([Oper(Symbol(g))] + Print(z))))
  }

  lemma {:induction false} RightTree(x: Expr, f: Binary, y: Expr, g: Binary, z: Expr, env: Env) returns (t: Expr)
    requires Plain(x, env) && Plain(y, env) && Plain(z, env) && Looser(TierOf(f), TierOf(g))
    ensures Canonical(t, env) && EvenRuns(t) && BadCall(t, env) == None && Print(t) == Row(x, f, y, g, z) && EndNoMap(t) == EndNoMap(z)
    ensures Postfix(t, env) == Postfix(x, env) + Postfix(y, env) + Postfix(z, env) + [Bin(g)] + [Bin(f)]
  {
    hide Canonical, EvenRuns, BadCall, Print, Postfix, EndNoMap, Uns, Level, Symbol;
    TiersAre(f, g);
    TiersAre(g, g);
    OperandFacts(x);
    OperandFacts(y);
    OperandFacts(z);
    var right := Infix(g, false, y, z);
    t := Infix(f, false, x, right);
    InfixParts(y, g, z, env);
    InfixParts(x, f, right, env);
    var i, j, k := Postfix(x, env), Postfix(y, env), Postfix(z, env);
    assert i + (j + k + [Bin(g)]) + [Bin(f)] == i + j + k + [Bin(g)] + [Bin(f)];
  }

  lemma {:induction false} LeftTree(x: Expr, f: Binary, y: Expr, g: Binary, z: Expr, env: Env) returns (t: Expr)
    requires Plain(x, env) && Plain(y, env) && Plain(z, env) && !Looser(TierOf(f), TierOf(g))
    ensures Canonical(t, env) && EvenRuns(t) && BadCall(t, env) == None && Print(t) == Row(x, f, y, g, z) && EndNoMap(t) == EndNoMap(z)
    ensures Postfix(t, env) == Postfix(x, env) + Postfix(y, env) + [Bin(f)] + Postfix(z, env) + [Bin(g)]
  {
    hide Canonical, EvenRuns, BadCall, Print, Postfix, EndNoMap, Uns, Level, Symbol;
    TiersAre(f, g);
    TiersAre(g, g);
    OperandFacts(x);
    OperandFacts(y);
    OperandFacts(z);
    var left := Infix(f, false, x, y);
    t := Infix(g, false, left, z);
    InfixParts(x, f, y, env);
    InfixParts(left, g, z, env);
    var a, b, c, u, v := Print(x), Print(y), Print(z), [Oper(Symbol(f))], [Oper(Symbol(g))];
    assert a + (u + b) + (v + c) == a + (u + (b + (v + c)));
  }

  /** `x f y g z`: the second operator takes all that stands in front of it, unless the
      first one is looser and leaves it its right operand. */
  lemma {:induction false} TwoOperators(lex: seq<Lexeme>, p: nat, x: Expr, f: Binary, y: Expr, g: Binary, z: Expr, env: Env)
    requires Plain(x, env) && Plain(y, env) && Plain(z, env) && Fresh(lex, p)
    requires At(lex, p, Row(x, f, y, g, z)) && EndsAt(lex, p + |Row(x, f, y, g, z)|, EndNoMap(z))
    ensures EvalAt(lex, p, env) ==
            Good((StopAt(lex, p + |Row(x, f, y, g, z)|),
                  if Looser(TierOf(f), TierOf(g)) then Postfix(x, env) + Postfix(y, env) + Postfix(z, env) + [Bin(g)] + [Bin(f)]
                  else Postfix(x, env) + Postfix(y, env) + [Bin(f)] + Postfix(z, env) + [Bin(g)]))
  {
    hide Canonical, EvenRuns, BadCall, Print, Postfix, EndNoMap, At, EndsAt, Row, Run, Fresh;
    if Looser(TierOf(f), TierOf(g)) {
      var t := RightTree(x, f, y, g, z, env);
      TreeCompiles(lex, p, t, env);
    } else {
      var t := LeftTree(x, f, y, g, z, env);
      TreeCompiles(lex, p, t, env);
    }
  }

  lemma InfixParts(l: Expr, b: Binary, r: Expr, env: Env)
    requires Canonical(l, env) && Canonical(r, env) && Level(l) >= BinPriority(b) && Level(r) > BinPriority(b)
    requires EvenRuns(l) && EvenRuns(r) && BadCall(l, env) == None && BadCall(r, env) == None && Uns(l) == Reverse(Uns(l))
    ensures var e := Infix(b, false, l, r);
            && Canonical(e, env) && EvenRuns(e) && BadCall(e, env) == None && Uns(e) == Uns(r) && EndNoMap(e) == EndNoMap(r)
            && Level(e) == BinPriority(b)
            && Print(e) == Print(l) + ([Oper(Symbol(b))] + Print(r))
            && Postfix(e, env) == Postfix(l, env) + Postfix(r, env) + [Bin(b)]
  {
    assert [Oper(Symbol(b))] + [] == [Oper(Symbol(b))];
  }

  lemma PrefixParts(u: Unary, x: Expr, env: Env)
    requires Plain(x, env)
    ensures var e := Prefix(u, x);
            && Canonical(e, env) && EvenRuns(e) && BadCall(e, env) == None && Uns(e) == [Un(u)] && Level(e) == UNARY_PRIORITY
            && Print(e) == [Oper(PrefixSymbol(u))] + Print(x) && Postfix(e, env) == Postfix(x, env) + [Un(u)]
  {
  }

  lemma ReversedOne(c: Code)
    ensures Reverse([c]) == [c]
  {
    assert [c][..0] == [] && Reverse([]) == [];
  }

  /** `-x f y`: a prefix operator binds more tightly than any operator between operands. */
  lemma {:induction false} PrefixFirst(lex: seq<Lexeme>, p: nat, u: Unary, x: Expr, f: Binary, y: Expr, env: Env)
    requires Plain(x, env) && Plain(y, env) && Fresh(lex, p)
    requires At(lex, p, [Oper(PrefixSymbol(u))] + (Print(x) + ([Oper(Symbol(f))] + Print(y))))
    requires EndsAt(lex, p + |Print(x)| + |Print(y)| + 2, EndNoMap(y))
    ensures EvalAt(lex, p, env) ==
            Good((StopAt(lex, p + |Print(x)| + |Print(y)| + 2), Postfix(x, env) + [Un(u)] + Postfix(y, env) + [Bin(f)]))
  {
    hide Canonical, EvenRuns, BadCall, Print, Postfix, EndNoMap, At, EndsAt, Run, Fresh, Uns, Level, Symbol, Reverse;
    TiersAre(f, f);
    OperandFacts(y);
    ReversedOne(Un(u));
    PrefixParts(u, x, env);
    var e := Prefix(u, x);
    InfixParts(e, f, y, env);
    assert [Oper(PrefixSymbol(u))] + Print(x) + ([Oper(Symbol(f))] + Print(y)) ==
           [Oper(PrefixSymbol(u))] + (Print(x) + ([Oper(Symbol(f))] + Print(y)));
    TreeCompiles(lex, p, Infix(f, false, e, y), env);
  }
}

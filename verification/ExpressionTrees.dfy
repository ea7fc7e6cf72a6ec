/**
 What compileEval is for: the lexemes of an expression tree become the tree's
 postfix code. The trees are those of the language: constants, variables, map
 and array initializers, parentheses, indexing, calls, prefix operators and the
 left-associative binary operators of the priority table.
 */
module ExpressionTrees {
  import opened Lexemes
  import opened Initializers
  import opened Expressions

  datatype Expr =
    | Atom(c: Const)
    | Name(name: string)
    | Outer(name: string)
    | Literal(init: Init)
    | Paren(e: Expr)
    | Element(name: string, index: Expr)
    | Apply(name: string, args: Args)
    | Prefix(u: Unary, e: Expr)
    | Infix(b: Binary, newLine: bool, l: Expr, r: Expr)

  datatype Args = NoArg | Arg(e: Expr, rest: Args)

  function Count(a: Args): nat {
    match a case NoArg => 0 case Arg(_, rest) => 1 + Count(rest)
  }

  /** How tightly an expression binds. */
  function Level(e: Expr): nat {
    match e
    case Infix(b, _, _, _) => BinPriority(b)
    case Prefix(_, _) => UNARY_PRIORITY
    case _ => 100
  }

  /** The names of `e` are known and parentheses stand wherever the priorities need them. */
  predicate Canonical(e: Expr, env: Env)
    decreases e
  {
    match e
    case Atom(_) => true
    case Name(n) => n in env && env[n].ObjVar?
    case Outer(_) => true
    case Literal(v) => (v.InitMap? || v.InitArray?) && Meaning(v, env).Good?
    case Paren(x) => Canonical(x, env)
    case Element(n, x) => n in env && env[n].ObjVar? && Canonical(x, env)
    case Apply(n, args) => n in env && env[n].ObjFunc? && CanonicalArgs(args, env)
    case Prefix(_, x) => Canonical(x, env) && Level(x) >= UNARY_PRIORITY
    case Infix(b, _, l, r) =>
      Canonical(l, env) && Canonical(r, env) && Level(l) >= BinPriority(b) && Level(r) > BinPriority(b)
  }

  predicate CanonicalArgs(a: Args, env: Env)
    decreases a
  {
    a.NoArg? || (Canonical(a.e, env) && CanonicalArgs(a.rest, env))
  }

  function Symbol(b: Binary): Operator {
    match b
    case Add => OpAdd case Sub => OpMinus case Mul => OpMul case Div => OpDiv
    case Less => OpLess case NotLess => OpGrEq case Great => OpGreat case NotGreat => OpLessEq
    case Equal => OpEq case NotEq => OpNotEq case And => OpAnd case Or => OpOr
  }

  function PrefixSymbol(u: Unary): Operator {
    match u case Not => OpNot case Sign => OpMinus
  }

  function Print(e: Expr): (t: seq<Lexeme>)
    ensures |t| > 0
    decreases e
  {
    match e
    case Atom(c) => [if c.Text? then Str(c.s) else Number(c)]
    case Name(n) => [Ident(n)]
    case Outer(n) => [Lexeme.Extend(n)]
    case Literal(v) => Tokens(v)
    case Paren(x) => [LPar] + Print(x) + [RPar]
    case Element(n, x) => [Ident(n), LBrack] + Print(x) + [RBrack]
    case Apply(n, args) => [Ident(n), LPar] + PrintArgs(args) + [RPar]
    case Prefix(u, x) => [Oper(PrefixSymbol(u))] + Print(x)
    case Infix(b, nl, l, r) => Print(l) + ([Oper(Symbol(b))] + (if nl then [NewLine] else []) + Print(r))
  }

  function PrintArgs(a: Args): seq<Lexeme>
    decreases a
  {
    match a
    case NoArg => []
    case Arg(e, rest) => Print(e) + (if rest.NoArg? then [] else [Comma] + PrintArgs(rest))
  }

  // ----- postfix order, the reference -----

  function CallCode(f: Func, count: nat): seq<Code> {
    if f.variadic then [Push(ArgCount(count)), CallVari(f)] else [Call(f)]
  }

  function LiteralCode(v: Init, env: Env): seq<Code>
    requires (v.InitMap? || v.InitArray?) && Meaning(v, env).Good?
  {
    var x := Meaning(v, env).value;
    if v.InitMap? then [MapInit(x.entries)] else [ArrayInit(x.items)]
  }

  function Postfix(e: Expr, env: Env): seq<Code>
    requires Canonical(e, env)
    decreases e
  {
    match e
    case Atom(c) => [Push(c)]
    case Name(n) => [Var(env[n].v)]
    case Outer(n) => [ExtendVar(n)]
    case Literal(v) => LiteralCode(v, env)
    case Paren(x) => Postfix(x, env)
    case Element(n, x) => [Var(env[n].v)] + Postfix(x, env) + [Index(ToVar(env[n].v))]
    case Apply(n, args) => PostfixArgs(args, env) + CallCode(env[n].f, Count(args))
    case Prefix(u, x) => Postfix(x, env) + [Un(u)]
    case Infix(b, _, l, r) => Postfix(l, env) + Postfix(r, env) + [Bin(b)]
  }

  function PostfixArgs(a: Args, env: Env): seq<Code>
    requires CanonicalArgs(a, env)
    decreases a
  {
    match a
    case NoArg => []
    case Arg(e, rest) => Postfix(e, env) + PostfixArgs(rest, env)
  }

  // ----- what the translator leaves pending and what it has emitted -----

  /** The binary operators still pending after the last lexeme of `e`. */
  function Bins(e: Expr): (r: seq<Code>)
    decreases e
  {
    match e case Infix(b, _, _, r) => [Bin(b)] + Bins(r) case _ => []
  }

  /** The prefix operators pending above them. */
  function Uns(e: Expr): (r: seq<Code>)
    decreases e
  {
    match e
    case Infix(_, _, _, r) => Uns(r)
    case Prefix(u, x) => [Un(u)] + Uns(x)
    case _ => []
  }

  /** The code emitted by the last lexeme of `e`. A binary operator emits the
      prefix operators of its left operand in the order in which they were written. */
  function Emitted(e: Expr, env: Env): seq<Code>
    requires Canonical(e, env)
    decreases e, 0
  {
    match e
    case Atom(c) => [Push(c)]
    case Name(n) => [Var(env[n].v)]
    case Outer(n) => [ExtendVar(n)]
    case Literal(v) => LiteralCode(v, env)
    case Paren(x) => Output(x, env)
    case Element(n, x) => [Var(env[n].v)] + Output(x, env) + [Index(ToVar(env[n].v))]
    case Apply(n, args) => OutputArgs(args, env) + CallCode(env[n].f, Count(args))
    case Prefix(u, x) => Emitted(x, env)
    case Infix(b, _, l, r) => Emitted(l, env) + Uns(l) + Reverse(Bins(l)) + Emitted(r, env)
  }

  /** All the code of `e` once what is pending is emitted from the top down. */
  function Output(e: Expr, env: Env): seq<Code>
    requires Canonical(e, env)
    decreases e, 1
  {
    Emitted(e, env) + Reverse(Uns(e)) + Reverse(Bins(e))
  }

  function OutputArgs(a: Args, env: Env): seq<Code>
    requires CanonicalArgs(a, env)
    decreases a
  {
    match a
    case NoArg => []
    case Arg(e, rest) => Output(e, env) + OutputArgs(rest, env)
  }

  // ----- when the output is the postfix order -----

  /** Wherever a binary operator follows a run of prefix operators, the run reads the same backwards. */
  predicate EvenRuns(e: Expr)
    decreases e
  {
    match e
    case Paren(x) => EvenRuns(x)
    case Element(_, x) => EvenRuns(x)
    case Apply(_, args) => EvenRunsArgs(args)
    case Prefix(_, x) => EvenRuns(x)
    case Infix(_, _, l, r) => EvenRuns(l) && EvenRuns(r) && Uns(l) == Reverse(Uns(l))
    case _ => true
  }

  predicate EvenRunsArgs(a: Args)
    decreases a
  {
    a.NoArg? || (EvenRuns(a.e) && EvenRunsArgs(a.rest))
  }

  lemma ReverseLength(s: seq<Code>)
    ensures |Reverse(s)| == |s|
  {
  }

  lemma {:induction false} ReverseCons(c: Code, s: seq<Code>)
    ensures Reverse([c] + s) == Reverse(s) + [c]
  {
    if s != [] {
      assert ([c] + s)[..|s|] == [c] + s[..|s| - 1];
      ReverseCons(c, s[..|s| - 1]);
    }
  }

  /** A canonical tight expression leaves only prefix operators pending. */
  lemma TightBins(e: Expr)
    requires Level(e) >= UNARY_PRIORITY
    ensures Bins(e) == []
  {
  }

  lemma AppendSplit(a: seq<Code>, b: seq<Code>, c: seq<Code>, d: seq<Code>)
    requires |a| == |c| && a + b == c + d
    ensures a == c && b == d
  {
    assert a == (a + b)[..|a|] && c == (c + d)[..|c|];
    assert b == (a + b)[|a|..] && d == (c + d)[|c|..];
  }

  /** The postfix code of `e` without its trailing pending operators. */
  function Core(e: Expr, env: Env): seq<Code>
    requires Canonical(e, env)
    decreases e
  {
    match e
    case Prefix(_, x) => Core(x, env)
    case Infix(_, _, l, r) => Postfix(l, env) + Core(r, env)
    case _ => Postfix(e, env)
  }

  lemma {:induction false} PostfixCore(e: Expr, env: Env)
    requires Canonical(e, env)
    ensures Postfix(e, env) == Core(e, env) + Reverse(Uns(e)) + Reverse(Bins(e))
    decreases e
  {
    hide CanonicalArgs, PostfixArgs, LiteralCode, CallCode;
    match e
    case Prefix(u, x) =>
      PostfixCore(x, env);
      TightBins(x);
      ReverseCons(Un(u), Uns(x));
    case Infix(b, _, l, r) =>
      PostfixCore(r, env);
      ReverseCons(Bin(b), Bins(r));
      hide Reverse;
      Rebracket(Postfix(l, env), Core(r, env), Reverse(Uns(r)), Reverse(Bins(r)), [Bin(b)]);
    case _ =>
      assert Reverse([]) == [];
  }

  lemma Rebracket(p: seq<Code>, c: seq<Code>, u: seq<Code>, b: seq<Code>, x: seq<Code>)
    ensures p + (c + u + b) + x == (p + c) + u + (b + x)
    ensures p + (c + u + b) + x == p + ((c + u + b) + x)
  {
  }

  lemma {:induction false} SameLength(e: Expr, env: Env)
    requires Canonical(e, env)
    ensures |Output(e, env)| == |Postfix(e, env)|
    decreases e
  {
    hide LiteralCode, CallCode, Reverse;
    ReverseLength(Uns(e));
    ReverseLength(Bins(e));
    match e
    case Paren(x) => SameLength(x, env);
    case Element(_, x) => SameLength(x, env);
    case Apply(_, args) => SameLengthArgs(args, env);
    case Prefix(_, x) =>
      SameLength(x, env);
      TightBins(x);
      ReverseLength(Uns(x));
    case Infix(_, _, l, r) =>
      SameLength(l, env);
      SameLength(r, env);
      ReverseLength(Uns(l)); ReverseLength(Bins(l));
      ReverseLength(Uns(r)); ReverseLength(Bins(r));
    case _ =>
  }

  lemma {:induction false} SameLengthArgs(a: Args, env: Env)
    requires CanonicalArgs(a, env)
    ensures |OutputArgs(a, env)| == |PostfixArgs(a, env)|
    decreases a
  {
    if a.Arg? {
      hide Output, Postfix;
      SameLength(a.e, env);
      SameLengthArgs(a.rest, env);
    }
  }

  /** The left operand of a binary operator, as emitted, is its postfix code
      exactly when its own output is and its prefix run reads the same backwards. */
  lemma {:induction false} LeftOperand(l: Expr, env: Env)
    requires Canonical(l, env)
    ensures Emitted(l, env) + Uns(l) + Reverse(Bins(l)) == Postfix(l, env) <==>
            Output(l, env) == Postfix(l, env) && Uns(l) == Reverse(Uns(l))
  {
    hide Emitted, Postfix, Core, Reverse, Bins, Uns, Canonical;
    PostfixCore(l, env);
    SameLength(l, env);
    ReverseLength(Uns(l));
    SplitMiddle(Emitted(l, env), Uns(l), Core(l, env), Reverse(Uns(l)), Reverse(Bins(l)));
    SplitMiddle(Emitted(l, env), Reverse(Uns(l)), Core(l, env), Reverse(Uns(l)), Reverse(Bins(l)));
  }

  lemma SplitMiddle(a: seq<Code>, u: seq<Code>, c: seq<Code>, v: seq<Code>, b: seq<Code>)
    requires |a| == |c| && |u| == |v|
    ensures a + u + b == c + v + b <==> a == c && u == v
  {
    if a + u + b == c + v + b {
      AppendSplit(a + u, b, c + v, b);
      AppendSplit(a, u, c, v);
    }
  }

  /** The code emitted for a tree is its postfix order if and only if every
      prefix run in front of a binary operator reads the same backwards. */
  lemma {:induction false} OutputIsPostfix(e: Expr, env: Env)
    requires Canonical(e, env)
    ensures Output(e, env) == Postfix(e, env) <==> EvenRuns(e)
    decreases e
  {
    match e
    case Paren(x) =>
      OutputIsPostfix(x, env);
      assert Output(e, env) == Output(x, env);
    case Element(n, x) =>
      OutputIsPostfix(x, env);
      SameLength(x, env);
      ElementOutput(e, env);
    case Apply(n, args) =>
      ArgsOutputIsPostfix(args, env);
      SameLengthArgs(args, env);
      ApplyOutput(e, env);
    case Prefix(u, x) =>
      OutputIsPostfix(x, env);
      PrefixOutput(e, env);
    case Infix(_, _, l, r) =>
      OutputIsPostfix(l, env);
      OutputIsPostfix(r, env);
      LeftOperand(l, env);
      InfixOutput(e, env);
    case _ =>
      assert Output(e, env) == Postfix(e, env);
  }

  lemma {:induction false} ArgsOutputIsPostfix(a: Args, env: Env)
    requires CanonicalArgs(a, env)
    ensures OutputArgs(a, env) == PostfixArgs(a, env) <==> EvenRunsArgs(a)
    decreases a
  {
    if a.Arg? {
      OutputIsPostfix(a.e, env);
      ArgsOutputIsPostfix(a.rest, env);
      SameLength(a.e, env);
      hide Output, Postfix, EvenRuns;
      if OutputArgs(a, env) == PostfixArgs(a, env) {
        AppendSplit(Output(a.e, env), OutputArgs(a.rest, env), Postfix(a.e, env), PostfixArgs(a.rest, env));
      }
    }
  }

  lemma {:induction false} ElementOutput(e: Expr, env: Env)
    requires Canonical(e, env) && e.Element?
    requires |Output(e.index, env)| == |Postfix(e.index, env)|
    ensures Output(e, env) == Postfix(e, env) <==> Output(e.index, env) == Postfix(e.index, env)
  {
    var v, i := [Var(env[e.name].v)], [Index(ToVar(env[e.name].v))];
    var o, p := Output(e.index, env), Postfix(e.index, env);
    assert Output(e, env) == v + (o + i) && Postfix(e, env) == v + (p + i);
    if v + (o + i) == v + (p + i) {
      AppendSplit(v, o + i, v, p + i);
      AppendSplit(o, i, p, i);
    }
  }

  lemma {:induction false} ApplyOutput(e: Expr, env: Env)
    requires Canonical(e, env) && e.Apply?
    requires |OutputArgs(e.args, env)| == |PostfixArgs(e.args, env)|
    ensures Output(e, env) == Postfix(e, env) <==> OutputArgs(e.args, env) == PostfixArgs(e.args, env)
  {
    var c := CallCode(env[e.name].f, Count(e.args));
    assert Output(e, env) == OutputArgs(e.args, env) + c;
    if Output(e, env) == Postfix(e, env) {
      AppendSplit(OutputArgs(e.args, env), c, PostfixArgs(e.args, env), c);
    }
  }

  lemma {:induction false} PrefixOutput(e: Expr, env: Env)
    requires Canonical(e, env) && e.Prefix?
    ensures Output(e, env) == Postfix(e, env) <==> Output(e.e, env) == Postfix(e.e, env)
  {
    TightBins(e.e);
    ReverseCons(Un(e.u), Uns(e.e));
    SameLength(e.e, env);
    assert Reverse([]) == [];
    assert Output(e, env) == Output(e.e, env) + [Un(e.u)];
    if Output(e, env) == Postfix(e, env) {
      AppendSplit(Output(e.e, env), [Un(e.u)], Postfix(e.e, env), [Un(e.u)]);
    }
  }

  lemma SplitBinary(a: seq<Code>, o: seq<Code>, p: seq<Code>, q: seq<Code>, x: seq<Code>)
    requires |a| == |p| && |o| == |q|
    ensures a + (o + x) == p + (q + x) <==> a == p && o == q
  {
    if a + (o + x) == p + (q + x) {
      AppendSplit(a, o + x, p, q + x);
      AppendSplit(o, x, q, x);
    }
  }

  lemma {:induction false} InfixShape(e: Expr, env: Env)
    requires Canonical(e, env) && e.Infix?
    ensures Output(e, env) ==
            (Emitted(e.l, env) + Uns(e.l) + Reverse(Bins(e.l))) + (Output(e.r, env) + [Bin(e.b)])
    ensures Postfix(e, env) == Postfix(e.l, env) + (Postfix(e.r, env) + [Bin(e.b)])
  {
    ReverseCons(Bin(e.b), Bins(e.r));
    hide Reverse;
    var a := Emitted(e.l, env) + Uns(e.l) + Reverse(Bins(e.l));
    Rebracket(a, Emitted(e.r, env), Reverse(Uns(e.r)), Reverse(Bins(e.r)), [Bin(e.b)]);
  }

  lemma {:induction false} InfixOutput(e: Expr, env: Env)
    requires Canonical(e, env) && e.Infix?
    ensures Output(e, env) == Postfix(e, env) <==>
            Emitted(e.l, env) + Uns(e.l) + Reverse(Bins(e.l)) == Postfix(e.l, env) &&
            Output(e.r, env) == Postfix(e.r, env)
  {
    InfixShape(e, env);
    SameLength(e.l, env);
    SameLength(e.r, env);
    ReverseLength(Uns(e.l));
    hide Postfix, Emitted, Reverse;
    SplitBinary(Emitted(e.l, env) + Uns(e.l) + Reverse(Bins(e.l)), Output(e.r, env),
                Postfix(e.l, env), Postfix(e.r, env), [Bin(e.b)]);
  }
}

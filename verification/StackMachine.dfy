/**
 The meaning of expressions and of their code: the value of a tree, the stack
 machine that runs postfix code, and the theorem that ties them through
 compileEval. Values and the meaning of the commands are left open.
 */
module StackMachine {
  import opened Wrappers
  import opened Lexemes
  import opened Initializers
  import opened Expressions
  import opened ExpressionTrees
  import opened ExpressionCompilation

  /** What the commands do to values of type V in a world of type W: variables,
      outer variables and whatever functions can change. None is a runtime error.
      `store` puts a value under a key into the value of a place; it answers what
      stays on the stack. */
  datatype Semantics<!V, !W> = Semantics(
    constant: Const -> V,
    count: V -> nat,
    truth: V -> bool,
    variable: (VarRef, W) -> Option<V>,
    outer: (string, W) -> Option<V>,
    held: (string, W) -> V,
    mapOf: seq<(string, V)> -> V,
    listOf: seq<V> -> V,
    unary: (Unary, V) -> Option<V>,
    binary: (Binary, V, V) -> Option<V>,
    index: (V, V) -> Option<V>,
    call: (Func, seq<V>, W) -> Option<(seq<V>, W)>,
    assign: (Target, V, W) -> Option<W>,
    store: (Target, V, V, V, W) -> Option<(V, W)>)

  /** An argument count that was pushed can be read back, and a function returns as
      many values as it declares. */
  ghost predicate Regular<V(!new), W(!new)>(m: Semantics<V, W>) {
    && (forall n: nat :: m.count(m.constant(ArgCount(n))) == n)
    && (forall f: Func, args: seq<V>, w: W :: m.call(f, args, w).Some? ==> |m.call(f, args, w).value.0| == f.results)
  }

  type Config<!V, !W> = (seq<V>, W)   // the stack and the world

  function Pushed<V, W>(stack: seq<V>, v: Option<V>, w: W): Option<Config<V, W>> {
    if v.None? then None else Some((stack + [v.value], w))
  }

  /** The value of an initializer: variables are read where the literal stands, an
      outer variable that is missing is held as the empty value. */
  function ItemValue<V, W>(m: Semantics<V, W>, x: Item, w: W): Option<V>
    decreases x
  {
    match x
    case ItemConst(c) => Some(m.constant(c))
    case ItemVar(o) => if o.ObjVar? then m.variable(o.v, w) else None
    case ItemExtend(n) => Some(m.held(n, w))
    case ItemMap(es) =>
      var vs :- EntryValues(m, es, w);
      Some(m.mapOf(vs))
    case ItemArray(xs) =>
      var vs :- ItemValues(m, xs, w);
      Some(m.listOf(vs))
  }

  function EntryValues<V, W>(m: Semantics<V, W>, es: Entries, w: W): Option<seq<(string, V)>>
    decreases es
  {
    if es == [] then Some([])
    else
      assert es[0].1 < es[0];
      var v :- ItemValue(m, es[0].1, w);
      var vs :- EntryValues(m, es[1..], w);
      Some([(es[0].0, v)] + vs)
  }

  function ItemValues<V, W>(m: Semantics<V, W>, xs: seq<Item>, w: W): Option<seq<V>>
    decreases xs
  {
    if xs == [] then Some([])
    else
      var v :- ItemValue(m, xs[0], w);
      var vs :- ItemValues(m, xs[1..], w);
      Some([v] + vs)
  }

  /** The elements of a list have their values in order, and no list has a value if one of
      its elements has none. */
  lemma {:induction false} ListValueIff<V(!new), W(!new)>(m: Semantics<V, W>, xs: seq<Item>, w: W)
    ensures var r := ItemValues(m, xs, w);
            && (r.None? <==> exists k :: 0 <= k < |xs| && ItemValue(m, xs[k], w) == None)
            && (r.Some? ==> |r.value| == |xs| && forall k :: 0 <= k < |xs| ==> ItemValue(m, xs[k], w) == Some(r.value[k]))
    decreases |xs|
  {
    if xs != [] {
      ListValueIff(m, xs[1..], w);
      assert forall k :: 0 < k < |xs| ==> xs[k] == xs[1..][k - 1];
      assert forall k :: 0 <= k < |xs| - 1 ==> xs[1..][k] == xs[k + 1];
    }
  }

  /** The same for the entries of a map, each under its key. */
  lemma {:induction false} MapValueIff<V(!new), W(!new)>(m: Semantics<V, W>, es: Entries, w: W)
    ensures var r := EntryValues(m, es, w);
            && (r.None? <==> exists k :: 0 <= k < |es| && ItemValue(m, es[k].1, w) == None)
            && (r.Some? ==> |r.value| == |es| &&
                            forall k :: 0 <= k < |es| ==> r.value[k].0 == es[k].0 && ItemValue(m, es[k].1, w) == Some(r.value[k].1))
    decreases |es|
  {
    if es != [] {
      MapValueIff(m, es[1..], w);
      assert forall k :: 0 < k < |es| ==> es[k] == es[1..][k - 1];
      assert forall k :: 0 <= k < |es| - 1 ==> es[1..][k] == es[k + 1];
    }
  }

  function TakeArgs<V, W>(m: Semantics<V, W>, f: Func, n: nat, stack: seq<V>, w: W): Option<Config<V, W>> {
    if |stack| < n then None
    else
      var (vs, w1) :- m.call(f, stack[|stack| - n..], w);
      Some((stack[..|stack| - n] + vs, w1))
  }

  /** One command; None is a runtime error, a stack underflow or a command that
      is no part of an expression. */
  function Exec1<V, W>(m: Semantics<V, W>, c: Code, stack: seq<V>, w: W): Option<Config<V, W>> {
    match c
    case Push(k) => Some((stack + [m.constant(k)], w))
    case Var(v) => Pushed(stack, m.variable(v, w), w)
    case ExtendVar(n) => Pushed(stack, m.outer(n, w), w)
    case MapInit(es) => Pushed(stack, ItemValue(m, ItemMap(es), w), w)
    case ArrayInit(es) => Pushed(stack, ItemValue(m, ItemArray(es), w), w)
    case Un(u) =>
      if |stack| < 1 then None
      else Pushed(stack[..|stack| - 1], m.unary(u, stack[|stack| - 1]), w)
    case Bin(b) =>
      if |stack| < 2 then None
      else Pushed(stack[..|stack| - 2], m.binary(b, stack[|stack| - 2], stack[|stack| - 1]), w)
    case Index(_) =>
      if |stack| < 2 then None
      else Pushed(stack[..|stack| - 2], m.index(stack[|stack| - 2], stack[|stack| - 1]), w)
    case Call(f) => TakeArgs(m, f, f.params, stack, w)
    case CallVari(f) =>
      if |stack| < 1 then None
      else
        var n := m.count(stack[|stack| - 1]);
        if n + 1 < f.params then None else TakeArgs(m, f, n, stack[..|stack| - 1], w)
    case _ => None
  }

  function Exec<V, W>(m: Semantics<V, W>, code: seq<Code>, stack: seq<V>, w: W): Option<Config<V, W>> {
    if code == [] then Some((stack, w))
    else
      var (s, w1) :- Exec1(m, code[0], stack, w);
      Exec(m, code[1..], s, w1)
  }

  function With<V, W>(v: Option<V>, w: W): Option<(V, W)> {
    if v.None? then None else Some((v.value, w))
  }

  /** A call as an operand has exactly one value. */
  function Single<V, W>(r: Option<(seq<V>, W)>): Option<(V, W)> {
    if r.Some? && |r.value.0| == 1 then Some((r.value.0[0], r.value.1)) else None
  }

  /** The value of a tree: operands from left to right, each in the world that the
      one before it leaves. */
  function Value<V, W>(m: Semantics<V, W>, e: Expr, env: Env, w: W): Option<(V, W)>
    requires Canonical(e, env)
    decreases e
  {
    match e
    case Atom(c) => Some((m.constant(c), w))
    case Name(n) => With(m.variable(env[n].v, w), w)
    case Outer(n) => With(m.outer(n, w), w)
    case Literal(v) =>
      MeaningKind(v, env);
      With(ItemValue(m, Meaning(v, env).value, w), w)
    case Paren(x) => Value(m, x, env, w)
    case Element(n, x) =>
      var base :- m.variable(env[n].v, w);
      var (k, w1) :- Value(m, x, env, w);
      With(m.index(base, k), w1)
    case Apply(n, args) =>
      var (vs, w1) :- Values(m, args, env, w);
      Single(m.call(env[n].f, vs, w1))
    case Prefix(u, x) =>
      var (v, w1) :- Value(m, x, env, w);
      With(m.unary(u, v), w1)
    case Infix(b, _, l, r) =>
      var (x, w1) :- Value(m, l, env, w);
      var (y, w2) :- Value(m, r, env, w1);
      With(m.binary(b, x, y), w2)
  }

  function Values<V, W>(m: Semantics<V, W>, a: Args, env: Env, w: W): (r: Option<(seq<V>, W)>)
    requires CanonicalArgs(a, env)
    ensures r.Some? ==> |r.value.0| == Count(a)
    decreases a
  {
    match a
    case NoArg => Some(([], w))
    case Arg(e, rest) =>
      var (v, w1) :- Value(m, e, env, w);
      var (vs, w2) :- Values(m, rest, env, w1);
      Some(([v] + vs, w2))
  }

  /** The values of an expression that stands alone; a call may have none or several. */
  function Results<V, W>(m: Semantics<V, W>, e: Expr, env: Env, w: W): Option<(seq<V>, W)>
    requires Canonical(e, env)
  {
    if e.Apply? then
      var (vs, w1) :- Values(m, e.args, env, w);
      m.call(env[e.name].f, vs, w1)
    else
      var (v, w1) :- Value(m, e, env, w);
      Some(([v], w1))
  }

  /** The values of a list as it stands behind `return` or `=`. */
  function Spread<V, W>(m: Semantics<V, W>, a: Args, env: Env, w: W): Option<(seq<V>, W)>
    requires CanonicalArgs(a, env)
    decreases a
  {
    match a
    case NoArg => Some(([], w))
    case Arg(e, rest) =>
      var (vs, w1) :- Results(m, e, env, w);
      var (us, w2) :- Spread(m, rest, env, w1);
      Some((vs + us, w2))
  }

  /** How many values the list has. */
  function Width(a: Args, env: Env): nat
    requires CanonicalArgs(a, env)
    decreases a
  {
    match a
    case NoArg => 0
    case Arg(e, rest) => ResultCount(e, env) + Width(rest, env)
  }

  function ResultCount(e: Expr, env: Env): nat
    requires Canonical(e, env)
  {
    if e.Apply? then env[e.name].f.results else 1
  }

  predicate FitsCall(f: Func, n: nat) {
    if !f.variadic then n == f.params
    else if f.external then n >= f.params
    else n + 1 >= f.params
  }

  /** Every call passes as many arguments as its function takes and returns one value. */
  predicate Fits(e: Expr, env: Env)
    requires Canonical(e, env)
    decreases e
  {
    match e
    case Paren(x) => Fits(x, env)
    case Element(_, x) => Fits(x, env)
    case Apply(n, args) => FitsArgs(args, env) && FitsCall(env[n].f, Count(args)) && env[n].f.results == 1
    case Prefix(_, x) => Fits(x, env)
    case Infix(_, _, l, r) => Fits(l, env) && Fits(r, env)
    case _ => true
  }

  predicate FitsArgs(a: Args, env: Env)
    requires CanonicalArgs(a, env)
    decreases a
  {
    a.NoArg? || (Fits(a.e, env) && FitsArgs(a.rest, env))
  }

  /** An expression that stands alone may be a call with any number of results. */
  predicate FitsAlone(e: Expr, env: Env)
    requires Canonical(e, env)
  {
    if e.Apply? then FitsArgs(e.args, env) && FitsCall(env[e.name].f, Count(e.args)) else Fits(e, env)
  }

  predicate FitsList(a: Args, env: Env)
    requires CanonicalArgs(a, env)
    decreases a
  {
    a.NoArg? || (FitsAlone(a.e, env) && FitsList(a.rest, env))
  }

  lemma {:induction false} FitsNoBadList(a: Args, env: Env)
    requires CanonicalArgs(a, env) && FitsList(a, env)
    ensures BadCallArgs(a, env) == None
    decreases a
  {
    if a.Arg? {
      if a.e.Apply? { FitsNoBadCallArgs(a.e.args, env); } else { FitsNoBadCall(a.e, env); }
      FitsNoBadList(a.rest, env);
    }
  }

  lemma {:induction false} FitsNoBadCall(e: Expr, env: Env)
    requires Canonical(e, env) && Fits(e, env)
    ensures BadCall(e, env) == None
    decreases e
  {
    match e
    case Paren(x) => FitsNoBadCall(x, env);
    case Element(_, x) => FitsNoBadCall(x, env);
    case Apply(_, args) => FitsNoBadCallArgs(args, env);
    case Prefix(_, x) => FitsNoBadCall(x, env);
    case Infix(_, _, l, r) => FitsNoBadCall(l, env); FitsNoBadCall(r, env);
    case _ =>
  }

  lemma {:induction false} FitsNoBadCallArgs(a: Args, env: Env)
    requires CanonicalArgs(a, env) && FitsArgs(a, env)
    ensures BadCallArgs(a, env) == None
    decreases a
  {
    if a.Arg? {
      FitsNoBadCall(a.e, env);
      FitsNoBadCallArgs(a.rest, env);
    }
  }

  /** A constant and a variable have in a literal the value that they have as an expression; an
      outer variable that is missing is held as the empty value there. */
  lemma {:induction false} LeafValues<V, W>(m: Semantics<V, W>, env: Env, w: W, c: Const, n: string)
    ensures Meaning(InitConst(c), env).Good? && Value(m, Atom(c), env, w) == With(ItemValue(m, Meaning(InitConst(c), env).value, w), w)
    ensures n in env && env[n].ObjVar? ==>
              Meaning(InitVar(n), env).Good? && Value(m, Name(n), env, w) == With(ItemValue(m, Meaning(InitVar(n), env).value, w), w)
    ensures Meaning(InitExtend(n), env).Good? && ItemValue(m, Meaning(InitExtend(n), env).value, w) == Some(m.held(n, w))
  {
  }

  /** Every call of a built-in function passes as many arguments as the function takes. */
  predicate BuiltinsFit(e: Expr, env: Env)
    requires Canonical(e, env)
    decreases e
  {
    match e
    case Paren(x) => BuiltinsFit(x, env)
    case Element(_, x) => BuiltinsFit(x, env)
    case Apply(n, args) => BuiltinsFitArgs(args, env) && (env[n].f.external ==> FitsCall(env[n].f, Count(args)))
    case Prefix(_, x) => BuiltinsFit(x, env)
    case Infix(_, _, l, r) => BuiltinsFit(l, env) && BuiltinsFit(r, env)
    case _ => true
  }

  predicate BuiltinsFitArgs(a: Args, env: Env)
    requires CanonicalArgs(a, env)
    decreases a
  {
    a.NoArg? || (BuiltinsFit(a.e, env) && BuiltinsFitArgs(a.rest, env))
  }

  lemma {:induction false} BadCallIff(e: Expr, env: Env)
    requires Canonical(e, env)
    ensures BadCall(e, env) == None <==> BuiltinsFit(e, env)
    decreases e
  {
    match e
    case Paren(x) => BadCallIff(x, env);
    case Element(_, x) => BadCallIff(x, env);
    case Apply(_, args) => BadCallArgsIff(args, env);
    case Prefix(_, x) => BadCallIff(x, env);
    case Infix(_, _, l, r) => BadCallIff(l, env); BadCallIff(r, env);
    case _ =>
  }

  lemma {:induction false} BadCallArgsIff(a: Args, env: Env)
    requires CanonicalArgs(a, env)
    ensures BadCallArgs(a, env) == None <==> BuiltinsFitArgs(a, env)
    decreases a
  {
    if a.Arg? {
      BadCallIff(a.e, env);
      BadCallArgsIff(a.rest, env);
    }
  }

  /** compileEval refuses a list of expressions if and only if a built-in function is called
      with a wrong number of arguments; otherwise it stops at the end of the list. */
  lemma {:induction false} ListCompilesIff(lex: seq<Lexeme>, p: nat, a: Args, env: Env)
    requires a.Arg? && CanonicalArgs(a, env) && At(lex, p, PrintArgs(a)) && Fresh(lex, p)
    requires EndsAt(lex, p + |PrintArgs(a)|, EndNoMapArgs(a))
    ensures EvalAt(lex, p, env).Good? <==> BuiltinsFitArgs(a, env)
    ensures !BuiltinsFitArgs(a, env) ==> exists n :: EvalAt(lex, p, env) == Bad(ErrWrongParams(n))
  {
    hide Run, OutputArgs, PrintArgs, BuiltinsFitArgs, EndsAt, Fresh, At;
    BadCallArgsIff(a, env);
    ListRun(lex, Start(p), a, env);
    assert [] + OutputArgs(a, env) == OutputArgs(a, env);
  }

  lemma {:induction false} ExecAppend<V, W>(m: Semantics<V, W>, a: seq<Code>, b: seq<Code>, stack: seq<V>, w: W)
    ensures Exec(m, a + b, stack, w) ==
            match Exec(m, a, stack, w) case None => None case Some((s, w1)) => Exec(m, b, s, w1)
    decreases |a|
  {
    hide Exec1;
    if a == [] {
      assert a + b == b;
    } else {
      assert (a + b)[1..] == a[1..] + b && (a + b)[0] == a[0];
      match Exec1(m, a[0], stack, w)
      case None =>
      case Some((s, w1)) => ExecAppend(m, a[1..], b, s, w1);
    }
  }

  lemma ExecOne<V, W>(m: Semantics<V, W>, c: Code, stack: seq<V>, w: W)
    ensures Exec(m, [c], stack, w) == Exec1(m, c, stack, w)
  {
    hide Exec1;
    assert [c][1..] == [];
    match Exec1(m, c, stack, w)
    case None =>
    case Some((s, w1)) => assert Exec(m, [], s, w1) == Some((s, w1));
  }

  /** What the machine has after an expression: its value on top of the stack. */
  function OnStack<V, W>(stack: seq<V>, r: Option<(V, W)>): Option<Config<V, W>> {
    match r case None => None case Some((v, w)) => Some((stack + [v], w))
  }

  function AllOnStack<V, W>(stack: seq<V>, r: Option<(seq<V>, W)>): Option<Config<V, W>> {
    match r case None => None case Some((vs, w)) => Some((stack + vs, w))
  }

  lemma {:induction false} ExecCall<V(!new), W(!new)>(m: Semantics<V, W>, f: Func, args: seq<V>, stack: seq<V>, w: W)
    requires Regular(m) && FitsCall(f, |args|)
    ensures Exec(m, CallCode(f, |args|), stack + args, w) == AllOnStack(stack, m.call(f, args, w))
  {
    var s := stack + args;
    assert s[..|s| - |args|] == stack && s[|s| - |args|..] == args;
    if f.variadic {
      var n := |args|;
      var s1 := s + [m.constant(ArgCount(n))];
      assert s1[..|s1| - 1] == s;
      ExecAppend(m, [Push(ArgCount(n))], [CallVari(f)], s, w);
      ExecOne(m, Push(ArgCount(n)), s, w);
      ExecOne(m, CallVari(f), s1, w);
      assert CallCode(f, n) == [Push(ArgCount(n))] + [CallVari(f)];
    } else {
      ExecOne(m, Call(f), s, w);
    }
  }

  /** The postfix code of a tree, on any stack and in any world, pushes the value
      of the tree and leaves the world that its evaluation leaves; it fails when
      the evaluation fails. */
  lemma {:induction false} PostfixRuns<V(!new), W(!new)>(m: Semantics<V, W>, e: Expr, env: Env, stack: seq<V>, w: W)
    requires Regular(m) && Canonical(e, env) && Fits(e, env)
    ensures Exec(m, Postfix(e, env), stack, w) == OnStack(stack, Value(m, e, env, w))
    decreases e, 2
  {
    hide Exec, CallCode;
    match e
    case Paren(x) => PostfixRuns(m, x, env, stack, w);
    case Element(n, x) => ElementRuns(m, e, env, stack, w);
    case Apply(n, args) => CallRuns(m, e, env, stack, w);
    case Prefix(u, x) => PrefixRuns(m, e, env, stack, w);
    case Infix(b, _, l, r) => InfixRuns(m, e, env, stack, w);
    case Atom(c) => ExecOne(m, Push(c), stack, w);
    case Name(n) => ExecOne(m, Var(env[n].v), stack, w);
    case Outer(n) => ExecOne(m, ExtendVar(n), stack, w);
    case Literal(v) => ExecOne(m, LiteralCode(v, env)[0], stack, w);
  }

  lemma {:induction false} CallRuns<V(!new), W(!new)>(m: Semantics<V, W>, e: Expr, env: Env, stack: seq<V>, w: W)
    requires Regular(m) && Canonical(e, env) && Fits(e, env) && e.Apply?
    ensures Exec(m, Postfix(e, env), stack, w) == OnStack(stack, Value(m, e, env, w))
    decreases e, 1
  {
    hide Exec, CallCode, Postfix;
    AloneRuns(m, e, env, stack, w);
    match Values(m, e.args, env, w)
    case None =>
    case Some((vs, w1)) =>
      var r := m.call(env[e.name].f, vs, w1);
      if r.Some? { assert r.value.0 == [r.value.0[0]]; }
  }

  /** A call that stands alone leaves all its values. */
  lemma {:induction false} AloneRuns<V(!new), W(!new)>(m: Semantics<V, W>, e: Expr, env: Env, stack: seq<V>, w: W)
    requires Regular(m) && Canonical(e, env) && FitsAlone(e, env) && e.Apply?
    ensures Exec(m, Postfix(e, env), stack, w) == AllOnStack(stack, Results(m, e, env, w))
    decreases e, 0
  {
    hide Exec, CallCode;
    ArgsRuns(m, e.args, env, stack, w);
    ExecAppend(m, PostfixArgs(e.args, env), CallCode(env[e.name].f, Count(e.args)), stack, w);
    match Values(m, e.args, env, w)
    case None =>
    case Some((vs, w1)) => ExecCall(m, env[e.name].f, vs, stack, w1);
  }

  lemma {:induction false} AnyRuns<V(!new), W(!new)>(m: Semantics<V, W>, e: Expr, env: Env, stack: seq<V>, w: W)
    requires Regular(m) && Canonical(e, env) && FitsAlone(e, env)
    ensures Exec(m, Postfix(e, env), stack, w) == AllOnStack(stack, Results(m, e, env, w))
  {
    hide Exec, Postfix;
    if e.Apply? { AloneRuns(m, e, env, stack, w); } else { PostfixRuns(m, e, env, stack, w); }
  }

  lemma ResultsCount<V(!new), W(!new)>(m: Semantics<V, W>, e: Expr, env: Env, w: W)
    requires Regular(m) && Canonical(e, env)
    ensures Results(m, e, env, w).Some? ==> |Results(m, e, env, w).value.0| == ResultCount(e, env)
  {
    hide Value, Values;
  }

  /** A list behind `return` or `=` leaves all its values in order. */
  lemma {:induction false} SpreadRuns<V(!new), W(!new)>(m: Semantics<V, W>, a: Args, env: Env, stack: seq<V>, w: W)
    requires Regular(m) && CanonicalArgs(a, env) && FitsList(a, env)
    ensures Exec(m, PostfixArgs(a, env), stack, w) == AllOnStack(stack, Spread(m, a, env, w))
    decreases a
  {
    hide Postfix, Results, FitsAlone, Regular, Canonical, Exec1;
    if a.NoArg? {
      assert stack + [] == stack;
    } else {
      hide Exec;
      AnyRuns(m, a.e, env, stack, w);
      ExecAppend(m, Postfix(a.e, env), PostfixArgs(a.rest, env), stack, w);
      match Results(m, a.e, env, w)
      case None =>
      case Some((vs, w1)) =>
        SpreadRuns(m, a.rest, env, stack + vs, w1);
        match Spread(m, a.rest, env, w1)
        case None =>
        case Some((us, w2)) => assert stack + vs + us == stack + (vs + us);
    }
  }

  lemma {:induction false} SpreadWidth<V(!new), W(!new)>(m: Semantics<V, W>, a: Args, env: Env, w: W)
    requires Regular(m) && CanonicalArgs(a, env)
    ensures Spread(m, a, env, w).Some? ==> |Spread(m, a, env, w).value.0| == Width(a, env)
    decreases a
  {
    if a.Arg? && Results(m, a.e, env, w).Some? {
      ResultsCount(m, a.e, env, w);
      SpreadWidth(m, a.rest, env, Results(m, a.e, env, w).value.1);
    }
  }

  lemma {:induction false} PrefixRuns<V(!new), W(!new)>(m: Semantics<V, W>, e: Expr, env: Env, stack: seq<V>, w: W)
    requires Regular(m) && Canonical(e, env) && Fits(e, env) && e.Prefix?
    ensures Exec(m, Postfix(e, env), stack, w) == OnStack(stack, Value(m, e, env, w))
    decreases e, 0
  {
    hide Exec;
    PostfixRuns(m, e.e, env, stack, w);
    ExecAppend(m, Postfix(e.e, env), [Un(e.u)], stack, w);
    match Value(m, e.e, env, w)
    case None =>
    case Some((v, w1)) =>
      assert (stack + [v])[..|stack|] == stack;
      ExecOne(m, Un(e.u), stack + [v], w1);
  }

  lemma {:induction false} ElementRuns<V(!new), W(!new)>(m: Semantics<V, W>, e: Expr, env: Env, stack: seq<V>, w: W)
    requires Regular(m) && Canonical(e, env) && Fits(e, env) && e.Element?
    ensures Exec(m, Postfix(e, env), stack, w) == OnStack(stack, Value(m, e, env, w))
    decreases e, 0
  {
    hide Exec;
    var v, x := env[e.name].v, e.index;
    ExecOne(m, Var(v), stack, w);
    ExecAppend(m, [Var(v)], Postfix(x, env), stack, w);
    ExecAppend(m, [Var(v)] + Postfix(x, env), [Index(ToVar(v))], stack, w);
    if m.variable(v, w).Some? {
      var s1 := stack + [m.variable(v, w).value];
      PostfixRuns(m, x, env, s1, w);
      match Value(m, x, env, w)
      case None =>
      case Some((k, w1)) =>
        var s2 := s1 + [k];
        assert s2[..|s2| - 2] == stack;
        ExecOne(m, Index(ToVar(v)), s2, w1);
    }
  }

  lemma {:induction false} InfixRuns<V(!new), W(!new)>(m: Semantics<V, W>, e: Expr, env: Env, stack: seq<V>, w: W)
    requires Regular(m) && Canonical(e, env) && Fits(e, env) && e.Infix?
    ensures Exec(m, Postfix(e, env), stack, w) == OnStack(stack, Value(m, e, env, w))
    decreases e, 0
  {
    hide Exec;
    PostfixRuns(m, e.l, env, stack, w);
    ExecAppend(m, Postfix(e.l, env), Postfix(e.r, env), stack, w);
    ExecAppend(m, Postfix(e.l, env) + Postfix(e.r, env), [Bin(e.b)], stack, w);
    match Value(m, e.l, env, w)
    case None =>
    case Some((x, w1)) =>
      PostfixRuns(m, e.r, env, stack + [x], w1);
      match Value(m, e.r, env, w1)
      case None =>
      case Some((y, w2)) =>
        var s2 := stack + [x] + [y];
        assert s2[..|s2| - 2] == stack;
        ExecOne(m, Bin(e.b), s2, w2);
  }

  lemma {:induction false} ArgsRuns<V(!new), W(!new)>(m: Semantics<V, W>, a: Args, env: Env, stack: seq<V>, w: W)
    requires Regular(m) && CanonicalArgs(a, env) && FitsArgs(a, env)
    ensures Exec(m, PostfixArgs(a, env), stack, w) == AllOnStack(stack, Values(m, a, env, w))
    decreases a
  {
    if a.NoArg? {
      assert stack + [] == stack;
    } else {
      hide Exec;
      PostfixRuns(m, a.e, env, stack, w);
      ExecAppend(m, Postfix(a.e, env), PostfixArgs(a.rest, env), stack, w);
      match Value(m, a.e, env, w)
      case None =>
      case Some((v, w1)) =>
        ArgsRuns(m, a.rest, env, stack + [v], w1);
        match Values(m, a.rest, env, w1)
        case None =>
        case Some((vs, w2)) => assert stack + [v] + vs == stack + ([v] + vs);
    }
  }

  /** compileEval preserves meaning: the code it produces for a printed list of
      expressions, run on any stack, pushes the values of the expressions in order. */
  lemma {:induction false} CompiledExpressionsRun<V(!new), W(!new)>(
      m: Semantics<V, W>, lex: seq<Lexeme>, p: nat, a: Args, env: Env, stack: seq<V>, w: W)
    requires Regular(m)
    requires a.Arg? && CanonicalArgs(a, env) && FitsList(a, env) && EvenRunsArgs(a)
    requires At(lex, p, PrintArgs(a)) && Fresh(lex, p)
    requires EndsAt(lex, p + |PrintArgs(a)|, EndNoMapArgs(a))
    ensures EvalAt(lex, p, env).Good? && EvalAt(lex, p, env).value.0 == StopAt(lex, p + |PrintArgs(a)|)
    ensures Exec(m, EvalAt(lex, p, env).value.1, stack, w) == AllOnStack(stack, Spread(m, a, env, w))
  {
    hide Exec, Run, OutputArgs, PrintArgs, PostfixArgs, Spread;
    FitsNoBadList(a, env);
    ListTheorem(lex, p, a, env);
    SpreadRuns(m, a, env, stack, w);
  }

  // ----- every tree has a printing that compiles correctly -----

  /** The names of `e` are known; nothing is said about parentheses. */
  predicate Known(e: Expr, env: Env)
    decreases e
  {
    match e
    case Name(n) => n in env && env[n].ObjVar?
    case Literal(v) => (v.InitMap? || v.InitArray?) && Meaning(v, env).Good?
    case Paren(x) => Known(x, env)
    case Element(n, x) => n in env && env[n].ObjVar? && Known(x, env)
    case Apply(n, args) => n in env && env[n].ObjFunc? && KnownArgs(args, env)
    case Prefix(_, x) => Known(x, env)
    case Infix(_, _, l, r) => Known(l, env) && Known(r, env)
    case _ => true
  }

  predicate KnownArgs(a: Args, env: Env)
    decreases a
  {
    a.NoArg? || (Known(a.e, env) && KnownArgs(a.rest, env))
  }

  function Wrap(e: Expr, k: nat): Expr {
    if Level(e) < k then Paren(e) else e
  }

  /** The tree with parentheses where its structure would be lost, and around
      nested prefix operators. */
  function Bracketed(e: Expr): Expr
    decreases e
  {
    match e
    case Paren(x) => Paren(Bracketed(x))
    case Element(n, x) => Element(n, Bracketed(x))
    case Apply(n, args) => Apply(n, BracketedArgs(args))
    case Prefix(u, x) => Prefix(u, Wrap(Bracketed(x), UNARY_PRIORITY + 1))
    case Infix(b, nl, l, r) =>
      Infix(b, nl, Wrap(Bracketed(l), BinPriority(b)), Wrap(Bracketed(r), BinPriority(b) + 1))
    case _ => e
  }

  function BracketedArgs(a: Args): Args
    decreases a
  {
    match a case NoArg => NoArg case Arg(e, rest) => Arg(Bracketed(e), BracketedArgs(rest))
  }

  /** The value of a tree by its structure alone, whatever its printing. */
  function TreeValue<V, W>(m: Semantics<V, W>, e: Expr, env: Env, w: W): Option<(V, W)>
    requires Known(e, env)
    decreases e
  {
    match e
    case Atom(c) => Some((m.constant(c), w))
    case Name(n) => With(m.variable(env[n].v, w), w)
    case Outer(n) => With(m.outer(n, w), w)
    case Literal(v) =>
      MeaningKind(v, env);
      With(ItemValue(m, Meaning(v, env).value, w), w)
    case Paren(x) => TreeValue(m, x, env, w)
    case Element(n, x) =>
      var base :- m.variable(env[n].v, w);
      var (k, w1) :- TreeValue(m, x, env, w);
      With(m.index(base, k), w1)
    case Apply(n, args) =>
      var (vs, w1) :- TreeValues(m, args, env, w);
      Single(m.call(env[n].f, vs, w1))
    case Prefix(u, x) =>
      var (v, w1) :- TreeValue(m, x, env, w);
      With(m.unary(u, v), w1)
    case Infix(b, _, l, r) =>
      var (x, w1) :- TreeValue(m, l, env, w);
      var (y, w2) :- TreeValue(m, r, env, w1);
      With(m.binary(b, x, y), w2)
  }

  function TreeValues<V, W>(m: Semantics<V, W>, a: Args, env: Env, w: W): Option<(seq<V>, W)>
    requires KnownArgs(a, env)
    decreases a
  {
    match a
    case NoArg => Some(([], w))
    case Arg(e, rest) =>
      var (v, w1) :- TreeValue(m, e, env, w);
      var (vs, w2) :- TreeValues(m, rest, env, w1);
      Some(([v] + vs, w2))
  }

  lemma {:induction false} PrefixRunShort(e: Expr)
    ensures |Uns(Bracketed(e))| <= 1
    ensures e.Prefix? ==> Uns(Wrap(Bracketed(e.e), UNARY_PRIORITY + 1)) == []
    decreases e
  {
    match e
    case Prefix(u, x) =>
    case Infix(b, _, l, r) => PrefixRunShort(r);
    case _ =>
  }

  lemma {:induction false} BracketedCanonical(e: Expr, env: Env)
    requires Known(e, env)
    ensures Canonical(Bracketed(e), env) && EvenRuns(Bracketed(e))
    decreases e
  {
    match e
    case Paren(x) => BracketedCanonical(x, env);
    case Element(_, x) => BracketedCanonical(x, env);
    case Apply(_, args) => BracketedArgsCanonical(args, env);
    case Prefix(_, x) => BracketedCanonical(x, env);
    case Infix(b, _, l, r) =>
      BracketedCanonical(l, env);
      BracketedCanonical(r, env);
      PrefixRunShort(l);
      var u := Uns(Wrap(Bracketed(l), BinPriority(b)));
      assert |u| <= 1;
      assert u == Reverse(u) by { if |u| == 1 { assert u[..0] == []; assert u == [u[0]]; } }
    case _ =>
  }

  lemma {:induction false} BracketedArgsCanonical(a: Args, env: Env)
    requires KnownArgs(a, env)
    ensures CanonicalArgs(BracketedArgs(a), env) && EvenRunsArgs(BracketedArgs(a))
    decreases a
  {
    if a.Arg? {
      BracketedCanonical(a.e, env);
      BracketedArgsCanonical(a.rest, env);
    }
  }

  lemma WrapValue<V, W>(m: Semantics<V, W>, e: Expr, k: nat, env: Env, w: W)
    requires Canonical(e, env)
    ensures Canonical(Wrap(e, k), env) && Value(m, Wrap(e, k), env, w) == Value(m, e, env, w)
  {
  }

  /** Every tree of known names, however deep, has a printing that is canonical,
      has no run of prefix operators and means the same as the tree. */
  lemma {:induction false} BracketedIsFaithful<V, W>(m: Semantics<V, W>, e: Expr, env: Env, w: W)
    requires Known(e, env)
    ensures Canonical(Bracketed(e), env) && EvenRuns(Bracketed(e))
    ensures Value(m, Bracketed(e), env, w) == TreeValue(m, e, env, w)
    decreases e, 1
  {
    hide EvenRuns;
    BracketedCanonical(e, env);
    match e
    case Paren(x) => BracketedIsFaithful(m, x, env, w);
    case Element(_, x) => BracketedIsFaithful(m, x, env, w);
    case Apply(_, args) => BracketedArgsFaithful(m, args, env, w);
    case Prefix(_, x) =>
      BracketedIsFaithful(m, x, env, w);
      WrapValue(m, Bracketed(x), UNARY_PRIORITY + 1, env, w);
    case Infix(_, _, _, _) => BracketedInfix(m, e, env, w);
    case _ =>
  }

  lemma {:induction false} BracketedInfix<V, W>(m: Semantics<V, W>, e: Expr, env: Env, w: W)
    requires Known(e, env) && e.Infix? && Canonical(Bracketed(e), env)
    ensures Value(m, Bracketed(e), env, w) == TreeValue(m, e, env, w)
    decreases e, 0
  {
    hide EvenRuns, Wrap, Canonical;
    var l, r := e.l, e.r;
    BracketedIsFaithful(m, l, env, w);
    WrapValue(m, Bracketed(l), BinPriority(e.b), env, w);
    match TreeValue(m, l, env, w)
    case None =>
    case Some((x, w1)) =>
      BracketedIsFaithful(m, r, env, w1);
      WrapValue(m, Bracketed(r), BinPriority(e.b) + 1, env, w1);
  }

  lemma {:induction false} BracketedArgsFaithful<V, W>(m: Semantics<V, W>, a: Args, env: Env, w: W)
    requires KnownArgs(a, env)
    ensures CanonicalArgs(BracketedArgs(a), env) && EvenRunsArgs(BracketedArgs(a))
    ensures Values(m, BracketedArgs(a), env, w) == TreeValues(m, a, env, w)
    decreases a
  {
    BracketedArgsCanonical(a, env);
    if a.Arg? {
      BracketedIsFaithful(m, a.e, env, w);
      match TreeValue(m, a.e, env, w)
      case None =>
      case Some((x, w1)) => BracketedArgsFaithful(m, a.rest, env, w1);
    }
  }

  /** The exception: the code of `! - a + b` negates first and changes the sign
      afterwards, so it is not the postfix code. */
  lemma {:induction false} MixedPrefixRun(a: string, b: string, env: Env)
    requires a in env && env[a].ObjVar? && b in env && env[b].ObjVar?
    ensures var e := Infix(Add, false, Prefix(Not, Prefix(Sign, Name(a))), Name(b));
            Canonical(e, env) && Output(e, env) != Postfix(e, env) &&
            Emitted(e, env) == [Var(env[a].v)] + [Un(Not), Un(Sign)] + [] + [Var(env[b].v)]
  {
    var n, n' := Name(a), Name(b);
    var x := Prefix(Sign, n);
    var l := Prefix(Not, x);
    var e := Infix(Add, false, l, n');
    assert Canonical(n, env) && Canonical(n', env);
    assert Canonical(x, env);
    assert Canonical(l, env);
    assert Uns(n) == [] && Bins(l) == [];
    assert Uns(x) == [Un(Sign)];
    assert Uns(l) == [Un(Not), Un(Sign)];
    ReverseCons(Un(Not), [Un(Sign)]);
    assert Reverse(Uns(l))[1] == Un(Not);
    OutputIsPostfix(e, env);
    assert Emitted(n, env) == [Var(env[a].v)] && Emitted(n', env) == [Var(env[b].v)];
    assert Emitted(x, env) == Emitted(n, env);
    assert Emitted(l, env) == Emitted(x, env);
    assert Reverse([]) == [];
  }
}

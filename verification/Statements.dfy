/**
 Structured programs and what CompileBlock makes of them. Programs are lists of
 assignments to places and to elements, calls, returns, messages of the kinds
 `error`, `warning` and `info`, conditions, loops, `break` and `continue`; the
 reference translation works on the structure of the program alone.
 */
module Statements {
  import opened Wrappers
  import opened Lexemes
  import opened Initializers
  import opened Expressions
  import opened ExpressionTrees
  import opened ExpressionCompilation
  import opened IndexAssignments
  import opened Blocks

  datatype Stmt =
    | EmptyLine
    | Assignment(first: Place, more: seq<Place>, values: Args)
    | CallOnly(name: string, args: Args)
    | Returning(values: Args)
    | ElementSet(base: Place, index: Expr, value: Expr)
    | Raising(kind: Keyword, message: Expr)
    | BreakOut
    | NextTurn
    | Conditional(cond: Expr, body: Stmts)
    | Alternative(cond: Expr, body: Stmts, other: Stmts)
    | Loop(cond: Expr, body: Stmts)

  datatype Stmts = Done | Then(s: Stmt, rest: Stmts)

  // ----- the text of a program -----

  function PlaceTokens(xs: seq<Place>): seq<Lexeme> {
    if xs == [] then [] else [Comma, PlaceToken(xs[0])] + PlaceTokens(xs[1..])
  }

  function StmtText(s: Stmt): (t: seq<Lexeme>)
    ensures |t| > 0
    decreases s
  {
    match s
    case EmptyLine => [NewLine]
    case Assignment(x, xs, a) => [PlaceToken(x)] + (PlaceTokens(xs) + ([Equals] + (PrintArgs(a) + [NewLine])))
    case CallOnly(n, args) => Print(Apply(n, args)) + [NewLine]
    case Returning(a) => [Key(KwReturn)] + (PrintArgs(a) + [NewLine])
    case ElementSet(x, i, e) => SetText(x, i, e) + [NewLine]
    case Raising(k, e) => [Key(k)] + (Print(e) + [NewLine])
    case BreakOut => [Key(KwBreak), NewLine]
    case NextTurn => [Key(KwContinue), NewLine]
    case Conditional(c, body) => [Key(KwIf)] + (Print(c) + ([LCurly] + (StmtsText(body) + [RCurly, NewLine])))
    case Alternative(c, body, other) =>
      [Key(KwIf)] + (Print(c) + ([LCurly] + (StmtsText(body) + ([RCurly, Key(KwElse), LCurly] + (StmtsText(other) + [RCurly, NewLine])))))
    case Loop(c, body) => [Key(KwWhile)] + (Print(c) + ([LCurly] + (StmtsText(body) + [RCurly, NewLine])))
  }

  function StmtsText(ss: Stmts): seq<Lexeme>
    decreases ss
  {
    match ss case Done => [] case Then(s, rest) => StmtText(s) + StmtsText(rest)
  }

  // ----- which programs are covered -----

  predicate GoodArgs(a: Args, env: Env) {
    CanonicalArgs(a, env) && EvenRunsArgs(a) && BadCallArgs(a, env) == None
  }

  predicate GoodCond(e: Expr, env: Env) {
    GoodArgs(Arg(e, NoArg), env) && EndNoMap(e)
  }

  predicate GoodPlace(cx: Context, local: Env, x: Place) {
    match x
    case VarPlace(n) => n in local && local[n].ObjVar?
    case OuterPlace(n) => !IsSysVar(cx, n)
  }

  predicate GoodStmt(cx: Context, local: Env, s: Stmt)
    decreases s
  {
    var env := cx.vm + local;
    match s
    case Assignment(x, xs, a) =>
      GoodPlace(cx, local, x) && (forall k :: 0 <= k < |xs| ==> GoodPlace(cx, local, xs[k])) && GoodArgs(a, env)
    case CallOnly(n, args) => GoodArgs(Arg(Apply(n, args), NoArg), env)
    case Returning(a) => GoodArgs(a, env)
    case ElementSet(x, i, e) => KnownPlace(x, env) && GoodArgs(Arg(i, NoArg), env) && GoodArgs(Arg(e, NoArg), env)
    case Raising(k, e) => (k == KwError || k == KwWarning || k == KwInfo) && GoodArgs(Arg(e, NoArg), env)
    case Conditional(c, body) => GoodCond(c, env) && GoodStmts(cx, local, body)
    case Alternative(c, body, other) => GoodCond(c, env) && GoodStmts(cx, local, body) && GoodStmts(cx, local, other)
    case Loop(c, body) => GoodCond(c, env) && GoodStmts(cx, local, body)
    case _ => true
  }

  predicate GoodStmts(cx: Context, local: Env, ss: Stmts)
    decreases ss
  {
    ss.Done? || (GoodStmt(cx, local, ss.s) && GoodStmts(cx, local, ss.rest))
  }

  // ----- the reference translation -----

  function PlaceTarget(local: Env, x: Place): Target {
    match x
    case VarPlace(n) => if n in local && local[n].ObjVar? then ToVar(local[n].v) else ToExtend(n)
    case OuterPlace(n) => ToExtend(n)
  }

  function PlaceTargets(local: Env, xs: seq<Place>): seq<Target> {
    if xs == [] then [] else [PlaceTarget(local, xs[0])] + PlaceTargets(local, xs[1..])
  }

  /** Adds a child block to block `b`, behind code that refers to the child. */
  function Open(blocks: seq<Block>, b: nat, code: seq<Code>): (r: seq<Block>)
    requires b < |blocks|
    ensures |r| == |blocks| + 1
  {
    Emit(AddChild(blocks, b), b, code)
  }

  /** The blocks after the statement has been added to block `b`. */
  function Build(cx: Context, local: Env, s: Stmt, blocks: seq<Block>, b: nat): (r: seq<Block>)
    requires b < |blocks| && GoodStmt(cx, local, s)
    ensures |r| >= |blocks|
    decreases s
  {
    var env, n := cx.vm + local, |blocks|;
    match s
    case EmptyLine => blocks
    case Assignment(x, xs, a) =>
      Emit(blocks, b, [AssignVar([PlaceTarget(local, x)] + PlaceTargets(local, xs))] + PostfixArgs(a, env) + [Assign])
    case CallOnly(f, args) => Emit(blocks, b, Postfix(Apply(f, args), env))
    case Returning(a) => Emit(blocks, b, PostfixArgs(a, env) + [Return])
    case ElementSet(x, i, e) =>
      Emit(blocks, b, [ReadPlace(x, env)] + Postfix(i, env) + Postfix(e, env) + [SetIndex(ElementOf(x, env))])
    case Raising(k, e) => Emit(blocks, b, Postfix(e, env) + [ErrorCmd(k)])
    case BreakOut => Emit(blocks, b, [Break])
    case NextTurn => Emit(blocks, b, [Continue])
    case Conditional(c, body) => BuildAll(cx, local, body, Open(blocks, b, Postfix(c, env) + [If(n)]), n)
    case Alternative(c, body, other) =>
      var bs := BuildAll(cx, local, body, Open(blocks, b, Postfix(c, env) + [If(n)]), n);
      BuildAll(cx, local, other, Open(bs, b, [Else(|bs|)]), |bs|)
    case Loop(c, body) =>
      Emit(BuildAll(cx, local, body, Open(blocks, b, [Label] + Postfix(c, env) + [While(n)]), n), n, [Continue])
  }

  function BuildAll(cx: Context, local: Env, ss: Stmts, blocks: seq<Block>, b: nat): (r: seq<Block>)
    requires b < |blocks| && GoodStmts(cx, local, ss)
    ensures |r| >= |blocks|
    decreases ss
  {
    match ss case Done => blocks case Then(s, rest) => BuildAll(cx, local, rest, Build(cx, local, s, blocks, b), b)
  }

  // ----- what building leaves alone -----

  /** Links, names and headers are kept, and new blocks declare nothing. */
  predicate SameNames(a: seq<Block>, b: seq<Block>) {
    && |a| <= |b|
    && (forall k :: 0 <= k < |a| ==> b[k].parent == a[k].parent && b[k].objects == a[k].objects && b[k].info == a[k].info && b[k].vars == a[k].vars)
    && (forall k :: |a| <= k < |b| ==> b[k].objects == map[] && b[k].info == NoInfo)
  }

  lemma SameNamesChain(a: seq<Block>, b: seq<Block>, c: seq<Block>)
    requires SameNames(a, b) && SameNames(b, c)
    ensures SameNames(a, c)
  {
  }

  lemma {:induction false} BuildNames(cx: Context, local: Env, s: Stmt, blocks: seq<Block>, b: nat)
    requires b < |blocks| && GoodStmt(cx, local, s)
    ensures SameNames(blocks, Build(cx, local, s, blocks, b))
    decreases s
  {
    hide SameNames, GoodPlace, Postfix, PostfixArgs, PlaceTargets, Emit, Open;
    var env, n := cx.vm + local, |blocks|;
    match s {
      case EmptyLine => EmitNames(blocks, b, []);
      case Assignment(x, xs, a) =>
        EmitNames(blocks, b, [AssignVar([PlaceTarget(local, x)] + PlaceTargets(local, xs))] + PostfixArgs(a, env) + [Assign]);
      case CallOnly(f, args) => EmitNames(blocks, b, Postfix(Apply(f, args), env));
      case Returning(a) => EmitNames(blocks, b, PostfixArgs(a, env) + [Return]);
      case ElementSet(x, i, e) =>
        EmitNames(blocks, b, [ReadPlace(x, env)] + Postfix(i, env) + Postfix(e, env) + [SetIndex(ElementOf(x, env))]);
      case Raising(k, e) => EmitNames(blocks, b, Postfix(e, env) + [ErrorCmd(k)]);
      case BreakOut => EmitNames(blocks, b, [Break]);
      case NextTurn => EmitNames(blocks, b, [Continue]);
      case Conditional(c, body) => ChildNames(cx, local, body, blocks, b, Postfix(c, env) + [If(n)]);
      case Alternative(c, body, other) =>
        var bs := BuildAll(cx, local, body, Open(blocks, b, Postfix(c, env) + [If(n)]), n);
        ChildNames(cx, local, body, blocks, b, Postfix(c, env) + [If(n)]);
        ChildNames(cx, local, other, bs, b, [Else(|bs|)]);
        SameNamesChain(blocks, bs, Build(cx, local, s, blocks, b));
      case Loop(c, body) =>
        var bs := BuildAll(cx, local, body, Open(blocks, b, [Label] + Postfix(c, env) + [While(n)]), n);
        ChildNames(cx, local, body, blocks, b, [Label] + Postfix(c, env) + [While(n)]);
        EmitNames(bs, n, [Continue]);
        SameNamesChain(blocks, bs, Build(cx, local, s, blocks, b));
    }
  }

  lemma {:induction false} ChildNames(cx: Context, local: Env, ss: Stmts, blocks: seq<Block>, b: nat, code: seq<Code>)
    requires b < |blocks| && GoodStmts(cx, local, ss)
    ensures SameNames(blocks, BuildAll(cx, local, ss, Open(blocks, b, code), |blocks|))
    decreases ss, 1
  {
    hide SameNames;
    OpenNames(blocks, b, code);
    BuildAllNames(cx, local, ss, Open(blocks, b, code), |blocks|);
    SameNamesChain(blocks, Open(blocks, b, code), BuildAll(cx, local, ss, Open(blocks, b, code), |blocks|));
  }

  lemma {:induction false} BuildAllNames(cx: Context, local: Env, ss: Stmts, blocks: seq<Block>, b: nat)
    requires b < |blocks| && GoodStmts(cx, local, ss)
    ensures SameNames(blocks, BuildAll(cx, local, ss, blocks, b))
    decreases ss, 0
  {
    if ss.Then? {
      hide SameNames;
      var bs := Build(cx, local, ss.s, blocks, b);
      BuildNames(cx, local, ss.s, blocks, b);
      BuildAllNames(cx, local, ss.rest, bs, b);
      SameNamesChain(blocks, bs, BuildAll(cx, local, ss, blocks, b));
    }
  }

  lemma EmitNames(blocks: seq<Block>, b: nat, code: seq<Code>)
    requires b < |blocks|
    ensures SameNames(blocks, Emit(blocks, b, code)) && SameNames(blocks, blocks)
  {
  }

  lemma OpenNames(blocks: seq<Block>, b: nat, code: seq<Code>)
    requires b < |blocks|
    ensures SameNames(blocks, Open(blocks, b, code))
  {
  }

  function SetCode(blocks: seq<Block>, c: nat, code: seq<Code>): seq<Block>
    requires c < |blocks|
  {
    blocks[c := blocks[c].(code := code)]
  }

  /** Building in one block neither reads nor changes the code of another one. */
  predicate Apart(blocks: seq<Block>, c: nat, code: seq<Code>, r: seq<Block>, r': seq<Block>) {
    c < |blocks| <= |r| && r[c] == blocks[c] && r' == SetCode(r, c, code)
  }

  lemma EmitApart(blocks: seq<Block>, b: nat, c: nat, code: seq<Code>, e: seq<Code>)
    requires b < |blocks| && c < |blocks| && b != c
    ensures Apart(blocks, c, code, Emit(blocks, b, e), Emit(SetCode(blocks, c, code), b, e))
    ensures Apart(blocks, c, code, Open(blocks, b, e), Open(SetCode(blocks, c, code), b, e))
    ensures Apart(blocks, c, code, blocks, SetCode(blocks, c, code))
  {
  }

  lemma {:induction false} BuildApart(cx: Context, local: Env, s: Stmt, blocks: seq<Block>, b: nat, c: nat, code: seq<Code>)
    requires b < |blocks| && c < |blocks| && b != c && GoodStmt(cx, local, s)
    ensures Apart(blocks, c, code, Build(cx, local, s, blocks, b), Build(cx, local, s, SetCode(blocks, c, code), b))
    decreases s
  {
    hide Apart, GoodPlace, Postfix, PostfixArgs, PlaceTargets, Emit, Open;
    var env, n := cx.vm + local, |blocks|;
    match s {
      case EmptyLine => EmitApart(blocks, b, c, code, []);
      case Assignment(x, xs, a) =>
        EmitApart(blocks, b, c, code, [AssignVar([PlaceTarget(local, x)] + PlaceTargets(local, xs))] + PostfixArgs(a, env) + [Assign]);
      case CallOnly(f, args) => EmitApart(blocks, b, c, code, Postfix(Apply(f, args), env));
      case Returning(a) => EmitApart(blocks, b, c, code, PostfixArgs(a, env) + [Return]);
      case ElementSet(x, i, e) =>
        EmitApart(blocks, b, c, code, [ReadPlace(x, env)] + Postfix(i, env) + Postfix(e, env) + [SetIndex(ElementOf(x, env))]);
      case Raising(k, e) => EmitApart(blocks, b, c, code, Postfix(e, env) + [ErrorCmd(k)]);
      case BreakOut => EmitApart(blocks, b, c, code, [Break]);
      case NextTurn => EmitApart(blocks, b, c, code, [Continue]);
      case Conditional(e, body) => ChildApart(cx, local, body, blocks, b, Postfix(e, env) + [If(n)], c, code);
      case Alternative(e, body, other) =>
        var bs := BuildAll(cx, local, body, Open(blocks, b, Postfix(e, env) + [If(n)]), n);
        ChildApart(cx, local, body, blocks, b, Postfix(e, env) + [If(n)], c, code);
        ChildApart(cx, local, other, bs, b, [Else(|bs|)], c, code);
        ApartChainOf(blocks, c, code, bs, Build(cx, local, s, blocks, b), Build(cx, local, s, SetCode(blocks, c, code), b));
      case Loop(e, body) =>
        var bs := BuildAll(cx, local, body, Open(blocks, b, [Label] + Postfix(e, env) + [While(n)]), n);
        ChildApart(cx, local, body, blocks, b, [Label] + Postfix(e, env) + [While(n)], c, code);
        EmitApart(bs, n, c, code, [Continue]);
        ApartChainOf(blocks, c, code, bs, Build(cx, local, s, blocks, b), Build(cx, local, s, SetCode(blocks, c, code), b));
    }
  }

  lemma ApartChainOf(blocks: seq<Block>, c: nat, code: seq<Code>, bs: seq<Block>, r: seq<Block>, r': seq<Block>)
    requires c < |blocks| <= |bs| && bs[c] == blocks[c] && Apart(bs, c, code, r, r')
    ensures Apart(blocks, c, code, r, r')
  {
  }

  lemma {:induction false} ChildApart(cx: Context, local: Env, ss: Stmts, blocks: seq<Block>, b: nat, e: seq<Code>, c: nat, code: seq<Code>)
    requires b < |blocks| && c < |blocks| && b != c && GoodStmts(cx, local, ss)
    ensures var r, r' := BuildAll(cx, local, ss, Open(blocks, b, e), |blocks|),
                         BuildAll(cx, local, ss, Open(SetCode(blocks, c, code), b, e), |blocks|);
            Apart(blocks, c, code, r, r') && |blocks| <= |r| && r[c] == blocks[c] && r' == SetCode(r, c, code)
    decreases ss, 1
  {
    hide Open, BuildAll;
    EmitApart(blocks, b, c, code, e);
    BuildAllApart(cx, local, ss, Open(blocks, b, e), |blocks|, c, code);
  }

  lemma {:induction false} BuildAllApart(cx: Context, local: Env, ss: Stmts, blocks: seq<Block>, b: nat, c: nat, code: seq<Code>)
    requires b < |blocks| && c < |blocks| && b != c && GoodStmts(cx, local, ss)
    ensures Apart(blocks, c, code, BuildAll(cx, local, ss, blocks, b), BuildAll(cx, local, ss, SetCode(blocks, c, code), b))
    decreases ss, 0
  {
    if ss.Then? {
      var bs := Build(cx, local, ss.s, blocks, b);
      BuildApart(cx, local, ss.s, blocks, b, c, code);
      BuildAllApart(cx, local, ss.rest, bs, b, c, code);
    }
  }

  // ----- names stay visible -----

  /** Entries lead to blocks that exist. */
  predicate Closed(blocks: seq<Block>) {
    forall b, n :: 0 <= b < |blocks| && n in blocks[b].objects && blocks[b].objects[n].FuncEntry? ==>
      blocks[b].objects[n].block < |blocks|
  }

  lemma VisibleKept(a: seq<Block>, b: seq<Block>, k: nat)
    requires SameNames(a, b) && Closed(a) && k < |a|
    ensures Visible(b, k) == Visible(a, k)
  {
    assert forall n :: n in a[k].objects ==> ObjectOf(a, k, n, a[k].objects[n]) == ObjectOf(b, k, n, b[k].objects[n]);
  }

  lemma {:induction false} NamesKept(a: seq<Block>, b: seq<Block>, bstack: seq<nat>)
    requires SameNames(a, b) && Closed(a) && Nested(a, bstack)
    ensures Nested(b, bstack) && Local(b, bstack) == Local(a, bstack) && Closed(b)
    decreases |bstack|
  {
    hide Visible;
    VisibleKept(a, b, Top(bstack));
    if |bstack| > 1 { NamesKept(a, b, bstack[..|bstack| - 1]); }
  }
}

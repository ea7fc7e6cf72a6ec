/**
 Functions that declare a result and end without `return`. The compiler accepts
 them; their calls leave fewer values than declared, and the caller then takes
 whatever lies on the stack.
 */
module MissingReturns {
  import opened Wrappers
  import opened Lexemes
  import opened Expressions
  import opened ExpressionTrees
  import opened ExpressionCompilation
  import opened StackMachine
  import opened Blocks
  import opened IndexAssignments
  import opened Statements
  import opened Programs
  import opened ProgramMeaning
  import opened Declarations
  import opened CompiledTexts
  import opened Calls
  import opened TextPrograms
  import opened WholePrograms
  import opened TextSequences

  // ----- a text -----

  /** `func f() int { }` */
  function Silent(): FuncDecl {
    FuncDecl("f", [], false, false, ["int"], [], Done)
  }

  /** `x = f()` and `return x` */
  function TakerBody(): Stmts {
    Then(Assignment(VarPlace("x"), [], Arg(Apply("f", NoArg), NoArg)), Then(Returning(Arg(Name("x"), NoArg)), Done))
  }

  /** `func g(p int) int { var x int` and the body above */
  function Taker(): FuncDecl {
    FuncDecl("g", [Typing("p", "int")], false, false, ["int"], [Typing("x", "int")], TakerBody())
  }

  function Pair(): seq<Unit> {
    [OneFunc(Silent()), OneFunc(Taker())]
  }

  const F: Func := Func("f", 1, 0, 1, false, false, None)

  const G: Func := Func("g", 2, 1, 1, false, false, None)

  const X: VarRef := VarRef(2, 1)

  /** The names in the body of `g`. */
  predicate TakerNames(local: Env) {
    && "f" in local && local["f"] == ObjFunc(F)
    && "x" in local && local["x"] == ObjVar(X)
  }

  lemma HeadsOf()
    ensures HeadBlock(Silent(), 0).objects == map[]
    ensures HeadBlock(Silent(), 0).info == FuncInfo("f", [], ["int"], false)
    ensures HeadBlock(Taker(), 0).objects == map["p" := VarEntry(0), "x" := VarEntry(1)]
  {
    var b := EmptyBlock(Some(0)).(info := FuncInfo("f", [], [], false));
    assert DeclaredAll(b, [], true) == b;
    var t := EmptyBlock(Some(0)).(info := FuncInfo("g", [], [], false));
    var p, x := Typing("p", "int"), Typing("x", "int");
    assert [p][1..] == [] && [x][1..] == [];
    assert DeclaredAll(t, [p], true) == Declared(t, p, true);
    var t1 := WithResults(Declared(t, p, true), ["int"]);
    assert DeclaredAll(t1, [x], false) == Declared(t1, x, false);
  }

  lemma {:induction false} SilentGood(cx: Context)
    ensures Nested(ROOT, [0]) && GoodFunc(cx, Silent(), ROOT, [0])
    ensures BuildFunc(cx, Silent(), ROOT, [0]) == OpenFunc(Silent(), ROOT, 0)
  {
    hide HeadBlock;
    assert Nested(ROOT, [0]);
  }

  lemma {:induction false} TakerSees(blocks: seq<Block>)
    requires Nested(ROOT, [0]) && blocks == OpenFunc(Silent(), ROOT, 0) && Nested(blocks, [0])
    ensures Nested(OpenFunc(Taker(), blocks, 0), [0, 2]) && TakerNames(Local(OpenFunc(Taker(), blocks, 0), [0, 2]))
  {
    hide HeadBlock;
    HeadsOf();
    OpenNested(Taker(), blocks, [0]);
    var o := OpenFunc(Taker(), blocks, 0);
    assert [0] + [2] == [0, 2] && [0, 2][..1] == [0];
    assert o[1] == HeadBlock(Silent(), 0) && o[2] == HeadBlock(Taker(), 0);
    assert Local(o, [0]) == Visible(o, 0);
    assert o[0].objects == map["f" := FuncEntry(1), "g" := FuncEntry(2)];
    assert "f" !in o[2].objects;
  }

  lemma {:induction false} TakerBodyGood(cx: Context, local: Env)
    requires TakerNames(local)
    ensures GoodStmts(cx, local, TakerBody()) && RunnableAll(cx, local, TakerBody())
  {
    var env := cx.vm + local;
    var call, name := Apply("f", NoArg), Name("x");
    assert Canonical(call, env) && Canonical(name, env);
    assert BadCallArgs(Arg(call, NoArg), env) == None && BadCallArgs(Arg(name, NoArg), env) == None;
    assert EvenRunsArgs(Arg(call, NoArg)) && EvenRunsArgs(Arg(name, NoArg));
    assert Width(Arg(call, NoArg), env) == 1;
    assert GoodStmt(cx, local, TakerBody().s);
    assert GoodStmt(cx, local, TakerBody().rest.s);
  }

  /** The text is one that CompileBlock accepts, and its listing has `f` in block 1 and `g` in block 2. */
  lemma {:induction false} PairGood(cx: Context)
    ensures GoodUnits(cx, Pair(), ROOT)
    ensures var ls := ListingOf(cx, Pair());
            1 in ls && ls[1].d == Silent() && 2 in ls && ls[2].d == Taker() && TakerNames(ls[2].local)
  {
    hide HeadBlock, GoodStmts, Local, BuildAll;
    SilentGood(cx);
    var s1 := BuildFunc(cx, Silent(), ROOT, [0]);
    TakerSees(s1);
    OpenNested(Taker(), s1, [0]);
    assert [0] + [2] == [0, 2];
    var local := FuncLocal(Taker(), s1, [0]);
    TakerBodyGood(cx, local);
    assert GoodFunc(cx, Taker(), s1, [0]);
    var us := Pair();
    assert us[1..] == [OneFunc(Taker())] && us[1..][1..] == [];
    var s2 := BuildFunc(cx, Taker(), s1, [0]);
    assert GoodUnits(cx, [], s2);
    assert GoodUnits(cx, us[1..], s1);
    assert UnitsListing(cx, us[1..], s1, FuncListing(cx, Silent(), ROOT, [0], map[])) ==
           FuncListing(cx, Taker(), s1, [0], FuncListing(cx, Silent(), ROOT, [0], map[]));
  }

  // ----- its blocks -----

  /** What the compiler makes of the text: an empty block for `f`. */
  predicate PairBlocks(blocks: seq<Block>) {
    && |blocks| > 2 && HeadOf(blocks[1], Silent()) && HeadOf(blocks[2], Taker())
    && blocks[1].code == []
    && blocks[2].code == [AssignVar([ToVar(X)]), Call(F), Assign, Var(X), Return]
  }

  lemma {:induction false} TakerCode(cx: Context, local: Env, blocks: seq<Block>)
    requires TakerNames(local) && GoodStmts(cx, local, TakerBody()) && Holds(cx, local, blocks, 0, 2, TakerBody(), false)
    ensures |blocks| > 2 && blocks[2].code == [AssignVar([ToVar(X)]), Call(F), Assign, Var(X), Return]
  {
    hide CodeAt;
    var env, code := cx.vm + local, blocks[2].code;
    var call, name, ss := Apply("f", NoArg), Name("x"), TakerBody();
    assert Canonical(call, env) && Canonical(name, env);
    assert PostfixArgs(Arg(call, NoArg), env) == [Call(F)];
    assert PostfixArgs(Arg(name, NoArg), env) == [Var(X)];
    assert PlaceTargets(local, []) == [];
    assert StmtTargets(local, ss.s) == [ToVar(X)];
    assert Stands(cx, local, blocks, 2, 0, ss.s);
    assert CodeAt(code, 0, [AssignVar([ToVar(X)])] + [Call(F)] + [Assign]);
    assert CodeLen(cx, local, ss.s) == 3;
    assert Implements(cx, local, blocks, 2, 3, ss.rest);
    assert Stands(cx, local, blocks, 2, 3, ss.rest.s);
    assert CodeAt(code, 3, [Var(X)] + [Return]);
    assert CodeLen(cx, local, ss.rest.s) == 2;
    assert CodeLenAll(cx, local, ss.rest) == 2;
    TakerParts(code);
  }

  lemma TakerParts(code: seq<Code>)
    requires CodeAt(code, 0, [AssignVar([ToVar(X)])] + [Call(F)] + [Assign]) && CodeAt(code, 3, [Var(X)] + [Return]) && |code| == 5
    ensures code == [AssignVar([ToVar(X)]), Call(F), Assign, Var(X), Return]
  {
    assert code == code[0..3] + code[3..5];
  }

  /** The text by itself, compiled for the state of the context. */
  function Alone(cx: Context): seq<Source> {
    [Source(cx.state, Pair())]
  }

  lemma {:induction false} AloneGood(cx: Context)
    ensures GoodTexts(cx, Alone(cx)) && GoodUnits(cx, Pair(), ROOT)
    ensures TextsOf(cx, Alone(cx)) == [BuildUnits(cx, Pair(), ROOT)]
    ensures ProgramOf(cx, Alone(cx)).bodies == [Bodies(cx, Pair())]
    ensures CompiledTo(cx, Pair(), BuildUnits(cx, Pair(), ROOT))
  {
    hide GoodUnits, BuildUnits, Bodies, UnitsRoot, Compile, Valid, UnitsText;
    PairGood(cx);
    var xs := Alone(cx);
    assert xs[..0] == [] && GoodTexts(cx, []);
    assert Behind(cx, [], cx.state) == cx;
    TextCompiles(cx, Pair());
  }

  lemma {:induction false} PairCompiles(cx: Context)
    requires GoodUnits(cx, Pair(), ROOT)
    ensures PairBlocks(BuildUnits(cx, Pair(), ROOT))
  {
    hide BuildUnits, GoodUnits, ListingOf, HeadOf, Implements, OwnNames, GoodStmts, TakerNames;
    PairGood(cx);
    TextLoads(cx, Pair());
    var blocks, ls := BuildUnits(cx, Pair(), ROOT), ListingOf(cx, Pair());
    assert BodyAt(cx, blocks, ls, 1) && BodyAt(cx, blocks, ls, 2);
    TakerCode(cx, ls[2].local, blocks);
  }

  // ----- its calls -----

  lemma CalleeAlone(roots: Roots, f: Func)
    requires |roots| == 1 && f.home.None?
    ensures Callee(roots, 0, f) == Home(0, f.block)
  {
  }

  /** A call of `f` answers nothing, although `f` declares a result. */
  lemma {:induction false} SilentAnswers<V(!new), H(!new)>(h: Host<V, H>, blocks: seq<Block>, depth: nat, fuel: nat, w: World<V, H>)
    requires PairBlocks(blocks) && depth > 0
    ensures F.results == 1 && FuncOf(blocks, "f", 1) == F
    ensures MachineCall(h, [blocks], 0, depth, fuel, F, [], w) == Some(([], w))
  {
    hide MachineSem, Callee, RootsOf;
    var m, w1 := MachineSem(h, [blocks], 0, depth - 1, fuel), Entered(h, [blocks], Home(0, 1), [], w);
    assert Types([]) == [];
    CalleeAlone(RootsOf([blocks]), F);
    ProgramMeaning.EndStep(m, blocks, 1, Frame(0, 0, [], [], []), w1, fuel);
    assert CallBlock(m, blocks, 1, 1, [], [], w1, fuel) == Exit(AtNormal, [], w1, fuel);
    assert w1.frames[..|w1.frames| - 1] == w.frames;
  }

  /** The world in which `g` has stored `y` in its variable. */
  function Took<V, H>(w: World<V, H>, v: V, y: V): World<V, H> {
    w.(frames := w.frames + [Vars(Home(0, 2), [v, y])])
  }

  lemma {:induction false} TakerStores<V(!new), H(!new)>(h: Host<V, H>, blocks: seq<Block>, depth: nat, fuel: nat, v: V, y: V, w: World<V, H>)
    requires PairBlocks(blocks) && h.convert(X, v) == Some(y)
    ensures var m, w1 := MachineSem(h, [blocks], 0, depth, fuel), Entered(h, [blocks], Home(0, 2), [v], w);
            AssignAll(m, [ToVar(X)], [v], w1) == Some(Took(w, v, y)) && m.variable(X, Took(w, v, y)) == Some(y)
  {
    hide MachineCall, Find;
    var m, w1 := MachineSem(h, [blocks], 0, depth, fuel), Entered(h, [blocks], Home(0, 2), [v], w);
    assert Types(Taker().params) == [Some("int")] && Types(Taker().locals) == [Some("int")];
    assert blocks[2].vars == [Some("int"), Some("int")];
    assert Starting(h, blocks[2].vars, [v]) == [v, h.initial("int")];
    EnteredRuns(h, [blocks], Home(0, 2), [v], w);
    FindTop(w1, Home(0, 2), w.frames);
    FindTop(Took(w, v, y), Home(0, 2), w.frames);
    assert [v, h.initial("int")][1 := y] == [v, y];
    assert w1.frames[|w.frames| := Vars(Home(0, 2), [v, y])] == Took(w, v, y).frames;
    assert Write(h, 0, ToVar(X), v, w1) == Some(Took(w, v, y));
    assert AssignAll(m, [], [], Took(w, v, y)) == Some(Took(w, v, y));
  }

  lemma {:induction false} TakerRuns<V(!new), H(!new)>(m: Semantics<V, World<V, H>>, blocks: seq<Block>, fuel: nat, v: V, y: V, w1: World<V, H>, w2: World<V, H>)
    requires PairBlocks(blocks) && m.call(F, [], w1) == Some(([], w1))
    requires AssignAll(m, [ToVar(X)], [v], w1) == Some(w2) && m.variable(X, w2) == Some(y)
    ensures RunFrom(m, blocks, 2, Frame(1, 0, [v], [], []), w1, fuel) == Exit(AtReturn, [v, y], w2, fuel)
  {
    hide RunFrom, AssignAll, HeadOf;
    var f0 := Frame(1, 0, [v], [], []);
    AssignVarStep(m, blocks, 2, f0, w1, fuel);
    var f1 := Frame(1, 1, [v], [], [ToVar(X)]);
    assert [v][1..] == [] && [v][..1] + [] == [v];
    PlainStep(m, blocks, 2, f1, w1, fuel);
    var f2 := f1.(ci := 2);
    AssignStep(m, blocks, 2, f2, [], [v], w1, fuel);
    var f3 := f1.(ci := 3);
    PlainStep(m, blocks, 2, f3, w2, fuel);
    assert [v] + [y] == [v, y];
    JumpStep(m, blocks, 2, f1.(ci := 4, stack := [v, y]), w2, fuel);
  }

  /** The caller takes its own argument for the result of `f`. */
  lemma {:induction false} TakerAnswers<V(!new), H(!new)>(h: Host<V, H>, blocks: seq<Block>, depth: nat, fuel: nat, v: V, y: V, w: World<V, H>)
    requires PairBlocks(blocks) && depth > 1 && h.takes("int", v) && h.convert(X, v) == Some(y)
    ensures MachineCall(h, [blocks], 0, depth, fuel, G, [v], w) == Some(([y], w))
  {
    hide MachineSem, RunFrom, Callee, RootsOf;
    var m, w1, w2 := MachineSem(h, [blocks], 0, depth - 1, fuel), Entered(h, [blocks], Home(0, 2), [v], w), Took(w, v, y);
    CalleeAlone(RootsOf([blocks]), G);
    TakerStores(h, blocks, depth - 1, fuel, v, y, w);
    SilentAnswers(h, blocks, depth - 1, fuel, w1);
    CallOf(h, [blocks], depth - 1, fuel, F, [], w1);
    TakerRuns(m, blocks, fuel, v, y, w1, w2);
    assert Types(Taker().params) == [Some("int")];
    assert [] + [v] == [v];
    CopiedDown([v, y], 0, 1);
    assert [v, y][1..] == [y];
    assert CallBlock(m, blocks, 2, 1, [], [v], w1, fuel) == Exit(AtNormal, [y], w2, fuel);
    assert w2.frames[..|w2.frames| - 1] == w.frames;
  }

  lemma CallOf<V, H>(h: Host<V, H>, texts: Texts, depth: nat, fuel: nat, f: Func, args: seq<V>, w: World<V, H>)
    ensures MachineSem(h, texts, 0, depth, fuel).call(f, args, w) == MachineCall(h, texts, 0, depth, fuel, f, args, w)
  {
    hide MachineCall;
  }

  /** The program of the text, wherever it comes from. */
  ghost predicate PairProgram(prog: Program) {
    && |prog.roots| == 1 && prog.Has(Home(0, 1)) && prog.Has(Home(0, 2))
    && prog.At(Home(0, 1)).d == Silent() && prog.At(Home(0, 2)).d == Taker() && TakerNames(prog.At(Home(0, 2)).local)
  }

  /** In the source the assignment has no value to assign. */
  lemma {:induction false} TakerMeansNothing<V(!new), H(!new)>(h: Host<V, H>, prog: Program, depth: nat, fuel: nat, v: V, w: World<V, H>)
    requires PairProgram(prog)
    ensures SourceCall(h, prog, 0, depth, fuel, G, [v], w) == None
  {
    hide Takes, RunnableAll, Callee, TakerNames, SourceSem;
    CalleeAlone(prog.roots, G);
    BoundPlain(h, Taker().params, [v]);
    if depth > 0 {
      var p, w1 := prog.At(Home(0, 2)), w.(frames := w.frames + [Vars(Home(0, 2), [v] + Initials(h, Taker().locals))]);
      if RunnableAll(p.cx, p.local, TakerBody()) { TakerFails(h, p.cx, prog, depth - 1, fuel, p.local, w1); }
    }
  }

  lemma {:induction false} TakerFails<V(!new), H(!new)>(h: Host<V, H>, cx: Context, prog: Program, depth: nat, fuel: nat, local: Env, w: World<V, H>)
    requires PairProgram(prog) && TakerNames(local) && RunnableAll(cx, local, TakerBody())
    ensures StmtsMeaning(SourceSem(h, prog, 0, depth, fuel), cx, local, TakerBody(), w, fuel) == Fails
  {
    hide RunnableAll, Takes;
    var m, call, env := SourceSem(h, prog, 0, depth, fuel), Apply("f", NoArg), cx.vm + local;
    SilentMeans(h, prog, depth, fuel, w);
    assert Values(m, NoArg, env, w) == Some(([], w));
    assert Results(m, call, env, w) == m.call(F, [], w);
    assert StmtMeaning(m, cx, local, TakerBody().s, w, fuel) == Fails;
  }

  lemma {:induction false} SilentMeans<V(!new), H(!new)>(h: Host<V, H>, prog: Program, depth: nat, fuel: nat, w: World<V, H>)
    requires PairProgram(prog)
    ensures var r := SourceSem(h, prog, 0, depth, fuel).call(F, [], w); r.Some? ==> r.value.0 == []
  {
    hide Callee;
    CalleeAlone(prog.roots, F);
  }

  /** `f` and `g` after compilation: `f` leaves no value although it declares one, and
      the call of `g`, which means nothing in the source, answers with the argument of `g`. */
  lemma {:induction false} FallingThrough<V(!new), H(!new)>(h: Host<V, H>, cx: Context, depth: nat, fuel: nat, v: V, y: V, w: World<V, H>)
    requires depth > 1 && h.takes("int", v) && h.convert(X, v) == Some(y)
    ensures GoodTexts(cx, Alone(cx)) && |TextsOf(cx, Alone(cx))| == 1 && CompiledTo(cx, Pair(), TextsOf(cx, Alone(cx))[0])
    ensures var texts := TextsOf(cx, Alone(cx));
            && FuncOf(texts[0], "f", 1) == F && F.results == 1
            && MachineCall(h, texts, 0, depth, fuel, F, [], w) == Some(([], w))
            && FuncOf(texts[0], "g", 2) == G
            && MachineCall(h, texts, 0, depth, fuel, G, [v], w) == Some(([y], w))
            && SourceCall(h, ProgramOf(cx, Alone(cx)), 0, depth, fuel, G, [v], w) == None
  {
    hide CompiledTo, GoodUnits, BuildUnits, MachineCall, SourceCall, ListingOf, TakerNames;
    PairGood(cx);
    AloneGood(cx);
    PairCompiles(cx);
    var blocks := BuildUnits(cx, Pair(), ROOT);
    SilentAnswers(h, blocks, depth, fuel, w);
    TakerAnswers(h, blocks, depth, fuel, v, y, w);
    assert PairProgram(ProgramOf(cx, Alone(cx)));
    TakerMeansNothing(h, ProgramOf(cx, Alone(cx)), depth, fuel, v, w);
    assert Types(Taker().params) == [Some("int")];
  }

  // ----- the condition that can be checked before a call -----

  /** `if c { return a }` and `if c { } else { return a }` */
  function Twice(c: Expr, a: Args): Stmts {
    Then(Conditional(c, Then(Returning(a), Done)), Then(Alternative(c, Done, Then(Returning(a), Done)), Done))
  }

  lemma {:induction false} TwiceRunnable(cx: Context, local: Env, n: string, k: Const)
    requires n in local && local[n].ObjVar?
    ensures var ss := Twice(Name(n), Arg(Atom(k), NoArg));
            RunnableAll(cx, local, ss) && RunnableAll(cx, local, ss.rest) && RunnableAll(cx, local, ss.s.body)
  {
    var c, a, env := Name(n), Arg(Atom(k), NoArg), cx.vm + local;
    assert BadCall(Atom(k), env) == None && BadCall(c, env) == None && BadCallArgs(NoArg, env) == None;
    assert EvenRuns(Atom(k)) && EvenRuns(c) && EvenRunsArgs(NoArg) && EndNoMap(c);
    assert FitsAlone(Atom(k), env) && FitsList(NoArg, env) && Fits(c, env);
    assert Canonical(c, env) && Canonical(Atom(k), env) && CanonicalArgs(NoArg, env);
    OneGood(Atom(k), env);
    OneGood(c, env);
    ReturnRunnable(cx, local, a);
    BranchesRunnable(cx, local, c, Then(Returning(a), Done));
  }

  lemma OneGood(e: Expr, env: Env)
    requires Canonical(e, env) && EvenRuns(e) && BadCall(e, env) == None
    ensures GoodArgs(Arg(e, NoArg), env)
  {
    hide Canonical, EvenRuns, BadCall;
    assert CanonicalArgs(NoArg, env) && EvenRunsArgs(NoArg) && BadCallArgs(NoArg, env) == None;
  }

  lemma {:induction false} ReturnRunnable(cx: Context, local: Env, a: Args)
    requires GoodArgs(a, cx.vm + local) && FitsList(a, cx.vm + local)
    ensures GoodStmts(cx, local, Then(Returning(a), Done)) && RunnableAll(cx, local, Then(Returning(a), Done))
  {
    hide GoodArgs, FitsList;
    assert Runnable(cx, local, Returning(a)) && RunnableAll(cx, local, Done);
  }

  lemma {:induction false} BranchesRunnable(cx: Context, local: Env, c: Expr, ret: Stmts)
    requires GoodCond(c, cx.vm + local) && Fits(c, cx.vm + local) && GoodStmts(cx, local, ret) && RunnableAll(cx, local, ret)
    ensures RunnableAll(cx, local, Then(Alternative(c, Done, ret), Done))
    ensures RunnableAll(cx, local, Then(Conditional(c, ret), Then(Alternative(c, Done, ret), Done)))
  {
    hide GoodCond, Fits;
    assert GoodStmts(cx, local, Done) && RunnableAll(cx, local, Done);
    assert Runnable(cx, local, Conditional(c, ret)) && Runnable(cx, local, Alternative(c, Done, ret));
    assert RunnableAll(cx, local, Then(Alternative(c, Done, ret), Done));
  }

  lemma {:induction false} ReturnEnds<V(!new), W(!new)>(m: Semantics<V, W>, cx: Context, local: Env, a: Args, w: W, fuel: nat)
    requires RunnableAll(cx, local, Then(Returning(a), Done))
    ensures var r := StmtsMeaning(m, cx, local, Then(Returning(a), Done), w, fuel); !(r.Ends? && r.how.Normally?)
  {
    hide Spread, FitsList;
    assert Runnable(cx, local, Returning(a));
  }

  lemma {:induction false} BranchesMean<V(!new), W(!new)>(m: Semantics<V, W>, cx: Context, local: Env, n: string, ret: Stmts, w: W, fuel: nat)
    requires n in local && local[n].ObjVar? && RunnableAll(cx, local, ret)
    requires RunnableAll(cx, local, Then(Conditional(Name(n), ret), Then(Alternative(Name(n), Done, ret), Done)))
    requires var r := StmtsMeaning(m, cx, local, ret, w, fuel); !(r.Ends? && r.how.Normally?)
    ensures var r := StmtsMeaning(m, cx, local, Then(Conditional(Name(n), ret), Then(Alternative(Name(n), Done, ret), Done)), w, fuel);
            !(r.Ends? && r.how.Normally?)
  {
    hide GoodCond, GoodStmts;
    var s1, s2 := Conditional(Name(n), ret), Alternative(Name(n), Done, ret);
    assert Runnable(cx, local, s1) && RunnableAll(cx, local, Then(s2, Done)) && Runnable(cx, local, s2);
    var v := m.variable((cx.vm + local)[n].v, w);
    assert Value(m, Name(n), cx.vm + local, w) == With(v, w);
    if v.Some? && !m.truth(v.value) {
      assert StmtMeaning(m, cx, local, s1, w, fuel) == Ends(Normally, w, fuel);
      assert StmtMeaning(m, cx, local, s2, w, fuel) == StmtsMeaning(m, cx, local, ret, w, fuel);
    }
  }

  /** `AlwaysReturns` is sufficient (`StmtsEndWell`) and not necessary: two conditions
      of one value cover all cases where the form of the statements does not show it. */
  lemma {:induction false} FormIsNotNecessary<V(!new), W(!new)>(m: Semantics<V, W>, cx: Context, local: Env, n: string, k: Const, w: W, fuel: nat)
    requires n in local && local[n].ObjVar?
    ensures var ss := Twice(Name(n), Arg(Atom(k), NoArg));
            && RunnableAll(cx, local, ss) && !AlwaysReturns(ss)
            && var r := StmtsMeaning(m, cx, local, ss, w, fuel); !(r.Ends? && r.how.Normally?)
  {
    hide RunnableAll, StmtsMeaning;
    var c, a := Name(n), Arg(Atom(k), NoArg);
    var ret := Then(Returning(a), Done);
    TwiceRunnable(cx, local, n, k);
    assert !AlwaysReturns(Done) && !Definite(Alternative(c, Done, ret)) && !AlwaysReturns(Then(Alternative(c, Done, ret), Done));
    ReturnEnds(m, cx, local, a, w, fuel);
    BranchesMean(m, cx, local, n, ret, w, fuel);
  }
}

/**
 A function that is defined three times. The callers of the first definition run
 the second one, also after the third has been loaded.
 */
module RedefinedFunctions {
  import opened Wrappers
  import opened Lexemes
  import opened Expressions
  import opened ExpressionTrees
  import opened ExpressionCompilation
  import opened StackMachine
  import opened Blocks
  import opened IndexAssignments
  import opened Statements
  import opened Programs
  import opened Declarations
  import opened CompiledTexts
  import opened Calls
  import opened TextPrograms
  import opened WholePrograms
  import opened TextSequences

  /** `return` with the given expression. */
  function Answer(e: Expr): Stmts {
    Then(Returning(Arg(e, NoArg)), Done)
  }

  /** `func f() int { return k }` */
  function Version(k: int): FuncDecl {
    FuncDecl("f", [], false, false, ["int"], [], Answer(Atom(Num(k))))
  }

  /** `func g() int { return f() }` */
  function Caller(): FuncDecl {
    FuncDecl("g", [], false, false, ["int"], [], Answer(Apply("f", NoArg)))
  }

  function Texts3(state: string): seq<Source> {
    [Source(state, [OneFunc(Version(1)), OneFunc(Caller())]), Source(state, [OneFunc(Version(2))]), Source(state, [OneFunc(Version(3))])]
  }

  const F: Func := Func("f", 1, 0, 1, false, false, None)

  const G: Func := Func("g", 2, 0, 1, false, false, None)

  // ----- the texts -----

  lemma {:induction false} AnswerGood(cx: Context, local: Env, e: Expr)
    requires Canonical(e, cx.vm + local) && EvenRuns(e) && BadCall(e, cx.vm + local) == None
    requires FitsAlone(e, cx.vm + local) && ResultCount(e, cx.vm + local) == 1
    ensures var ss := Answer(e); RunnableAll(cx, local, ss) && GoodStmts(cx, local, ss) && Disciplined(cx, local, ss, 1)
  {
    hide Canonical, EvenRuns, BadCall, FitsAlone, ResultCount;
    var a, env := Arg(e, NoArg), cx.vm + local;
    assert CanonicalArgs(NoArg, env) && BadCallArgs(NoArg, env) == None && EvenRunsArgs(NoArg) && FitsList(NoArg, env) && Width(NoArg, env) == 0;
    assert GoodArgs(a, env) && FitsList(a, env) && Width(a, env) == 1;
    assert GoodStmt(cx, local, Returning(a)) && Runnable(cx, local, Returning(a));
    assert RunnableAll(cx, local, Done) && GoodStmts(cx, local, Done);
    assert WidthsIn(cx, local, Returning(a), 1) && Widths(cx, local, Done, 1);
    assert Widths(cx, local, Answer(e), 1) && NoStray(Answer(e)) && AlwaysReturns(Answer(e));
  }

  lemma {:induction false} NumberGood(cx: Context, local: Env, k: int)
    ensures var ss := Version(k).body; RunnableAll(cx, local, ss) && GoodStmts(cx, local, ss) && Disciplined(cx, local, ss, 1)
  {
    AnswerGood(cx, local, Atom(Num(k)));
  }

  lemma {:induction false} CallerGood(cx: Context, local: Env)
    requires "f" in local && local["f"] == ObjFunc(F)
    ensures var ss := Caller().body; RunnableAll(cx, local, ss) && GoodStmts(cx, local, ss) && Disciplined(cx, local, ss, 1)
  {
    var env := cx.vm + local;
    assert CanonicalArgs(NoArg, env) && BadCallArgs(NoArg, env) == None && FitsArgs(NoArg, env) && Count(NoArg) == 0;
    AnswerGood(cx, local, Apply("f", NoArg));
  }

  lemma {:induction false} VersionGood(cx: Context, k: int)
    ensures Nested(ROOT, [0]) && GoodFunc(cx, Version(k), ROOT, [0])
    ensures var us := [OneFunc(Version(k))];
            && GoodUnits(cx, us, ROOT) && UnitsRoot(cx, us, ROOT, map[]) == map["f" := 1]
            && ListingOf(cx, us).Keys == {1} && ListingOf(cx, us)[1].d == Version(k)
  {
    hide HeadBlock, Local, BuildAll;
    assert Nested(ROOT, [0]);
    OpenNested(Version(k), ROOT, [0]);
    NumberGood(cx, FuncLocal(Version(k), ROOT, [0]), k);
    assert GoodFunc(cx, Version(k), ROOT, [0]);
    var us, s1 := [OneFunc(Version(k))], BuildFunc(cx, Version(k), ROOT, [0]);
    assert us[1..] == [] && GoodUnits(cx, [], s1);
    assert UnitsListing(cx, us, ROOT, map[]) == FuncListing(cx, Version(k), ROOT, [0], map[]);
    assert UnitsRoot(cx, us, ROOT, map[]) == map[]["f" := 1];
  }

  lemma {:induction false} CallerSees(cx: Context, blocks: seq<Block>)
    requires Nested(ROOT, [0]) && GoodFunc(cx, Version(1), ROOT, [0]) && blocks == BuildFunc(cx, Version(1), ROOT, [0])
    ensures |blocks| == 2 && Nested(OpenFunc(Caller(), blocks, 0), [0, 2])
    ensures var local := Local(OpenFunc(Caller(), blocks, 0), [0, 2]); "f" in local && local["f"] == ObjFunc(F)
  {
    hide HeadBlock, GoodStmts;
    OpenNested(Version(1), ROOT, [0]);
    var before := OpenFunc(Version(1), ROOT, 0);
    BuildAllNames(cx, FuncLocal(Version(1), ROOT, [0]), Version(1).body, before, 1);
    VersionHead();
    OpenNested(Caller(), blocks, [0]);
    var o := OpenFunc(Caller(), blocks, 0);
    assert [0] + [2] == [0, 2] && [0, 2][..1] == [0];
    assert o[1].info == HeadBlock(Version(1), 0).info && o[2] == HeadBlock(Caller(), 0);
    assert Local(o, [0]) == Visible(o, 0);
    assert o[0].objects == map["f" := FuncEntry(1), "g" := FuncEntry(2)];
    assert "f" !in o[2].objects;
  }

  lemma VersionHead()
    ensures HeadBlock(Version(1), 0).info == FuncInfo("f", [], ["int"], false) && HeadBlock(Version(1), 0).objects == map[]
    ensures HeadBlock(Caller(), 0).objects == map[]
  {
    var b := EmptyBlock(Some(0)).(info := FuncInfo("f", [], [], false));
    assert DeclaredAll(b, [], true) == b;
  }

  lemma {:induction false} FirstGood(cx: Context)
    ensures var us := [OneFunc(Version(1)), OneFunc(Caller())];
            && GoodUnits(cx, us, ROOT) && UnitsRoot(cx, us, ROOT, map[]) == map["f" := 1, "g" := 2]
            && ListingOf(cx, us).Keys == {1, 2} && ListingOf(cx, us)[1].d == Version(1) && ListingOf(cx, us)[2].d == Caller()
            && "f" in ListingOf(cx, us)[2].local && ListingOf(cx, us)[2].local["f"] == ObjFunc(F)
  {
    hide HeadBlock, Local, BuildAll, GoodStmts;
    VersionGood(cx, 1);
    var us, s1 := [OneFunc(Version(1)), OneFunc(Caller())], BuildFunc(cx, Version(1), ROOT, [0]);
    CallerSees(cx, s1);
    OpenNested(Caller(), s1, [0]);
    assert [0] + [2] == [0, 2];
    CallerGood(cx, FuncLocal(Caller(), s1, [0]));
    assert GoodFunc(cx, Caller(), s1, [0]);
    var s2, rest := BuildFunc(cx, Caller(), s1, [0]), us[1..];
    assert rest == [OneFunc(Caller())] && rest[1..] == [];
    assert GoodUnits(cx, [], s2) && GoodUnits(cx, rest, s1);
    var ls := FuncListing(cx, Version(1), ROOT, [0], map[]);
    assert UnitsListing(cx, rest, s1, ls) == FuncListing(cx, Caller(), s1, [0], ls);
    assert UnitsRoot(cx, rest, s1, map["f" := 1]) == map["f" := 1, "g" := 2];
  }

  // ----- the program -----

  /** What is known of the program of the three texts. */
  ghost predicate ThreeVersions(prog: Program) {
    && prog.roots == [map["f" := 1, "g" := 2], map["f" := 1], map["f" := 1]]
    && |prog.bodies| == 3 && HasFirst(prog.bodies[0]) && HasVersion(prog.bodies[1], 2) && HasVersion(prog.bodies[2], 3)
  }

  ghost predicate HasVersion(bodies: map<nat, Body>, k: int) {
    bodies.Keys == {1} && bodies[1].d == Version(k)
  }

  ghost predicate HasFirst(bodies: map<nat, Body>) {
    bodies.Keys == {1, 2} && bodies[1].d == Version(1) && bodies[2].d == Caller() &&
    "f" in bodies[2].local && bodies[2].local["f"] == ObjFunc(F)
  }

  lemma {:induction false} FirstBodies(cx: Context)
    ensures var us := [OneFunc(Version(1)), OneFunc(Caller())];
            GoodUnits(cx, us, ROOT) && UnitsRoot(cx, us, ROOT, map[]) == map["f" := 1, "g" := 2] && HasFirst(Bodies(cx, us))
  {
    hide ListingOf, GoodUnits, UnitsRoot;
    FirstGood(cx);
  }

  lemma {:induction false} VersionBodies(cx: Context, k: int)
    ensures var us := [OneFunc(Version(k))];
            GoodUnits(cx, us, ROOT) && UnitsRoot(cx, us, ROOT, map[]) == map["f" := 1] && HasVersion(Bodies(cx, us), k)
  {
    hide ListingOf, GoodUnits, UnitsRoot;
    VersionGood(cx, k);
  }

  lemma {:induction false} AllGood(cx: Context)
    ensures GoodTexts(cx, Texts3(cx.state))
  {
    hide GoodUnits;
    var xs := Texts3(cx.state);
    var x0, x1 := [xs[0]], [xs[0], xs[1]];
    assert x0[..0] == [] && x1[..1] == x0 && xs[..2] == x1;
    assert GoodTexts(cx, []);
    FirstGood(Behind(cx, [], cx.state));
    assert GoodTexts(cx, x0);
    VersionGood(Behind(cx, x0, cx.state), 2);
    assert GoodTexts(cx, x1);
    VersionGood(Behind(cx, x1, cx.state), 3);
  }

  lemma {:induction false} ProgramIs(cx: Context)
    requires GoodTexts(cx, Texts3(cx.state))
    ensures ThreeVersions(ProgramOf(cx, Texts3(cx.state)))
  {
    hide GoodUnits, ContextAt, Bodies, UnitsRoot, GoodTexts, ProgramOf, HasFirst, HasVersion, Version, Caller, TextsOf;
    var xs := Texts3(cx.state);
    TextAt(cx, xs, 0);
    TextAt(cx, xs, 1);
    TextAt(cx, xs, 2);
    FirstBodies(ContextAt(cx, xs, 0));
    VersionBodies(ContextAt(cx, xs, 1), 2);
    VersionBodies(ContextAt(cx, xs, 2), 3);
  }

  lemma {:induction false} ProgramProper(prog: Program)
    requires ThreeVersions(prog)
    ensures Proper(prog) && KeepsSignatures(prog)
  {
    hide ProperBody;
    forall t, b | 0 <= t < |prog.bodies| && b in prog.bodies[t] ensures ProperBody(prog.bodies[t][b]) { BodyProper(prog.bodies[t][b], t + 1); }
  }

  lemma {:induction false} BodyProper(p: Body, k: int)
    requires p.d == Version(k) || (p.d == Caller() && "f" in p.local && p.local["f"] == ObjFunc(F))
    ensures ProperBody(p)
  {
    hide RunnableAll, GoodStmts, Disciplined;
    if p.d == Version(k) { NumberGood(p.cx, p.local, k); } else { CallerGood(p.cx, p.local); }
  }

  // ----- what the calls run -----

  lemma {:induction false} VersionMeans<V(!new), H(!new)>(h: Host<V, H>, prog: Program, t: nat, depth: nat, fuel: nat, f: Func, s: nat, w: World<V, H>)
    requires ThreeVersions(prog) && s < 3 && depth > 0 && !f.external && Callee(prog.roots, t, f) == Home(s, 1)
    ensures SourceCall(h, prog, t, depth, fuel, f, [], w) == Some(([h.constant(Num(s + 1))], w))
  {
    hide Callee, SourceSem;
    var p, m, e := prog.bodies[s][1], SourceSem(h, prog, s, depth - 1, fuel), Atom(Num(s + 1));
    var w1 := w.(frames := w.frames + [Vars(Home(s, 1), [] + Initials(h, []))]);
    NumberGood(p.cx, p.local, s + 1);
    assert Types([]) == [] && p.d == Version(s + 1);
    SourceHost(h, prog, s, depth - 1, fuel);
    AnswerMeans(m, p.cx, p.local, e, w1, fuel);
    assert Results(m, e, p.cx.vm + p.local, w1) == Some(([h.constant(Num(s + 1))], w1));
  }

  lemma SourceHost<V, H>(h: Host<V, H>, prog: Program, t: nat, depth: nat, fuel: nat)
    ensures SourceSem(h, prog, t, depth, fuel).constant == h.constant
  {
    hide SourceCall;
  }

  lemma {:induction false} AnswerMeans<V(!new), W(!new)>(m: Semantics<V, W>, cx: Context, local: Env, e: Expr, w: W, fuel: nat)
    requires RunnableAll(cx, local, Answer(e))
    ensures Canonical(e, cx.vm + local)
    ensures StmtsMeaning(m, cx, local, Answer(e), w, fuel) ==
            match Results(m, e, cx.vm + local, w) case None => Fails case Some((vs, w1)) => Ends(Returned(vs), w1, fuel)
  {
    hide Results;
    var env := cx.vm + local;
    assert Runnable(cx, local, Returning(Arg(e, NoArg)));
    assert CanonicalArgs(NoArg, env);
    match Results(m, e, env, w) {
      case None =>
      case Some((vs, w1)) =>
        assert Spread(m, NoArg, env, w1) == Some(([], w1));
        assert vs + [] == vs;
    }
  }

  lemma {:induction false} Runs(roots: Roots)
    requires roots == [map["f" := 1, "g" := 2], map["f" := 1], map["f" := 1]]
    ensures Callee(roots, 0, F) == Home(1, 1) && Callee(roots, 0, G) == Home(0, 2)
    ensures Callee(roots, 1, F) == Home(2, 1) && Callee(roots, 2, F) == Home(2, 1)
  {
    assert NextText(roots, "g", 3) == None && NextText(roots, "g", 2) == None;
  }

  lemma {:induction false} CallerMeans<V(!new), H(!new)>(h: Host<V, H>, prog: Program, depth: nat, fuel: nat, w: World<V, H>)
    requires ThreeVersions(prog) && depth > 1
    ensures SourceCall(h, prog, 0, depth, fuel, G, [], w) == Some(([h.constant(Num(2))], w))
  {
    hide Callee, SourceSem;
    Runs(prog.roots);
    var p, m, e := prog.bodies[0][2], SourceSem(h, prog, 0, depth - 1, fuel), Apply("f", NoArg);
    var w1 := w.(frames := w.frames + [Vars(Home(0, 2), [] + Initials(h, []))]);
    CallerGood(p.cx, p.local);
    assert Types([]) == [] && p.d == Caller();
    VersionMeans(h, prog, 0, depth - 1, fuel, F, 1, w1);
    SourceCalls(h, prog, 0, depth - 1, fuel, F, w1);
    AnswerMeans(m, p.cx, p.local, e, w1, fuel);
    assert Values(m, NoArg, p.cx.vm + p.local, w1) == Some(([], w1));
    assert Results(m, e, p.cx.vm + p.local, w1) == m.call(F, [], w1);
  }

  lemma SourceCalls<V, H>(h: Host<V, H>, prog: Program, t: nat, depth: nat, fuel: nat, f: Func, w: World<V, H>)
    ensures SourceSem(h, prog, t, depth, fuel).call(f, [], w) == SourceCall(h, prog, t, depth, fuel, f, [], w)
  {
    hide SourceCall;
  }

  /** The three texts on the virtual machine: `g` of the first text answers with the
      second version, although the third one is loaded and answers under the name `f`. */
  lemma {:induction false} StaleCall<V(!new), H(!new)>(h: Host<V, H>, cx: Context, depth: nat, fuel: nat, w: World<V, H>)
    requires RegularHost(h) && OnlyBuiltins(cx) && depth > 1
    ensures var xs := Texts3(cx.state);
            && GoodTexts(cx, xs) && (forall s :: 0 <= s < 3 ==> CompiledTo(ContextAt(cx, xs, s), xs[s].units, TextsOf(cx, xs)[s]))
            && MachineCall(h, TextsOf(cx, xs), 0, depth, fuel, G, [], w) == Some(([h.constant(Num(2))], w))
            && MachineCall(h, TextsOf(cx, xs), 2, depth, fuel, F, [], w) == Some(([h.constant(Num(3))], w))
  {
    hide GoodTexts, TextsOf, ProgramOf, ContextAt, CompiledTo, MachineCall, SourceCall, OnlyBuiltins, RegularHost, Proper, KeepsSignatures, Callee;
    var xs := Texts3(cx.state);
    AllGood(cx);
    ProgramIs(cx);
    var prog := ProgramOf(cx, xs);
    ProgramProper(prog);
    Runs(prog.roots);
    assert KnownFunc(prog, 0, G) && KnownFunc(prog, 2, F);
    ProgramIsFaithful(h, cx, xs, depth, fuel, 0, G, [], w);
    ProgramIsFaithful(h, cx, xs, depth, fuel, 2, F, [], w);
    CallerMeans(h, prog, depth, fuel, w);
    VersionMeans(h, prog, 2, depth, fuel, F, 2, w);
  }
}

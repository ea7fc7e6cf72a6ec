/**
 The functions of a compiled text: which block holds which declaration, what the
 names of each function refer to, and that the blocks of any compiled text are
 those of its functions.
 */
module TextPrograms {
  import opened Wrappers
  import opened Lexemes
  import opened Expressions
  import opened ExpressionTrees
  import opened StackMachine
  import opened Blocks
  import opened Sections
  import opened Statements
  import opened Programs
  import opened ProgramMeaning
  import opened Declarations
  import opened CompiledTexts
  import opened Calls

  /** A function of a text and the names that its body sees. */
  datatype Member = Member(d: FuncDecl, local: Env)

  /** The functions of a text by their blocks. */
  type Listing = map<nat, Member>

  // ----- blocks that hold a program -----

  /** The header of the block is that of the declaration. */
  predicate HeadOf(b: Block, d: FuncDecl) {
    && b.info.FuncInfo? && b.info.params == Types(d.params) && |b.info.results| == |d.results| && b.info.variadic == d.variadic
    && b.vars == Types(d.params) + Types(d.locals)
  }

  /** A reference to a function of the text. */
  predicate OwnFunc(ls: Listing, f: Func) {
    f.home.None? && f.block in ls && f.variadic == ls[f.block].d.variadic &&
    f.params == |ls[f.block].d.params| && f.results == |ls[f.block].d.results|
  }

  /** Names refer to variables of block `k` and to functions of the text. */
  predicate OwnNames(env: Env, k: nat, ls: Listing) {
    forall n :: n in env ==> (env[n].ObjVar? ==> env[n].v.owner == k) && (env[n].ObjFunc? ==> OwnFunc(ls, env[n].f))
  }

  ghost predicate BodyAt(cx: Context, blocks: seq<Block>, ls: Listing, b: nat)
    requires b in ls
  {
    var p := ls[b];
    && 0 < b < |blocks| && HeadOf(blocks[b], p.d) && OwnNames(p.local, b, ls)
    && p.d.TailFits() && GoodStmts(cx, p.local, p.d.body) && Holds(cx, p.local, blocks, 0, b, p.d.body, false)
  }

  /** The blocks of functions are those of the listing. */
  ghost predicate Loaded(cx: Context, blocks: seq<Block>, ls: Listing) {
    && (forall b :: b in ls ==> BodyAt(cx, blocks, ls, b))
    && (forall b :: 0 <= b < |blocks| && blocks[b].info.FuncInfo? ==> b in ls)
  }

  // ----- the lsram of a text -----

  /** Entries of functions lead to blocks of functions, and only those have variables. */
  predicate GoodEntries(blocks: seq<Block>) {
    forall b, n :: 0 <= b < |blocks| && n in blocks[b].objects ==> GoodEntry(blocks, b, blocks[b].objects[n])
  }

  predicate GoodEntry(blocks: seq<Block>, b: nat, e: Entry)
    requires b < |blocks|
  {
    (e.VarEntry? ==> blocks[b].info.FuncInfo?) &&
    (e.FuncEntry? ==> e.block < |blocks| && blocks[e.block].info.FuncInfo?)
  }

  ghost predicate Listed(cx: Context, blocks: seq<Block>, ls: Listing) {
    Loaded(cx, blocks, ls) && GoodEntries(blocks)
  }

  /** No block on the stack is that of a function. */
  predicate Outside(blocks: seq<Block>, bstack: seq<nat>) {
    forall i :: 0 <= i < |bstack| ==> bstack[i] < |blocks| && !blocks[bstack[i]].info.FuncInfo?
  }

  ghost function FuncListing(cx: Context, d: FuncDecl, blocks: seq<Block>, bstack: seq<nat>, ls: Listing): Listing
    requires Nested(blocks, bstack)
  {
    OpenNested(d, blocks, bstack);
    ls[|blocks| := Member(d, FuncLocal(d, blocks, bstack))]
  }

  ghost function FuncsListing(cx: Context, ds: seq<FuncDecl>, blocks: seq<Block>, bstack: seq<nat>, ls: Listing): Listing
    requires Nested(blocks, bstack) && GoodFuncs(cx, ds, blocks, bstack)
    decreases |ds|
  {
    if ds == [] then ls
    else FuncsListing(cx, ds[1..], BuildFunc(cx, ds[0], blocks, bstack), bstack, FuncListing(cx, ds[0], blocks, bstack, ls))
  }

  ghost function UnitListing(cx: Context, u: Unit, blocks: seq<Block>, ls: Listing): Listing
    requires Nested(blocks, [0]) && GoodUnit(cx, u, blocks)
  {
    match u
    case OneFunc(d) => FuncListing(cx, d, blocks, [0], ls)
    case OneContract(n, ps, ds) =>
      ContractNested(cx, n, ps, blocks);
      FuncsListing(cx, ds, OpenContract(cx, n, ps, blocks), [0, |blocks|], ls)
  }

  ghost function UnitsListing(cx: Context, us: seq<Unit>, blocks: seq<Block>, ls: Listing): Listing
    requires Nested(blocks, [0]) && GoodUnits(cx, us, blocks)
    decreases |us|
  {
    if us == [] then ls else UnitsListing(cx, us[1..], BuildUnit(cx, us[0], blocks), UnitListing(cx, us[0], blocks, ls))
  }

  // ----- headers -----

  lemma {:induction false} DeclaredVars(b: Block, vs: seq<Typing>, param: bool)
    requires b.info.FuncInfo?
    ensures var r := DeclaredAll(b, vs, param);
            r.vars == b.vars + Types(vs) && r.info == (if param then b.info.(params := b.info.params + Types(vs)) else b.info)
    decreases |vs|
  {
    if vs == [] {
      assert b.vars + Types(vs) == b.vars && b.info.params + Types(vs) == b.info.params;
    } else {
      DeclaredVars(Declared(b, vs[0], param), vs[1..], param);
      assert Types(vs) == [Some(vs[0].typ)] + Types(vs[1..]);
      assert b.vars + Types(vs) == b.vars + [Some(vs[0].typ)] + Types(vs[1..]);
      assert b.info.params + Types(vs) == b.info.params + [Some(vs[0].typ)] + Types(vs[1..]);
    }
  }

  lemma {:induction false} HeadBlockIs(d: FuncDecl, parent: nat)
    ensures HeadOf(HeadBlock(d, parent), d)
    ensures forall n :: n in HeadBlock(d, parent).objects ==> HeadBlock(d, parent).objects[n].VarEntry?
  {
    hide DeclaredAll, Types;
    var f := EmptyBlock(Some(parent)).(info := FuncInfo(d.name, [], [], false));
    DeclaredVars(f, d.params, true);
    OnlyVars(f, d.params, true);
    var g := WithResults(WithTail(DeclaredAll(f, d.params, true), d.variadic), d.results);
    DeclaredVars(g, d.locals, false);
    OnlyVars(g, d.locals, false);
    assert [] + Types(d.params) == Types(d.params);
  }

  /** Blocks keep their headers. */
  predicate SameHeads(a: seq<Block>, b: seq<Block>) {
    |a| <= |b| && forall k :: 0 <= k < |a| ==> b[k].info == a[k].info && b[k].vars == a[k].vars
  }

  lemma {:induction false} OpenHeads(d: FuncDecl, blocks: seq<Block>, b: nat)
    requires b < |blocks| && GoodEntries(blocks) && !blocks[b].info.FuncInfo?
    ensures var o := OpenFunc(d, blocks, b); SameHeads(blocks, o) && GoodEntries(o) && HeadOf(o[|blocks|], d)
  {
    hide HeadBlock, HeadOf;
    HeadBlockIs(d, b);
    HeadParent(d, b);
    var o, k := OpenFunc(d, blocks, b), |blocks|;
    assert o[k] == HeadBlock(d, b);
    forall c, n | 0 <= c < |o| && n in o[c].objects ensures GoodEntry(o, c, o[c].objects[n]) {
      if c < k && n in blocks[c].objects { assert GoodEntry(blocks, c, blocks[c].objects[n]); }
    }
  }

  lemma EntriesKept(a: seq<Block>, b: seq<Block>)
    requires SameNames(a, b) && GoodEntries(a)
    ensures GoodEntries(b) && SameHeads(a, b)
  {
    forall c, n | 0 <= c < |b| && n in b[c].objects ensures GoodEntry(b, c, b[c].objects[n]) {
      if c < |a| { assert GoodEntry(a, c, a[c].objects[n]); }
    }
  }

  // ----- what names refer to -----

  /** Every function among the blocks is in the lsram with its header. */
  predicate Headed(blocks: seq<Block>, ls: Listing) {
    forall b :: 0 <= b < |blocks| && blocks[b].info.FuncInfo? ==> b in ls && HeadOf(blocks[b], ls[b].d)
  }

  lemma VisibleRefers(blocks: seq<Block>, b: nat, k: nat, ls: Listing)
    requires b < |blocks| && GoodEntries(blocks) && Headed(blocks, ls) && (blocks[b].info.FuncInfo? ==> b == k)
    ensures OwnNames(Visible(blocks, b), k, ls)
  {
    forall n | n in Visible(blocks, b)
      ensures Visible(blocks, b)[n].ObjVar? ==> Visible(blocks, b)[n].v.owner == k
      ensures Visible(blocks, b)[n].ObjFunc? ==> OwnFunc(ls, Visible(blocks, b)[n].f)
    {
      assert GoodEntry(blocks, b, blocks[b].objects[n]);
    }
  }

  lemma RefersBoth(a: Env, b: Env, k: nat, ls: Listing)
    requires OwnNames(a, k, ls) && OwnNames(b, k, ls)
    ensures OwnNames(a + b, k, ls)
  {
  }

  lemma {:induction false} LocalRefers(blocks: seq<Block>, bstack: seq<nat>, k: nat, ls: Listing)
    requires Nested(blocks, bstack) && GoodEntries(blocks) && Headed(blocks, ls)
    requires forall i :: 0 <= i < |bstack| ==> bstack[i] < |blocks| && (blocks[bstack[i]].info.FuncInfo? ==> bstack[i] == k)
    ensures OwnNames(Local(blocks, bstack), k, ls)
    decreases |bstack|
  {
    hide OwnNames, GoodEntries, Headed, Visible;
    VisibleRefers(blocks, Top(bstack), k, ls);
    if |bstack| > 1 {
      LocalRefers(blocks, bstack[..|bstack| - 1], k, ls);
      RefersBoth(Local(blocks, bstack[..|bstack| - 1]), Visible(blocks, Top(bstack)), k, ls);
    }
  }

  // ----- a lsram grows by one function -----

  lemma {:induction false} BodyKept(cx: Context, a: seq<Block>, a': seq<Block>, ls: Listing, ls': Listing, b: nat)
    requires b in ls && BodyAt(cx, a, ls, b) && SameHeads(a, a') && SameCode(a, a')
    requires b in ls' && ls'[b] == ls[b] && forall c :: c in ls ==> c in ls' && ls'[c] == ls[c]
    ensures BodyAt(cx, a', ls', b)
  {
    hide GoodStmts, Implements, CodeLenAll;
    var p := ls[b];
    assert Grown(a, a', 0);
    HoldsKept(cx, p.local, a, a', 0, 0, b, p.d.body, false);
  }

  lemma {:induction false} LoadedKept(cx: Context, a: seq<Block>, a': seq<Block>, ls: Listing, ls': Listing)
    requires Loaded(cx, a, ls) && SameHeads(a, a') && SameCode(a, a')
    requires forall c :: c in ls ==> c in ls' && ls'[c] == ls[c]
    ensures forall b :: b in ls ==> BodyAt(cx, a', ls', b)
  {
    hide BodyAt, SameHeads, SameCode;
    forall b | b in ls ensures BodyAt(cx, a', ls', b) { BodyKept(cx, a, a', ls, ls', b); }
  }

  lemma LoadedIn(cx: Context, blocks: seq<Block>, ls: Listing, b: nat)
    requires Loaded(cx, blocks, ls) && b in ls
    ensures b < |blocks|
  {
    hide GoodStmts, Holds, OwnNames, HeadOf;
    assert BodyAt(cx, blocks, ls, b);
  }

  /** How the blocks of a function stand to those before it. */
  lemma {:induction false} FuncShape(cx: Context, d: FuncDecl, blocks: seq<Block>, bstack: seq<nat>)
    requires Nested(blocks, bstack) && GoodFunc(cx, d, blocks, bstack) && GoodEntries(blocks) && Outside(blocks, bstack)
    ensures bstack != [] && Top(bstack) < |blocks|
    ensures var o, r, k := OpenFunc(d, blocks, Top(bstack)), BuildFunc(cx, d, blocks, bstack), |blocks|;
            Nested(o, bstack + [k]) && SameHeads(blocks, o) && GoodEntries(o) && HeadOf(o[k], d) &&
            SameHeads(o, r) && GoodEntries(r) && (forall b :: k < b < |r| ==> !r[b].info.FuncInfo?) && SameCode(blocks, r)
  {
    hide Named, HeadBlock, HeadOf, GoodStmts, BuildAll, Local, GoodEntries;
    TopWithin(blocks, bstack);
    OpenNested(d, blocks, bstack);
    OpenHeads(d, blocks, Top(bstack));
    var o, r := OpenFunc(d, blocks, Top(bstack)), BuildFunc(cx, d, blocks, bstack);
    BuildAllNames(cx, FuncLocal(d, blocks, bstack), d.body, o, |blocks|);
    EntriesKept(o, r);
    FuncSame(cx, d, blocks, bstack);
  }

  /** The names in the body of a new function. */
  lemma {:induction false} FuncRefers(cx: Context, d: FuncDecl, blocks: seq<Block>, bstack: seq<nat>, ls: Listing)
    requires Nested(blocks, bstack) && Listed(cx, blocks, ls) && Outside(blocks, bstack) && GoodFunc(cx, d, blocks, bstack)
    ensures bstack != [] && Top(bstack) < |blocks| && Nested(OpenFunc(d, blocks, Top(bstack)), bstack + [|blocks|])
    ensures OwnNames(FuncLocal(d, blocks, bstack), |blocks|, FuncListing(cx, d, blocks, bstack, ls))
  {
    hide Nested, GoodFunc, BuildFunc, GoodEntries, HeadOf, OpenFunc, Local;
    FuncShape(cx, d, blocks, bstack);
    var o, k, ls' := OpenFunc(d, blocks, Top(bstack)), |blocks|, FuncListing(cx, d, blocks, bstack, ls);
    OldHeads(cx, blocks, o, ls, ls', d);
    LocalRefers(o, bstack + [k], k, ls');
  }

  lemma {:induction false} OldHeads(cx: Context, blocks: seq<Block>, o: seq<Block>, ls: Listing, ls': Listing, d: FuncDecl)
    requires Loaded(cx, blocks, ls) && SameHeads(blocks, o) && |o| == |blocks| + 1 && HeadOf(o[|blocks|], d)
    requires |blocks| in ls' && ls'[|blocks|].d == d && ls' == ls[|blocks| := ls'[|blocks|]]
    ensures Headed(o, ls')
  {
    hide GoodStmts, Holds, OwnNames;
    forall b | 0 <= b < |o| && o[b].info.FuncInfo? ensures b in ls' && HeadOf(o[b], ls'[b].d) {
      if b < |blocks| { assert BodyAt(cx, blocks, ls, b); }
    }
  }

  lemma {:induction false} AddFunc(cx: Context, d: FuncDecl, blocks: seq<Block>, bstack: seq<nat>, ls: Listing)
    requires Nested(blocks, bstack) && Listed(cx, blocks, ls) && Outside(blocks, bstack) && GoodFunc(cx, d, blocks, bstack)
    ensures Listed(cx, BuildFunc(cx, d, blocks, bstack), FuncListing(cx, d, blocks, bstack, ls))
    ensures Outside(BuildFunc(cx, d, blocks, bstack), bstack)
  {
    hide Nested, BuildFunc, GoodEntries, HeadOf, OpenFunc, OwnNames, Holds, FuncLocal, GoodStmts;
    FuncShape(cx, d, blocks, bstack);
    var o, r, k, ls' := OpenFunc(d, blocks, Top(bstack)), BuildFunc(cx, d, blocks, bstack), |blocks|, FuncListing(cx, d, blocks, bstack, ls);
    if k in ls { LoadedIn(cx, blocks, ls, k); }
    assert SameHeads(blocks, r);
    LoadedKept(cx, blocks, r, ls, ls');
    FuncRefers(cx, d, blocks, bstack, ls);
    FuncHolds(cx, d, blocks, bstack, r);
    HeadSame(o[k], r[k], d);
    assert BodyAt(cx, r, ls', k);
  }

  lemma HeadSame(a: Block, b: Block, d: FuncDecl)
    requires HeadOf(a, d) && b.info == a.info && b.vars == a.vars
    ensures HeadOf(b, d)
  {
  }

  lemma {:induction false} AddFuncs(cx: Context, ds: seq<FuncDecl>, blocks: seq<Block>, bstack: seq<nat>, ls: Listing)
    requires Nested(blocks, bstack) && Listed(cx, blocks, ls) && Outside(blocks, bstack) && GoodFuncs(cx, ds, blocks, bstack)
    ensures Listed(cx, BuildFuncs(cx, ds, blocks, bstack), FuncsListing(cx, ds, blocks, bstack, ls))
    ensures Outside(BuildFuncs(cx, ds, blocks, bstack), bstack)
    decreases |ds|
  {
    hide Nested, BuildFunc, GoodFunc, Listed, Outside, FuncListing;
    if ds != [] {
      AddFunc(cx, ds[0], blocks, bstack, ls);
      AddFuncs(cx, ds[1..], BuildFunc(cx, ds[0], blocks, bstack), bstack, FuncListing(cx, ds[0], blocks, bstack, ls));
    }
  }

  lemma {:induction false} AddContract(cx: Context, name: string, ps: seq<Section>, blocks: seq<Block>, ls: Listing)
    requires |blocks| > 0 && Listed(cx, blocks, ls) && Outside(blocks, [0])
    ensures Listed(cx, OpenContract(cx, name, ps, blocks), ls) && Outside(OpenContract(cx, name, ps, blocks), [0, |blocks|])
  {
    hide BodyAt, StateName, HeadOf;
    var o, k := OpenContract(cx, name, ps, blocks), |blocks|;
    assert SameHeads(blocks, o) && SameCode(blocks, o);
    LoadedKept(cx, blocks, o, ls, ls);
    assert blocks[[0][0]].info == o[0].info;
    forall c, n | 0 <= c < |o| && n in o[c].objects ensures GoodEntry(o, c, o[c].objects[n]) {
      if c < k && n in blocks[c].objects { assert GoodEntry(blocks, c, blocks[c].objects[n]); }
    }
  }

  lemma {:induction false} AddUnit(cx: Context, u: Unit, blocks: seq<Block>, ls: Listing)
    requires Nested(blocks, [0]) && Listed(cx, blocks, ls) && Outside(blocks, [0]) && GoodUnit(cx, u, blocks)
    ensures Listed(cx, BuildUnit(cx, u, blocks), UnitListing(cx, u, blocks, ls)) && Outside(BuildUnit(cx, u, blocks), [0])
  {
    hide Nested, BuildFunc, GoodFunc, BuildFuncs, GoodFuncs, Listed, FuncListing, FuncsListing, OpenContract;
    match u
    case OneFunc(d) => AddFunc(cx, d, blocks, [0], ls);
    case OneContract(n, ps, ds) =>
      TopWithin(blocks, [0]);
      ContractNested(cx, n, ps, blocks);
      AddContract(cx, n, ps, blocks, ls);
      AddFuncs(cx, ds, OpenContract(cx, n, ps, blocks), [0, |blocks|], ls);
      assert [0, |blocks|][0] == 0;
  }

  lemma {:induction false} AddUnits(cx: Context, us: seq<Unit>, blocks: seq<Block>, ls: Listing)
    requires Nested(blocks, [0]) && Listed(cx, blocks, ls) && Outside(blocks, [0]) && GoodUnits(cx, us, blocks)
    ensures Listed(cx, BuildUnits(cx, us, blocks), UnitsListing(cx, us, blocks, ls)) && Outside(BuildUnits(cx, us, blocks), [0])
    decreases |us|
  {
    hide Nested, BuildUnit, GoodUnit, Listed, Outside, UnitListing;
    if us != [] {
      AddUnit(cx, us[0], blocks, ls);
      AddUnits(cx, us[1..], BuildUnit(cx, us[0], blocks), UnitListing(cx, us[0], blocks, ls));
    }
  }

  lemma {:induction false} TextLoads(cx: Context, us: seq<Unit>)
    requires GoodUnits(cx, us, [EmptyBlock(None)])
    ensures Listed(cx, BuildUnits(cx, us, [EmptyBlock(None)]), ListingOf(cx, us)) && Outside(BuildUnits(cx, us, [EmptyBlock(None)]), [0])
  {
    hide BuildUnits, UnitsListing, GoodUnits, BodyAt;
    AddUnits(cx, us, [EmptyBlock(None)], map[]);
  }

  /** The functions of a text by their blocks. */
  ghost function ListingOf(cx: Context, us: seq<Unit>): Listing
    requires GoodUnits(cx, us, [EmptyBlock(None)])
  {
    UnitsListing(cx, us, [EmptyBlock(None)], map[])
  }

  // ----- the names in the root -----

  function UnitRoot(cx: Context, u: Unit, n: nat, root: map<string, nat>): map<string, nat> {
    match u
    case OneFunc(d) => root[d.name := n]
    case OneContract(name, _, _) => root - {StateName(cx.state, name)}
  }

  /** The functions of the root: the last one of each name, unless a contract has taken it. */
  ghost function UnitsRoot(cx: Context, us: seq<Unit>, blocks: seq<Block>, root: map<string, nat>): map<string, nat>
    requires Nested(blocks, [0]) && GoodUnits(cx, us, blocks)
    decreases |us|
  {
    if us == [] then root else UnitsRoot(cx, us[1..], BuildUnit(cx, us[0], blocks), UnitRoot(cx, us[0], |blocks|, root))
  }

  lemma {:induction false} FuncObjects(cx: Context, d: FuncDecl, blocks: seq<Block>, bstack: seq<nat>)
    requires Nested(blocks, bstack) && GoodFunc(cx, d, blocks, bstack)
    ensures bstack != [] && Top(bstack) < |blocks|
    ensures BuildFunc(cx, d, blocks, bstack)[0].objects ==
            if Top(bstack) == 0 then blocks[0].objects[d.name := FuncEntry(|blocks|)] else blocks[0].objects
  {
    hide HeadBlock, GoodStmts, BuildAll, Local;
    TopWithin(blocks, bstack);
    OpenNested(d, blocks, bstack);
    BuildAllNames(cx, FuncLocal(d, blocks, bstack), d.body, OpenFunc(d, blocks, Top(bstack)), |blocks|);
  }

  lemma {:induction false} FuncsObjects(cx: Context, ds: seq<FuncDecl>, blocks: seq<Block>, bstack: seq<nat>)
    requires Nested(blocks, bstack) && GoodFuncs(cx, ds, blocks, bstack) && bstack != [] && Top(bstack) > 0
    ensures 0 < |blocks| && BuildFuncs(cx, ds, blocks, bstack)[0].objects == blocks[0].objects
    decreases |ds|
  {
    hide Nested, GoodFunc, BuildFunc;
    TopWithin(blocks, bstack);
    if ds != [] {
      FuncObjects(cx, ds[0], blocks, bstack);
      FuncsObjects(cx, ds[1..], BuildFunc(cx, ds[0], blocks, bstack), bstack);
    }
  }

  lemma {:induction false} UnitObjects(cx: Context, u: Unit, blocks: seq<Block>)
    requires Nested(blocks, [0]) && GoodUnit(cx, u, blocks)
    ensures RootOf(BuildUnit(cx, u, blocks)) == UnitRoot(cx, u, |blocks|, RootOf(blocks))
  {
    hide Nested, GoodFunc, BuildFunc, GoodFuncs, BuildFuncs, StateName;
    TopWithin(blocks, [0]);
    match u
    case OneFunc(d) => FuncObjects(cx, d, blocks, [0]);
    case OneContract(n, ps, ds) =>
      ContractNested(cx, n, ps, blocks);
      assert Top([0, |blocks|]) == |blocks|;
      FuncsObjects(cx, ds, OpenContract(cx, n, ps, blocks), [0, |blocks|]);
  }

  lemma {:induction false} UnitsObjects(cx: Context, us: seq<Unit>, blocks: seq<Block>)
    requires Nested(blocks, [0]) && GoodUnits(cx, us, blocks)
    ensures RootOf(BuildUnits(cx, us, blocks)) == UnitsRoot(cx, us, blocks, RootOf(blocks))
    decreases |us|
  {
    hide Nested, BuildUnit, GoodUnit, UnitRoot, RootOf;
    if us != [] {
      UnitObjects(cx, us[0], blocks);
      UnitsObjects(cx, us[1..], BuildUnit(cx, us[0], blocks));
    }
  }

  // ----- what the sections have entered -----

  predicate SameInfos(a: seq<Block>, b: seq<Block>) {
    |a| <= |b| && forall k :: 0 <= k < |a| ==> b[k].info == a[k].info
  }

  /** The block of every contract names it and holds what its sections say. */
  ghost predicate UnitsEntered(cx: Context, us: seq<Unit>, stage: seq<Block>, final: seq<Block>)
    requires Nested(stage, [0]) && GoodUnits(cx, us, stage)
    decreases |us|
  {
    us == [] ||
    ((us[0].OneContract? ==>
        |stage| < |final| && final[|stage|].info == InfoAfterAll(EmptyContract(cx, us[0].name, |stage[0].children|), us[0].sections)) &&
     UnitsEntered(cx, us[1..], BuildUnit(cx, us[0], stage), final))
  }

  lemma {:induction false} FuncInfos(cx: Context, d: FuncDecl, blocks: seq<Block>, bstack: seq<nat>)
    requires Nested(blocks, bstack) && GoodFunc(cx, d, blocks, bstack)
    ensures SameInfos(blocks, BuildFunc(cx, d, blocks, bstack))
  {
    hide HeadBlock, GoodStmts, BuildAll, Local;
    TopWithin(blocks, bstack);
    OpenNested(d, blocks, bstack);
    BuildAllNames(cx, FuncLocal(d, blocks, bstack), d.body, OpenFunc(d, blocks, Top(bstack)), |blocks|);
  }

  lemma {:induction false} FuncsInfos(cx: Context, ds: seq<FuncDecl>, blocks: seq<Block>, bstack: seq<nat>)
    requires Nested(blocks, bstack) && GoodFuncs(cx, ds, blocks, bstack)
    ensures SameInfos(blocks, BuildFuncs(cx, ds, blocks, bstack))
    decreases |ds|
  {
    hide Nested, GoodFunc, BuildFunc;
    if ds != [] {
      FuncInfos(cx, ds[0], blocks, bstack);
      FuncsInfos(cx, ds[1..], BuildFunc(cx, ds[0], blocks, bstack), bstack);
    }
  }

  lemma {:induction false} UnitInfos(cx: Context, u: Unit, blocks: seq<Block>)
    requires Nested(blocks, [0]) && GoodUnit(cx, u, blocks)
    ensures var r := BuildUnit(cx, u, blocks);
            && SameInfos(blocks, r) && 0 < |blocks|
            && (u.OneContract? ==> r[|blocks|].info == InfoAfterAll(EmptyContract(cx, u.name, |blocks[0].children|), u.sections))
  {
    hide Nested, GoodFunc, BuildFunc, GoodFuncs, BuildFuncs, StateName, InfoAfterAll;
    TopWithin(blocks, [0]);
    match u
    case OneFunc(d) => FuncInfos(cx, d, blocks, [0]);
    case OneContract(n, ps, ds) =>
      ContractNested(cx, n, ps, blocks);
      FuncsInfos(cx, ds, OpenContract(cx, n, ps, blocks), [0, |blocks|]);
  }

  lemma {:induction false} UnitsInfos(cx: Context, us: seq<Unit>, blocks: seq<Block>)
    requires Nested(blocks, [0]) && GoodUnits(cx, us, blocks)
    ensures SameInfos(blocks, BuildUnits(cx, us, blocks)) && UnitsEntered(cx, us, blocks, BuildUnits(cx, us, blocks))
    decreases |us|
  {
    hide Nested, BuildUnit, GoodUnit, InfoAfterAll, EmptyContract;
    if us != [] {
      UnitInfos(cx, us[0], blocks);
      UnitsInfos(cx, us[1..], BuildUnit(cx, us[0], blocks));
    }
  }

  /** CompileBlock enters the sections of every contract of a text in its block. */
  lemma {:induction false} SectionsAreEntered(cx: Context, us: seq<Unit>)
    requires GoodUnits(cx, us, [EmptyBlock(None)])
    ensures var lex := UnitsText(us);
            Valid(lex, Initial()) && Compile(lex, cx, Initial()).Good? &&
            UnitsEntered(cx, us, [EmptyBlock(None)], Compile(lex, cx, Initial()).value)
  {
    hide Valid, Compile, UnitsText, BuildUnits, GoodUnits, UnitsEntered;
    TextCompiles(cx, us);
    UnitsInfos(cx, us, [EmptyBlock(None)]);
  }
}

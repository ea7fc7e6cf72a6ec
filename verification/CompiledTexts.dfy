/**
 From the text to its meaning: every function of a text that CompileBlock has
 compiled does, on the virtual machine, what its statements mean.
 */
module CompiledTexts {
  import opened Wrappers
  import opened Lexemes
  import opened Expressions
  import opened ExpressionTrees
  import opened StackMachine
  import opened Blocks
  import opened Sections
  import opened Statements
  import opened Programs
  import opened ProgramMeaning
  import opened Declarations

  /** Whatever the stack, the world and the fuel: the block of `d` answers as its statements mean. */
  ghost predicate Faithful<V(!new), W(!new)>(m: Semantics<V, W>, cx: Context, d: FuncDecl, local: Env, blocks: seq<Block>, k: nat) {
    RunnableAll(cx, local, d.body) ==>
      k < |blocks| &&
      forall stack: seq<V>, params: seq<V>, w: W, fuel: nat ::
        Answers(CallBlock(m, blocks, k, |d.results|, stack, params, w, fuel), StmtsMeaning(m, cx, local, d.body, w, fuel), stack, |d.results|)
  }

  /** `stage` is what was there before the function, `final` what there is in the end. */
  ghost predicate FuncFaithful<V(!new), W(!new)>(m: Semantics<V, W>, cx: Context, d: FuncDecl, stage: seq<Block>, bstack: seq<nat>, final: seq<Block>)
    requires Nested(stage, bstack)
  {
    OpenNested(d, stage, bstack);
    Faithful(m, cx, d, FuncLocal(d, stage, bstack), final, |stage|)
  }

  ghost predicate FuncsFaithful<V(!new), W(!new)>(m: Semantics<V, W>, cx: Context, ds: seq<FuncDecl>, stage: seq<Block>, bstack: seq<nat>, final: seq<Block>)
    requires Nested(stage, bstack) && GoodFuncs(cx, ds, stage, bstack)
    decreases |ds|
  {
    ds == [] ||
    (FuncFaithful(m, cx, ds[0], stage, bstack, final) &&
     FuncsFaithful(m, cx, ds[1..], BuildFunc(cx, ds[0], stage, bstack), bstack, final))
  }

  ghost predicate UnitFaithful<V(!new), W(!new)>(m: Semantics<V, W>, cx: Context, u: Unit, stage: seq<Block>, final: seq<Block>)
    requires Nested(stage, [0]) && GoodUnit(cx, u, stage)
  {
    match u
    case OneFunc(d) => FuncFaithful(m, cx, d, stage, [0], final)
    case OneContract(n, ps, ds) =>
      ContractNested(cx, n, ps, stage);
      FuncsFaithful(m, cx, ds, OpenContract(cx, n, ps, stage), [0, |stage|], final)
  }

  ghost predicate UnitsFaithful<V(!new), W(!new)>(m: Semantics<V, W>, cx: Context, us: seq<Unit>, stage: seq<Block>, final: seq<Block>)
    requires Nested(stage, [0]) && GoodUnits(cx, us, stage)
    decreases |us|
  {
    us == [] || (UnitFaithful(m, cx, us[0], stage, final) && UnitsFaithful(m, cx, us[1..], BuildUnit(cx, us[0], stage), final))
  }

  /** Declarations that come later do not touch the code that is there. */
  predicate SameCode(a: seq<Block>, a': seq<Block>) {
    |a| <= |a'| && forall k :: 0 <= k < |a| ==> a'[k].code == a[k].code
  }

  lemma {:induction false} FuncSame(cx: Context, d: FuncDecl, blocks: seq<Block>, bstack: seq<nat>)
    requires Nested(blocks, bstack) && GoodFunc(cx, d, blocks, bstack)
    ensures SameCode(blocks, BuildFunc(cx, d, blocks, bstack))
  {
    hide BuildFunc, GoodFunc, Nested;
    forall k | 0 <= k < |blocks| ensures BuildFunc(cx, d, blocks, bstack)[k].code == blocks[k].code { FuncApart(cx, d, blocks, bstack, k); }
  }

  lemma {:induction false} FuncsSame(cx: Context, ds: seq<FuncDecl>, blocks: seq<Block>, bstack: seq<nat>)
    requires Nested(blocks, bstack) && GoodFuncs(cx, ds, blocks, bstack)
    ensures SameCode(blocks, BuildFuncs(cx, ds, blocks, bstack))
  {
    hide BuildFuncs, GoodFuncs, Nested;
    forall k | 0 <= k < |blocks| ensures BuildFuncs(cx, ds, blocks, bstack)[k].code == blocks[k].code { FuncsApart(cx, ds, blocks, bstack, k); }
  }

  lemma {:induction false} UnitSame(cx: Context, u: Unit, blocks: seq<Block>)
    requires Nested(blocks, [0]) && GoodUnit(cx, u, blocks)
    ensures SameCode(blocks, BuildUnit(cx, u, blocks))
  {
    hide BuildFuncs, GoodFuncs, BuildFunc, GoodFunc, Nested;
    match u
    case OneFunc(d) => FuncSame(cx, d, blocks, [0]);
    case OneContract(n, ps, ds) =>
      TopWithin(blocks, [0]);
      ContractNested(cx, n, ps, blocks);
      FuncsSame(cx, ds, OpenContract(cx, n, ps, blocks), [0, |blocks|]);
  }

  lemma {:induction false} UnitsSame(cx: Context, us: seq<Unit>, blocks: seq<Block>)
    requires Nested(blocks, [0]) && GoodUnits(cx, us, blocks)
    ensures SameCode(blocks, BuildUnits(cx, us, blocks))
    decreases |us|
  {
    hide GoodUnit, BuildUnit, Nested;
    if us != [] {
      UnitSame(cx, us[0], blocks);
      UnitsSame(cx, us[1..], BuildUnit(cx, us[0], blocks));
    }
  }

  /** The block of a function holds the code of its statements. */
  lemma {:induction false} FuncHolds(cx: Context, d: FuncDecl, stage: seq<Block>, bstack: seq<nat>, final: seq<Block>)
    requires Nested(stage, bstack) && GoodFunc(cx, d, stage, bstack) && SameCode(BuildFunc(cx, d, stage, bstack), final)
    ensures bstack != [] && Top(bstack) < |stage| && Nested(OpenFunc(d, stage, Top(bstack)), bstack + [|stage|])
    ensures Holds(cx, FuncLocal(d, stage, bstack), final, 0, |stage|, d.body, false)
  {
    hide Nested, Local, HeadBlock, BuildAll, GoodStmts, Implements, CodeLenAll, Named;
    OpenNested(d, stage, bstack);
    TopWithin(stage, bstack);
    var local, o, k := FuncLocal(d, stage, bstack), OpenFunc(d, stage, Top(bstack)), |stage|;
    HeadCode(d, stage, Top(bstack));
    BuildImplements(cx, local, o, k, d.body);
    var bs := BuildFunc(cx, d, stage, bstack);
    assert bs == BuildAll(cx, local, d.body, o, k);
    HoldsLater(cx, local, bs, final, k, d.body);
  }

  lemma {:induction false} FuncIsFaithful<V(!new), W(!new)>(m: Semantics<V, W>, cx: Context, d: FuncDecl, stage: seq<Block>, bstack: seq<nat>, final: seq<Block>)
    requires Regular(m) && Nested(stage, bstack) && GoodFunc(cx, d, stage, bstack) && SameCode(BuildFunc(cx, d, stage, bstack), final)
    ensures FuncFaithful(m, cx, d, stage, bstack, final)
  {
    hide Nested, FuncLocal, OpenFunc, BuildFunc, GoodStmts, Implements, StmtsMeaning, Answers, CallBlock, RunnableAll, Regular;
    OpenNested(d, stage, bstack);
    TopWithin(stage, bstack);
    var local, k := FuncLocal(d, stage, bstack), |stage|;
    FuncHolds(cx, d, stage, bstack, final);
    if RunnableAll(cx, local, d.body) {
      forall stack: seq<V>, params: seq<V>, w: W, fuel: nat
        ensures Answers(CallBlock(m, final, k, |d.results|, stack, params, w, fuel), StmtsMeaning(m, cx, local, d.body, w, fuel), stack, |d.results|)
      {
        FunctionMeans(m, cx, local, final, 0, k, d.body, stack, params, |d.results|, w, fuel);
      }
    }
  }

  lemma TopWithin(blocks: seq<Block>, bstack: seq<nat>)
    requires Nested(blocks, bstack)
    ensures bstack != [] && Top(bstack) < |blocks| && 0 < |blocks|
  {
  }

  lemma HeadCode(d: FuncDecl, blocks: seq<Block>, b: nat)
    requires b < |blocks|
    ensures OpenFunc(d, blocks, b)[|blocks|].code == []
  {
    HeadParent(d, b);
  }

  lemma {:induction false} HoldsLater(cx: Context, local: Env, a: seq<Block>, a': seq<Block>, k: nat, ss: Stmts)
    requires 0 < k < |a| && SameCode(a, a') && GoodStmts(cx, local, ss)
    requires Implements(cx, local, a, k, 0, ss) && |a[k].code| == CodeLenAll(cx, local, ss)
    ensures Holds(cx, local, a', 0, k, ss, false)
  {
    hide Implements, CodeLenAll;
    assert Grown(a, a', k);
    ImplementsKept(cx, local, a, a', k, k, 0, ss);
  }

  lemma {:induction false} FuncsAreFaithful<V(!new), W(!new)>(m: Semantics<V, W>, cx: Context, ds: seq<FuncDecl>, stage: seq<Block>, bstack: seq<nat>, final: seq<Block>)
    requires Regular(m) && Nested(stage, bstack) && GoodFuncs(cx, ds, stage, bstack) && SameCode(BuildFuncs(cx, ds, stage, bstack), final)
    ensures FuncsFaithful(m, cx, ds, stage, bstack, final)
    decreases |ds|
  {
    hide Nested, GoodFunc, BuildFunc, FuncFaithful, Regular;
    if ds != [] {
      var next := BuildFunc(cx, ds[0], stage, bstack);
      FuncsSame(cx, ds[1..], next, bstack);
      FuncIsFaithful(m, cx, ds[0], stage, bstack, final);
      FuncsAreFaithful(m, cx, ds[1..], next, bstack, final);
    }
  }

  lemma {:induction false} UnitsAreFaithful<V(!new), W(!new)>(m: Semantics<V, W>, cx: Context, us: seq<Unit>, stage: seq<Block>, final: seq<Block>)
    requires Regular(m) && Nested(stage, [0]) && GoodUnits(cx, us, stage) && SameCode(BuildUnits(cx, us, stage), final)
    ensures UnitsFaithful(m, cx, us, stage, final)
    decreases |us|
  {
    hide Nested, GoodFunc, BuildFunc, FuncFaithful, FuncsFaithful, GoodFuncs, BuildFuncs, Regular;
    if us != [] {
      var next := BuildUnit(cx, us[0], stage);
      UnitsSame(cx, us[1..], next);
      match us[0] {
        case OneFunc(d) => FuncIsFaithful(m, cx, d, stage, [0], final);
        case OneContract(n, ps, ds) =>
          TopWithin(stage, [0]);
          ContractNested(cx, n, ps, stage);
          FuncsAreFaithful(m, cx, ds, OpenContract(cx, n, ps, stage), [0, |stage|], final);
      }
      UnitsAreFaithful(m, cx, us[1..], next, final);
    }
  }

  /** From text to behaviour: CompileBlock succeeds on the text of any list of
      functions and contracts, and on the virtual machine every function of the
      result does what its statements mean. */
  lemma {:induction false} TextIsFaithful<V(!new), W(!new)>(m: Semantics<V, W>, cx: Context, us: seq<Unit>)
    requires Regular(m) && GoodUnits(cx, us, [EmptyBlock(None)])
    ensures var lex := UnitsText(us);
            Valid(lex, Initial()) && Compile(lex, cx, Initial()).Good? &&
            UnitsFaithful(m, cx, us, [EmptyBlock(None)], Compile(lex, cx, Initial()).value)
  {
    hide Valid, Compile, UnitsText, BuildUnits, UnitsFaithful, GoodUnits, Regular;
    TextCompiles(cx, us);
    UnitsAreFaithful(m, cx, us, [EmptyBlock(None)], BuildUnits(cx, us, [EmptyBlock(None)]));
  }
}

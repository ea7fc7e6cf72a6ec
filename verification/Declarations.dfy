/**
 Whole texts: functions with parameters, results and local variables, and
 contracts with sections and functions. CompileBlock on the text of any list of them
 returns exactly the blocks of the reference translation.
 */
module Declarations {
  import opened Wrappers
  import opened Lexemes
  import opened Initializers
  import opened Expressions
  import opened ExpressionTrees
  import opened ExpressionCompilation
  import opened Blocks
  import opened Sections
  import opened Statements
  import opened StatementCompilation

  datatype Typing = Typing(name: string, typ: string)

  /** The last parameter of a variadic function takes a list of arguments. Without parameters
      the parentheses can be left out, as in `action {`. */
  datatype FuncDecl = FuncDecl(name: string, params: seq<Typing>, variadic: bool, bare: bool, results: seq<string>, locals: seq<Typing>, body: Stmts) {
    predicate TailFits() {
      variadic ==> params != [] && params[|params| - 1].typ == ARRAY_TYPE
    }
  }

  datatype Unit = OneFunc(f: FuncDecl) | OneContract(name: string, sections: seq<Section>, funcs: seq<FuncDecl>)

  // ----- texts -----

  function TypingTokens(vs: seq<Typing>): seq<Lexeme> {
    if vs == [] then []
    else [Ident(vs[0].name), TypeName(vs[0].typ)] + (if |vs| == 1 then [] else [Comma]) + TypingTokens(vs[1..])
  }

  /** The parameters; `...` stands for the type of the last one of a variadic function. */
  function ParamTokens(d: FuncDecl): seq<Lexeme> {
    if !d.variadic || d.params == [] then TypingTokens(d.params)
    else
      var front, last := d.params[..|d.params| - 1], d.params[|d.params| - 1];
      TypingTokens(front) + ((if front == [] then [] else [Comma]) + [Ident(last.name), Key(KwTail)])
  }

  function ResultTokens(ts: seq<string>): seq<Lexeme> {
    if ts == [] then [] else [TypeName(ts[0])] + (if |ts| == 1 then [] else [Comma]) + ResultTokens(ts[1..])
  }

  function LocalTokens(vs: seq<Typing>): seq<Lexeme> {
    if vs == [] then [] else [Key(KwVar)] + (TypingTokens(vs) + [NewLine])
  }

  function ParenTokens(d: FuncDecl): seq<Lexeme> {
    if d.bare && d.params == [] then [] else [LPar] + (ParamTokens(d) + [RPar])
  }

  function HeadText(d: FuncDecl): seq<Lexeme> {
    [Key(KwFunc), Ident(d.name)] + (ParenTokens(d) + (ResultTokens(d.results) + ([LCurly, NewLine] + LocalTokens(d.locals))))
  }

  function FuncText(d: FuncDecl): seq<Lexeme> {
    HeadText(d) + (StmtsText(d.body) + [RCurly, NewLine])
  }

  function FuncsText(ds: seq<FuncDecl>): seq<Lexeme> {
    if ds == [] then [] else FuncText(ds[0]) + FuncsText(ds[1..])
  }

  function UnitText(u: Unit): seq<Lexeme> {
    match u
    case OneFunc(d) => FuncText(d)
    case OneContract(n, ps, ds) => [Key(KwContract), Ident(n), LCurly, NewLine] + (SectionsText(ps) + (FuncsText(ds) + [RCurly, NewLine]))
  }

  function UnitsText(us: seq<Unit>): seq<Lexeme> {
    if us == [] then [] else UnitText(us[0]) + UnitsText(us[1..])
  }

  // ----- the reference translation -----

  /** A variable gets the next slot; a parameter is also part of the header. */
  function Declared(b: Block, v: Typing, param: bool): Block {
    var info := if param && b.info.FuncInfo? then b.info.(params := b.info.params + [Some(v.typ)]) else b.info;
    b.(objects := b.objects[v.name := VarEntry(|b.vars|)], vars := b.vars + [Some(v.typ)], info := info)
  }

  function DeclaredAll(b: Block, vs: seq<Typing>, param: bool): Block
    decreases |vs|
  {
    if vs == [] then b else DeclaredAll(Declared(b, vs[0], param), vs[1..], param)
  }

  function HeadBlock(d: FuncDecl, parent: nat): Block {
    var b := DeclaredAll(EmptyBlock(Some(parent)).(info := FuncInfo(d.name, [], [], false)), d.params, true);
    DeclaredAll(WithResults(WithTail(b, d.variadic), d.results), d.locals, false)
  }

  function WithTail(f: Block, variadic: bool): Block {
    if variadic && f.info.FuncInfo? then f.(info := f.info.(variadic := true)) else f
  }

  function WithResults(f: Block, ts: seq<string>): Block {
    if f.info.FuncInfo? then f.(info := f.info.(results := f.info.results + ts)) else f
  }

  /** A new child `f` of block `b` under the given name. */
  function Named(blocks: seq<Block>, b: nat, name: string, f: Block): (r: seq<Block>)
    requires b < |blocks|
    ensures |r| == |blocks| + 1
  {
    var bs := AddChild(blocks, b)[|blocks| := f];
    bs[b := bs[b].(objects := bs[b].objects[name := FuncEntry(|blocks|)])]
  }

  /** The blocks with the header of `d` as a new child of block `b`. */
  function OpenFunc(d: FuncDecl, blocks: seq<Block>, b: nat): (r: seq<Block>)
    requires b < |blocks|
    ensures |r| == |blocks| + 1
  {
    Named(blocks, b, d.name, HeadBlock(d, b))
  }

  /** The names that are visible in the body of `d`. */
  ghost function FuncLocal(d: FuncDecl, blocks: seq<Block>, bstack: seq<nat>): Env
    requires bstack != [] && Top(bstack) < |blocks| && Nested(OpenFunc(d, blocks, Top(bstack)), bstack + [|blocks|])
  {
    Local(OpenFunc(d, blocks, Top(bstack)), bstack + [|blocks|])
  }

  lemma {:induction false} OpenNested(d: FuncDecl, blocks: seq<Block>, bstack: seq<nat>)
    requires Nested(blocks, bstack)
    ensures Nested(OpenFunc(d, blocks, Top(bstack)), bstack + [|blocks|])
  {
    var o, n := OpenFunc(d, blocks, Top(bstack)), |blocks|;
    HeadParent(d, Top(bstack));
    NestedEmit(blocks, o, bstack);
    assert (bstack + [n])[..|bstack|] == bstack;
  }

  lemma {:induction false} DeclaredParent(b: Block, vs: seq<Typing>, param: bool)
    ensures var r := DeclaredAll(b, vs, param);
            r.parent == b.parent && r.code == b.code && r.children == b.children && r.info.FuncInfo? == b.info.FuncInfo?
    decreases |vs|
  {
    if vs != [] { DeclaredParent(Declared(b, vs[0], param), vs[1..], param); }
  }

  lemma {:induction false} HeadParent(d: FuncDecl, parent: nat)
    ensures var h := HeadBlock(d, parent); h.parent == Some(parent) && h.code == [] && h.children == [] && h.info.FuncInfo?
  {
    hide DeclaredAll;
    var b0 := EmptyBlock(Some(parent)).(info := FuncInfo(d.name, [], [], false));
    DeclaredParent(b0, d.params, true);
    var b := DeclaredAll(b0, d.params, true);
    DeclaredParent(WithResults(WithTail(b, d.variadic), d.results), d.locals, false);
  }

  // ----- headers -----

  /** The machine while it reads a header: only the new block `f` changes. */
  function Heading(m: Machine, name: string, i: nat, cur: State, f: Block): Machine
    requires m.bstack != [] && Top(m.bstack) < |m.blocks|
  {
    m.(i := i, cur := cur, stack := m.stack + [m.cur], bstack := m.bstack + [|m.blocks|],
       blocks := Named(m.blocks, Top(m.bstack), name, f))
  }

  predicate HeaderAct(act: Act) {
    act.DoNothing? || act.DoParam? || act.DoType? || act.DoTail? || act.DoResult?
  }

  lemma {:induction false} HeaderTurn(lex: seq<Lexeme>, cx: Context, m: Machine, name: string, i: nat, cur: State, f: Block, next: State, act: Act, f': Block)
    requires m.bstack != [] && Top(m.bstack) < |m.blocks| && Valid(lex, Heading(m, name, i, cur, f))
    requires i < |lex| && Table(cur, lex[i]) == Goto(next, act) && HeaderAct(act)
    requires if act.DoNothing? then f' == f else TopAct(cx, act, next, f, lex[i]) == Good(f')
    ensures RunsTo(lex, cx, Heading(m, name, i, cur, f), Heading(m, name, i + 1, next, f'))
  {
    hide Valid, Nested, Table, TopAct;
    var h := Heading(m, name, i, cur, f);
    ValidNested(lex, h);
    assert h.blocks[|m.blocks| := f'] == Named(m.blocks, Top(m.bstack), name, f');
    GotoTurn(lex, cx, h, next, act, Heading(m, name, i + 1, next, f'));
  }

  /** One variable with its type, as a parameter or as a local variable. */
  lemma {:induction false} TypingRun(lex: seq<Lexeme>, cx: Context, m: Machine, name: string, i: nat, f: Block, v: Typing, param: bool)
    requires m.bstack != [] && Top(m.bstack) < |m.blocks|
    requires Valid(lex, Heading(m, name, i, if param then InParam else InVar, f)) && f.info.FuncInfo?
    requires At(lex, i, [Ident(v.name), TypeName(v.typ)])
    ensures var st := if param then InParam else InVar;
            RunsTo(lex, cx, Heading(m, name, i, st, f), Heading(m, name, i + 2, st, Declared(f, v, param)))
  {
    hide Valid, Heading, At, RunsTo, Declared;
    var st, st' := if param then InParam else InVar, if param then InParamType else InVarType;
    AtIndex(lex, i, [Ident(v.name), TypeName(v.typ)], 0);
    AtIndex(lex, i, [Ident(v.name), TypeName(v.typ)], 1);
    HeadingTyped(lex, m, name, i, st, f);
    var f1 := TopAct(cx, DoParam, st', f, lex[i]).value;
    HeaderTurn(lex, cx, m, name, i, st, f, st', DoParam, f1);
    TypingDone(cx, f, v, param, lex[i], lex[i + 1]);
    RunsValid(lex, cx, Heading(m, name, i, st, f), Heading(m, name, i + 1, st', f1));
    HeaderTurn(lex, cx, m, name, i + 1, st', f1, st, DoType, Declared(f, v, param));
    RunsTrans(lex, cx, Heading(m, name, i, st, f), Heading(m, name, i + 1, st', f1), Heading(m, name, i + 2, st, Declared(f, v, param)));
  }

  lemma RunsValid(lex: seq<Lexeme>, cx: Context, m: Machine, m': Machine)
    requires RunsTo(lex, cx, m, m')
    ensures Valid(lex, m) && Valid(lex, m')
  {
  }

  lemma RunsTrans(lex: seq<Lexeme>, cx: Context, m: Machine, m1: Machine, m2: Machine)
    requires RunsTo(lex, cx, m, m1) && RunsTo(lex, cx, m1, m2)
    ensures RunsTo(lex, cx, m, m2)
  {
  }

  /** Between two variables the new block has no variable without a type. */
  lemma {:induction false} HeadingTyped(lex: seq<Lexeme>, m: Machine, name: string, i: nat, cur: State, f: Block)
    requires m.bstack != [] && Top(m.bstack) < |m.blocks| && Valid(lex, Heading(m, name, i, cur, f))
    requires cur.InParam? || cur.InVar?
    ensures AllTyped(f.vars) && ParamsFirst(f) && (cur.InParam? && f.info.FuncInfo? ==> f.vars == f.info.params)
  {
    hide Nested, Family;
    var h, n := Heading(m, name, i, cur, f), |m.blocks|;
    assert h.blocks[n] == f && Top(h.bstack) == n;
    assert Fine(h.blocks[n], n == Top(h.bstack) && Waiting(cur));
  }

  lemma {:induction false} TypingDone(cx: Context, f: Block, v: Typing, param: bool, l: Lexeme, l': Lexeme)
    requires f.info.FuncInfo? && AllTyped(f.vars) && ParamsFirst(f) && l == Ident(v.name) && l' == TypeName(v.typ)
    ensures var st, st' := if param then InParam else InVar, if param then InParamType else InVarType;
            TopAct(cx, DoParam, st', f, l).Good? &&
            TopAct(cx, DoType, st, TopAct(cx, DoParam, st', f, l).value, l') == Good(Declared(f, v, param))
  {
    TypedLast(f.vars, v.typ);
    assert AllTyped(f.info.params);
    TypedLast(f.info.params, v.typ);
  }

  lemma TypedLast(vars: seq<Option<string>>, t: string)
    requires AllTyped(vars)
    ensures Typed(vars + [None], t) == vars + [Some(t)]
  {
  }

  lemma {:induction false} TypingsRun(lex: seq<Lexeme>, cx: Context, m: Machine, name: string, i: nat, f: Block, vs: seq<Typing>, param: bool)
    requires m.bstack != [] && Top(m.bstack) < |m.blocks|
    requires Valid(lex, Heading(m, name, i, if param then InParam else InVar, f)) && f.info.FuncInfo?
    requires At(lex, i, TypingTokens(vs))
    ensures var st := if param then InParam else InVar;
            RunsTo(lex, cx, Heading(m, name, i, st, f), Heading(m, name, i + |TypingTokens(vs)|, st, DeclaredAll(f, vs, param)))
    decreases |vs|
  {
    hide Valid, Heading, At, Declared, Compile;
    if vs != [] {
      var st, head, rest := if param then InParam else InVar, [Ident(vs[0].name), TypeName(vs[0].typ)], TypingTokens(vs[1..]);
      var comma: seq<Lexeme> := if |vs| == 1 then [] else [Comma];
      AtConcat(lex, i, head + comma, rest);
      AtConcat(lex, i, head, comma);
      TypingRun(lex, cx, m, name, i, f, vs[0], param);
      var f1 := Declared(f, vs[0], param);
      DeclaredFunc(f, vs[0], param);
      if |vs| > 1 {
        AtIndex(lex, i + 2, [Comma], 0);
        HeaderTurn(lex, cx, m, name, i + 2, st, f1, st, DoNothing, f1);
      }
      TypingsRun(lex, cx, m, name, i + 2 + |comma|, f1, vs[1..], param);
    }
  }

  lemma DeclaredFunc(f: Block, v: Typing, param: bool)
    ensures Declared(f, v, param).info.FuncInfo? == f.info.FuncInfo?
  {
  }

  lemma {:induction false} ResultsRun(lex: seq<Lexeme>, cx: Context, m: Machine, name: string, i: nat, f: Block, ts: seq<string>)
    requires m.bstack != [] && Top(m.bstack) < |m.blocks|
    requires Valid(lex, Heading(m, name, i, InResult, f)) && f.info.FuncInfo? && At(lex, i, ResultTokens(ts))
    ensures RunsTo(lex, cx, Heading(m, name, i, InResult, f), Heading(m, name, i + |ResultTokens(ts)|, InResult, WithResults(f, ts)))
    decreases |ts|
  {
    hide Valid, Heading, At, Compile;
    ResultsJoin(f, ts);
    if ts != [] {
      hide RunsTo, WithResults;
      var head, rest := [TypeName(ts[0])], ResultTokens(ts[1..]);
      var comma: seq<Lexeme> := if |ts| == 1 then [] else [Comma];
      AtConcat(lex, i, head + comma, rest);
      AtConcat(lex, i, head, comma);
      AtIndex(lex, i, head, 0);
      var f1, j := WithResults(f, [ts[0]]), i + 1 + |comma|;
      var h, h1, h2 := Heading(m, name, i, InResult, f), Heading(m, name, i + 1, InResult, f1), Heading(m, name, j, InResult, f1);
      ResultTaken(cx, f, ts[0]);
      HeaderTurn(lex, cx, m, name, i, InResult, f, InResult, DoResult, f1);
      RunsValid(lex, cx, h, h1);
      if |ts| > 1 {
        AtIndex(lex, i + 1, [Comma], 0);
        HeaderTurn(lex, cx, m, name, i + 1, InResult, f1, InResult, DoNothing, f1);
        RunsTrans(lex, cx, h, h1, h2);
        RunsValid(lex, cx, h, h2);
      }
      ResultsRun(lex, cx, m, name, j, f1, ts[1..]);
      RunsTrans(lex, cx, h, h2, Heading(m, name, i + |ResultTokens(ts)|, InResult, WithResults(f, ts)));
    }
  }

  lemma ResultsJoin(f: Block, ts: seq<string>)
    requires f.info.FuncInfo?
    ensures ts == [] ==> WithResults(f, ts) == f
    ensures ts != [] ==> WithResults(f, [ts[0]]).info.FuncInfo? && WithResults(WithResults(f, [ts[0]]), ts[1..]) == WithResults(f, ts)
  {
    if ts != [] {
      assert [ts[0]] + ts[1..] == ts;
      assert f.info.results + [ts[0]] + ts[1..] == f.info.results + ts;
    }
  }

  lemma ResultTaken(cx: Context, f: Block, t: string)
    requires f.info.FuncInfo?
    ensures TopAct(cx, DoResult, InResult, f, TypeName(t)) == Good(WithResults(f, [t]))
  {
  }

  /** The machine stands where a function may begin. */
  ghost predicate AtPlace(lex: seq<Lexeme>, m: Machine) {
    Valid(lex, m) && (m.cur.InRoot? || m.cur.InBody?) && m.fork == 0 && Closed(m.blocks)
  }

  /** The same, in a block without code: the root or a contract. */
  ghost predicate AtDecl(lex: seq<Lexeme>, m: Machine) {
    AtPlace(lex, m) && m.blocks[Top(m.bstack)].code == []
  }

  lemma AtPlaceFacts(lex: seq<Lexeme>, m: Machine)
    requires AtPlace(lex, m)
    ensures Valid(lex, m) && Nested(m.blocks, m.bstack) && |m.bstack| == |m.stack| + 1 && Top(m.bstack) < |m.blocks|
  {
  }

  /** The keyword and the name. */
  lemma {:induction false} NameRun(lex: seq<Lexeme>, cx: Context, m: Machine, name: string)
    requires AtPlace(lex, m) && m.bstack != [] && Top(m.bstack) < |m.blocks| && At(lex, m.i, [Key(KwFunc), Ident(name)])
    ensures RunsTo(lex, cx, m, Heading(m, name, m.i + 2, InParams, EmptyBlock(Some(Top(m.bstack))).(info := FuncInfo(name, [], [], false))))
  {
    hide Valid, Nested, At, Closed;
    AtPlaceFacts(lex, m);
    AtIndex(lex, m.i, [Key(KwFunc), Ident(name)], 0);
    AtIndex(lex, m.i, [Key(KwFunc), Ident(name)], 1);
    NestedPush(m);
    var m1 := PushBlock(m).(i := m.i + 1, cur := InFunc);
    OneStep(lex, cx, m, m1);
    NamedBlocks(cx, m.blocks, Top(m.bstack), name);
    var m2 := Heading(m, name, m.i + 2, InParams, EmptyBlock(Some(Top(m.bstack))).(info := FuncInfo(name, [], [], false)));
    GotoTurn(lex, cx, m1, InParams, DoName, m2);
  }

  lemma NamedBlocks(cx: Context, blocks: seq<Block>, b: nat, name: string)
    requires b < |blocks|
    ensures NameAct(cx, AddChild(blocks, b), |blocks|, b, InParams, name) ==
            Named(blocks, b, name, EmptyBlock(Some(b)).(info := FuncInfo(name, [], [], false)))
  {
  }

  lemma {:induction false} StayTurn(lex: seq<Lexeme>, cx: Context, m: Machine, next: State)
    requires Valid(lex, m) && m.i < |lex| && Table(m.cur, lex[m.i]) == Stay(next)
    ensures RunsTo(lex, cx, m, m.(cur := next))
  {
    hide Valid, Nested, Table;
    ValidNested(lex, m);
    OneStep(lex, cx, m, m.(cur := next));
  }

  lemma {:induction false} DeclaredLast(b: Block, vs: seq<Typing>, v: Typing, param: bool)
    ensures DeclaredAll(b, vs + [v], param) == Declared(DeclaredAll(b, vs, param), v, param)
    decreases |vs|
  {
    if vs == [] {
      assert [] + [v] == [v] && [v][1..] == [];
      assert DeclaredAll(Declared(b, v, param), [], param) == Declared(b, v, param);
    } else {
      assert (vs + [v])[1..] == vs[1..] + [v];
      DeclaredLast(Declared(b, vs[0], param), vs[1..], v, param);
    }
  }

  lemma {:induction false} TailDone(cx: Context, f: Block, v: Typing, l: Lexeme)
    requires f.info.FuncInfo? && AllTyped(f.vars) && ParamsFirst(f) && l == Ident(v.name) && v.typ == ARRAY_TYPE
    ensures TopAct(cx, DoParam, InParamType, f, l).Good?
    ensures TopAct(cx, DoTail, InTail, TopAct(cx, DoParam, InParamType, f, l).value, Key(KwTail)) == Good(WithTail(Declared(f, v, true), true))
  {
    assert AllTyped(f.info.params);
    TypedLast(f.vars, v.typ);
    TypedLast(f.info.params, v.typ);
    OneWaits(f.info.params);
  }

  lemma {:induction false} NoneWaits(vars: seq<Option<string>>)
    requires AllTyped(vars)
    ensures WaitingCount(vars) == 0
  {
    if vars != [] { NoneWaits(vars[..|vars| - 1]); }
  }

  lemma {:induction false} OneWaits(vars: seq<Option<string>>)
    requires AllTyped(vars)
    ensures WaitingCount(vars + [None]) == 1
  {
    NoneWaits(vars);
    assert (vars + [None])[..|vars|] == vars;
  }

  /** The last parameter of a variadic function. */
  lemma {:induction false} TailRun(lex: seq<Lexeme>, cx: Context, m: Machine, name: string, i: nat, f: Block, v: Typing)
    requires m.bstack != [] && Top(m.bstack) < |m.blocks|
    requires Valid(lex, Heading(m, name, i, InParam, f)) && f.info.FuncInfo? && v.typ == ARRAY_TYPE
    requires At(lex, i, [Ident(v.name), Key(KwTail)])
    ensures RunsTo(lex, cx, Heading(m, name, i, InParam, f), Heading(m, name, i + 2, InTail, WithTail(Declared(f, v, true), true)))
  {
    hide Valid, Heading, At, RunsTo, Declared, WithTail;
    AtIndex(lex, i, [Ident(v.name), Key(KwTail)], 0);
    AtIndex(lex, i, [Ident(v.name), Key(KwTail)], 1);
    HeadingTyped(lex, m, name, i, InParam, f);
    TailDone(cx, f, v, lex[i]);
    var f1 := TopAct(cx, DoParam, InParamType, f, lex[i]).value;
    HeaderTurn(lex, cx, m, name, i, InParam, f, InParamType, DoParam, f1);
    RunsValid(lex, cx, Heading(m, name, i, InParam, f), Heading(m, name, i + 1, InParamType, f1));
    HeaderTurn(lex, cx, m, name, i + 1, InParamType, f1, InTail, DoTail, WithTail(Declared(f, v, true), true));
    RunsTrans(lex, cx, Heading(m, name, i, InParam, f), Heading(m, name, i + 1, InParamType, f1),
              Heading(m, name, i + 2, InTail, WithTail(Declared(f, v, true), true)));
  }

  /** All parameters, with `...` or without. */
  lemma {:induction false} ParamsRun(lex: seq<Lexeme>, cx: Context, m: Machine, d: FuncDecl, i: nat, f: Block)
    requires m.bstack != [] && Top(m.bstack) < |m.blocks| && d.TailFits()
    requires Valid(lex, Heading(m, d.name, i, InParam, f)) && f.info.FuncInfo? && At(lex, i, ParamTokens(d))
    ensures RunsTo(lex, cx, Heading(m, d.name, i, InParam, f),
                   Heading(m, d.name, i + |ParamTokens(d)|, if d.variadic then InTail else InParam, WithTail(DeclaredAll(f, d.params, true), d.variadic)))
  {
    hide Valid, Heading, At, Compile, TypingTokens, DeclaredAll, RunsTo;
    if !d.variadic {
      TypingsRun(lex, cx, m, d.name, i, f, d.params, true);
    } else {
      var front, last := d.params[..|d.params| - 1], d.params[|d.params| - 1];
      assert d.params == front + [last];
      var t, comma := TypingTokens(front), if front == [] then [] else [Comma];
      AtConcat(lex, i, t, comma + [Ident(last.name), Key(KwTail)]);
      AtConcat(lex, i + |t|, comma, [Ident(last.name), Key(KwTail)]);
      TypingsRun(lex, cx, m, d.name, i, f, front, true);
      var f1, j, h := DeclaredAll(f, front, true), i + |t|, Heading(m, d.name, i, InParam, f);
      DeclaredParent(f, front, true);
      RunsValid(lex, cx, h, Heading(m, d.name, j, InParam, f1));
      if front != [] {
        AtIndex(lex, j, [Comma], 0);
        HeaderTurn(lex, cx, m, d.name, j, InParam, f1, InParam, DoNothing, f1);
        RunsValid(lex, cx, Heading(m, d.name, j, InParam, f1), Heading(m, d.name, j + 1, InParam, f1));
        RunsTrans(lex, cx, h, Heading(m, d.name, j, InParam, f1), Heading(m, d.name, j + 1, InParam, f1));
      }
      var k := j + |comma|;
      TailRun(lex, cx, m, d.name, k, f1, last);
      DeclaredLast(f, front, last, true);
      RunsTrans(lex, cx, h, Heading(m, d.name, k, InParam, f1), Heading(m, d.name, k + 2, InTail, WithTail(Declared(f1, last, true), true)));
    }
  }

  /** The parameters with their parentheses, or neither. */
  lemma {:induction false} ParensRun(lex: seq<Lexeme>, cx: Context, m: Machine, d: FuncDecl, i: nat, f: Block)
    requires m.bstack != [] && Top(m.bstack) < |m.blocks| && d.TailFits()
    requires Valid(lex, Heading(m, d.name, i, InParams, f)) && f.info.FuncInfo?
    requires At(lex, i, ParenTokens(d)) && i + |ParenTokens(d)| < |lex| && !lex[i + |ParenTokens(d)|].LPar? && !lex[i + |ParenTokens(d)|].NewLine?
    ensures RunsTo(lex, cx, Heading(m, d.name, i, InParams, f),
                   Heading(m, d.name, i + |ParenTokens(d)|, InResult, WithTail(DeclaredAll(f, d.params, true), d.variadic)))
  {
    hide Valid, Heading, At, RunsTo, ParamTokens, DeclaredAll;
    var h, f1, t := Heading(m, d.name, i, InParams, f), WithTail(DeclaredAll(f, d.params, true), d.variadic), ParamTokens(d);
    if d.bare && d.params == [] {
      NothingDeclared(f);
      HeadingStays(lex, cx, m, d.name, i, f);
    } else {
      AtConcat(lex, i, [LPar], t + [RPar]);
      AtConcat(lex, i + 1, t, [RPar]);
      AtIndex(lex, i, [LPar], 0);
      var i1, st := i + 1 + |t|, if d.variadic then InTail else InParam;
      AtIndex(lex, i1, [RPar], 0);
      HeaderTurn(lex, cx, m, d.name, i, InParams, f, InParam, DoNothing, f);
      var h1, h2 := Heading(m, d.name, i + 1, InParam, f), Heading(m, d.name, i1, st, f1);
      RunsValid(lex, cx, h, h1);
      ParamsRun(lex, cx, m, d, i + 1, f);
      RunsValid(lex, cx, h1, h2);
      HeaderTurn(lex, cx, m, d.name, i1, st, f1, InResult, DoNothing, f1);
      RunsTrans(lex, cx, h, h1, h2);
      RunsTrans(lex, cx, h, h2, Heading(m, d.name, i1 + 1, InResult, f1));
    }
  }

  lemma NothingDeclared(f: Block)
    ensures WithTail(DeclaredAll(f, [], true), false) == f
  {
  }

  lemma {:induction false} HeadingStays(lex: seq<Lexeme>, cx: Context, m: Machine, name: string, i: nat, f: Block)
    requires m.bstack != [] && Top(m.bstack) < |m.blocks| && Valid(lex, Heading(m, name, i, InParams, f))
    requires i < |lex| && !lex[i].LPar? && !lex[i].NewLine?
    ensures RunsTo(lex, cx, Heading(m, name, i, InParams, f), Heading(m, name, i, InResult, f))
  {
    hide Valid, Named;
    StayTurn(lex, cx, Heading(m, name, i, InParams, f), InResult);
  }

  lemma {:induction false} ResultsLayout(lex: seq<Lexeme>, i: nat, ts: seq<string>)
    requires At(lex, i, ResultTokens(ts) + [LCurly, NewLine])
    ensures At(lex, i, ResultTokens(ts)) && At(lex, i + |ResultTokens(ts)|, [LCurly, NewLine])
    ensures i < |lex| && !lex[i].LPar? && !lex[i].NewLine?
  {
    hide At;
    AtConcat(lex, i, ResultTokens(ts), [LCurly, NewLine]);
    AtIndex(lex, i, ResultTokens(ts) + [LCurly, NewLine], 0);
  }

  /** Parameters and results, up to the first line of the body. */
  lemma {:induction false} SignatureRun(lex: seq<Lexeme>, cx: Context, m: Machine, d: FuncDecl, i: nat, f: Block)
    requires m.bstack != [] && Top(m.bstack) < |m.blocks| && d.TailFits()
    requires Valid(lex, Heading(m, d.name, i, InParams, f)) && f.info.FuncInfo?
    requires At(lex, i, ParenTokens(d) + (ResultTokens(d.results) + [LCurly, NewLine]))
    ensures var f' := WithResults(WithTail(DeclaredAll(f, d.params, true), d.variadic), d.results);
            RunsTo(lex, cx, Heading(m, d.name, i, InParams, f),
                   Heading(m, d.name, i + |ParenTokens(d)| + |ResultTokens(d.results)| + 2, InBody, f'))
  {
    hide Valid, Heading, At, RunsTo, ParenTokens, ResultTokens, DeclaredAll, WithResults;
    var t, r := ParenTokens(d), ResultTokens(d.results);
    AtConcat(lex, i, t, r + [LCurly, NewLine]);
    ResultsLayout(lex, i + |t|, d.results);
    ParensRun(lex, cx, m, d, i, f);
    var f1, i1 := WithTail(DeclaredAll(f, d.params, true), d.variadic), i + |t|;
    var h, h1 := Heading(m, d.name, i, InParams, f), Heading(m, d.name, i1, InResult, f1);
    DeclaredParent(f, d.params, true);
    RunsValid(lex, cx, h, h1);
    ResultsRun(lex, cx, m, d.name, i1, f1, d.results);
    var f2 := WithResults(f1, d.results);
    var h2 := Heading(m, d.name, i1 + |r|, InResult, f2);
    RunsValid(lex, cx, h1, h2);
    CurlyRun(lex, cx, m, d.name, i1 + |r|, f2);
    RunsTrans(lex, cx, h, h1, h2);
    RunsTrans(lex, cx, h, h2, Heading(m, d.name, i1 + |r| + 2, InBody, f2));
  }

  lemma {:induction false} CurlyRun(lex: seq<Lexeme>, cx: Context, m: Machine, name: string, i: nat, f: Block)
    requires m.bstack != [] && Top(m.bstack) < |m.blocks|
    requires Valid(lex, Heading(m, name, i, InResult, f)) && At(lex, i, [LCurly, NewLine])
    ensures RunsTo(lex, cx, Heading(m, name, i, InResult, f), Heading(m, name, i + 2, InBody, f))
  {
    hide Valid, At, Compile, Named;
    AtIndex(lex, i, [LCurly, NewLine], 0);
    AtIndex(lex, i, [LCurly, NewLine], 1);
    StayTurn(lex, cx, Heading(m, name, i, InResult, f), InBlock);
    HeaderTurn(lex, cx, m, name, i, InBlock, f, InBody, DoNothing, f);
    HeaderTurn(lex, cx, m, name, i + 1, InBody, f, InBody, DoNothing, f);
  }

  lemma {:induction false} LocalsRun(lex: seq<Lexeme>, cx: Context, m: Machine, name: string, i: nat, f: Block, vs: seq<Typing>)
    requires m.bstack != [] && Top(m.bstack) < |m.blocks|
    requires Valid(lex, Heading(m, name, i, InBody, f)) && f.info.FuncInfo? && At(lex, i, LocalTokens(vs))
    ensures RunsTo(lex, cx, Heading(m, name, i, InBody, f), Heading(m, name, i + |LocalTokens(vs)|, InBody, DeclaredAll(f, vs, false)))
  {
    hide Valid, Heading, At, Compile, TypingTokens;
    if vs != [] {
      hide DeclaredAll;
      var t := TypingTokens(vs);
      AtConcat(lex, i, [Key(KwVar)], t + [NewLine]);
      AtConcat(lex, i + 1, t, [NewLine]);
      AtIndex(lex, i, [Key(KwVar)], 0);
      AtIndex(lex, i + 1 + |t|, [NewLine], 0);
      HeaderTurn(lex, cx, m, name, i, InBody, f, InVar, DoNothing, f);
      TypingsRun(lex, cx, m, name, i + 1, f, vs, false);
      var f1 := DeclaredAll(f, vs, false);
      HeaderTurn(lex, cx, m, name, i + 1 + |t|, InVar, f1, InBody, DoNothing, f1);
    }
  }

  lemma {:induction false} HeaderLayout(lex: seq<Lexeme>, i: nat, d: FuncDecl)
    requires At(lex, i, HeadText(d))
    ensures At(lex, i, [Key(KwFunc), Ident(d.name)])
    ensures At(lex, i + 2, ParenTokens(d) + (ResultTokens(d.results) + [LCurly, NewLine]))
    ensures At(lex, i + |HeadText(d)| - |LocalTokens(d.locals)|, LocalTokens(d.locals))
    ensures |HeadText(d)| == 2 + |ParenTokens(d)| + |ResultTokens(d.results)| + 2 + |LocalTokens(d.locals)|
  {
    hide At, ParenTokens, ResultTokens, LocalTokens;
    var t, r, l := ParenTokens(d), ResultTokens(d.results), LocalTokens(d.locals);
    var sig := t + (r + [LCurly, NewLine]);
    assert HeadText(d) == [Key(KwFunc), Ident(d.name)] + (sig + l);
    AtConcat(lex, i, [Key(KwFunc), Ident(d.name)], sig + l);
    AtConcat(lex, i + 2, sig, l);
  }

  /** The whole header: the new block is the one of the reference translation. */
  lemma {:induction false} HeaderRun(lex: seq<Lexeme>, cx: Context, m: Machine, d: FuncDecl)
    requires AtPlace(lex, m) && m.bstack != [] && Top(m.bstack) < |m.blocks| && At(lex, m.i, HeadText(d)) && d.TailFits()
    ensures RunsTo(lex, cx, m, Heading(m, d.name, m.i + |HeadText(d)|, InBody, HeadBlock(d, Top(m.bstack))))
  {
    hide Valid, Heading, At, Compile, ParenTokens, ResultTokens, LocalTokens, HeadText, DeclaredAll, AtPlace, WithResults;
    HeaderLayout(lex, m.i, d);
    NameRun(lex, cx, m, d.name);
    var f := EmptyBlock(Some(Top(m.bstack))).(info := FuncInfo(d.name, [], [], false));
    SignatureRun(lex, cx, m, d, m.i + 2, f);
    var f1 := WithResults(WithTail(DeclaredAll(f, d.params, true), d.variadic), d.results);
    DeclaredParent(f, d.params, true);
    ResultsFunc(WithTail(DeclaredAll(f, d.params, true), d.variadic), d.results);
    LocalsRun(lex, cx, m, d.name, m.i + |HeadText(d)| - |LocalTokens(d.locals)|, f1, d.locals);
  }

  lemma ResultsFunc(f: Block, ts: seq<string>)
    ensures WithResults(f, ts).info.FuncInfo? == f.info.FuncInfo?
  {
  }

  // ----- functions -----

  ghost predicate GoodFunc(cx: Context, d: FuncDecl, blocks: seq<Block>, bstack: seq<nat>)
    requires Nested(blocks, bstack)
  {
    OpenNested(d, blocks, bstack);
    d.TailFits() && GoodStmts(cx, FuncLocal(d, blocks, bstack), d.body)
  }

  /** The blocks after the function has been added to the block on top of `bstack`. */
  ghost function BuildFunc(cx: Context, d: FuncDecl, blocks: seq<Block>, bstack: seq<nat>): (r: seq<Block>)
    requires Nested(blocks, bstack) && GoodFunc(cx, d, blocks, bstack)
    ensures Nested(r, bstack) && |r| > |blocks|
  {
    OpenNested(d, blocks, bstack);
    var o := OpenFunc(d, blocks, Top(bstack));
    var r := BuildAll(cx, FuncLocal(d, blocks, bstack), d.body, o, |blocks|);
    BuildAllNames(cx, FuncLocal(d, blocks, bstack), d.body, o, |blocks|);
    HeadParent(d, Top(bstack));
    NestedEmit(blocks, r, bstack);
    r
  }

  lemma {:induction false} OnlyVars(b: Block, vs: seq<Typing>, param: bool)
    requires forall n :: n in b.objects ==> b.objects[n].VarEntry?
    ensures forall n :: n in DeclaredAll(b, vs, param).objects ==> DeclaredAll(b, vs, param).objects[n].VarEntry?
    decreases |vs|
  {
    if vs != [] { OnlyVars(Declared(b, vs[0], param), vs[1..], param); }
  }

  lemma {:induction false} OpenClosed(d: FuncDecl, blocks: seq<Block>, b: nat)
    requires b < |blocks| && Closed(blocks)
    ensures Closed(OpenFunc(d, blocks, b))
  {
    hide DeclaredAll;
    var f := EmptyBlock(Some(b)).(info := FuncInfo(d.name, [], [], false));
    OnlyVars(f, d.params, true);
    OnlyVars(WithResults(WithTail(DeclaredAll(f, d.params, true), d.variadic), d.results), d.locals, false);
  }

  lemma {:induction false} BodyReady(lex: seq<Lexeme>, cx: Context, m: Machine, d: FuncDecl, i: nat)
    requires AtPlace(lex, m) && Nested(m.blocks, m.bstack) && Nested(OpenFunc(d, m.blocks, Top(m.bstack)), m.bstack + [|m.blocks|])
    requires Valid(lex, Heading(m, d.name, i, InBody, HeadBlock(d, Top(m.bstack))))
    ensures AtStatement(lex, cx, FuncLocal(d, m.blocks, m.bstack), Heading(m, d.name, i, InBody, HeadBlock(d, Top(m.bstack))))
  {
    hide Valid, Local, Nested, Closed;
    TopIn(m.blocks, m.bstack);
    HeadParent(d, Top(m.bstack));
    OpenClosed(d, m.blocks, Top(m.bstack));
    var h := Heading(m, d.name, i, InBody, HeadBlock(d, Top(m.bstack)));
    assert Top(h.bstack) == |m.blocks|;
    ValidNested(lex, h);
  }

  /** The closing bracket of a function or a contract. */
  lemma {:induction false} CloseDecl(lex: seq<Lexeme>, cx: Context, m: Machine, c: Machine)
    requires Valid(lex, m) && Valid(lex, c) && c.cur.InBody? && c.fork == m.fork && c.i + 1 < |lex| && lex[c.i] == RCurly && lex[c.i + 1] == NewLine
    requires m.cur.InRoot? || m.cur.InBody?
    requires c.stack == m.stack + [m.cur] && m.bstack != [] && |c.bstack| == |m.bstack| + 1 && c.bstack[..|m.bstack|] == m.bstack
    ensures Top(m.bstack) < Top(c.bstack) < |c.blocks|
    ensures RunsTo(lex, cx, c, m.(i := c.i + 2, blocks := MoveContinue(c.blocks, Top(c.bstack), Top(m.bstack))))
  {
    hide Valid, MoveContinue;
    ValidNested(lex, c);
    NestedBelow(c.blocks, c.bstack);
    assert c.stack[..|c.stack| - 1] == m.stack && Below(c.bstack) == Top(m.bstack);
    var m1 := m.(i := c.i + 1, blocks := MoveContinue(c.blocks, Top(c.bstack), Top(m.bstack)));
    OneStep(lex, cx, c, m1);
    ValidNested(lex, m1);
    GotoTurn(lex, cx, m1, m1.cur, DoNothing, m1.(i := c.i + 2));
  }

  /** The machine in front of the closing bracket of a function. */
  function AtBracket(m: Machine, d: FuncDecl, blocks: seq<Block>): Machine {
    m.(i := m.i + |HeadText(d)| + |StmtsText(d.body)|, cur := InBody, stack := m.stack + [m.cur],
       bstack := m.bstack + [|m.blocks|], blocks := blocks)
  }

  lemma {:induction false} ToBracket(lex: seq<Lexeme>, cx: Context, m: Machine, d: FuncDecl)
    requires AtPlace(lex, m) && Nested(m.blocks, m.bstack) && GoodFunc(cx, d, m.blocks, m.bstack)
    requires At(lex, m.i, HeadText(d) + StmtsText(d.body))
    ensures RunsTo(lex, cx, m, AtBracket(m, d, BuildFunc(cx, d, m.blocks, m.bstack)))
  {
    hide Valid, Local, Nested, At, RunsTo, AtPlace, AtStatement, HeadText, StmtsText, BuildFunc, FuncLocal, Heading, OpenFunc, GoodFunc,
         GoodStmts, BuildAll, HeadBlock, AtBracket;
    AtPlaceFacts(lex, m);
    OpenNested(d, m.blocks, m.bstack);
    HeadedBody(cx, m, d);
    var i, bs := m.i + |HeadText(d)|, BuildFunc(cx, d, m.blocks, m.bstack);
    AtConcat(lex, m.i, HeadText(d), StmtsText(d.body));
    HeaderRun(lex, cx, m, d);
    var h := Heading(m, d.name, i, InBody, HeadBlock(d, Top(m.bstack)));
    RunsValid(lex, cx, m, h);
    BodyReady(lex, cx, m, d, i);
    HeadFresh(lex, m.i, d);
    BodyRun(lex, cx, FuncLocal(d, m.blocks, m.bstack), h, d.body);
    RunsTrans(lex, cx, m, h, AtBracket(m, d, bs));
  }

  /** The machine behind the header, and behind the body. */
  lemma HeadedBody(cx: Context, m: Machine, d: FuncDecl)
    requires Nested(m.blocks, m.bstack) && GoodFunc(cx, d, m.blocks, m.bstack) && m.bstack != [] && Top(m.bstack) < |m.blocks|
    ensures var h := Heading(m, d.name, m.i + |HeadText(d)|, InBody, HeadBlock(d, Top(m.bstack)));
            && h.bstack != [] && Top(h.bstack) < |h.blocks| && h.i == m.i + |HeadText(d)| && d.TailFits()
            && Nested(OpenFunc(d, m.blocks, Top(m.bstack)), m.bstack + [|m.blocks|])
            && GoodStmts(cx, FuncLocal(d, m.blocks, m.bstack), d.body)
            && h.(i := h.i + |StmtsText(d.body)|, blocks := BuildAll(cx, FuncLocal(d, m.blocks, m.bstack), d.body, h.blocks, Top(h.bstack))) ==
               AtBracket(m, d, BuildFunc(cx, d, m.blocks, m.bstack))
  {
    hide Local, HeadText, HeadBlock, StmtsText, BuildAll, GoodStmts, Named;
    OpenNested(d, m.blocks, m.bstack);
    var h := Heading(m, d.name, m.i + |HeadText(d)|, InBody, HeadBlock(d, Top(m.bstack)));
    assert Top(h.bstack) == |m.blocks|;
  }

  /** A function in any block: its blocks are those of the reference translation,
      except that a `continue` in front of it moves. */
  lemma {:induction false} AnyFuncRun(lex: seq<Lexeme>, cx: Context, m: Machine, d: FuncDecl)
    requires AtPlace(lex, m) && Nested(m.blocks, m.bstack) && GoodFunc(cx, d, m.blocks, m.bstack) && At(lex, m.i, FuncText(d))
    ensures var bs, top := BuildFunc(cx, d, m.blocks, m.bstack), Top(m.bstack);
            top < |m.blocks| && bs[top].code == m.blocks[top].code && Closed(bs) &&
            RunsTo(lex, cx, m, m.(i := m.i + |FuncText(d)|, blocks := MoveContinue(bs, |m.blocks|, top)))
  {
    hide Valid, At, Compile, HeadText, StmtsText, BuildFunc, GoodFunc, Closed, MoveContinue, Nested;
    AtPlaceFacts(lex, m);
    var t, bs := HeadText(d) + StmtsText(d.body), BuildFunc(cx, d, m.blocks, m.bstack);
    assert FuncText(d) == t + [RCurly, NewLine];
    AtConcat(lex, m.i, t, [RCurly, NewLine]);
    AtIndex(lex, m.i + |t|, [RCurly, NewLine], 0);
    AtIndex(lex, m.i + |t|, [RCurly, NewLine], 1);
    ToBracket(lex, cx, m, d);
    var c := AtBracket(m, d, bs);
    RunsValid(lex, cx, m, c);
    assert Top(c.bstack) == |m.blocks|;
    CloseDecl(lex, cx, m, c);
    RunsTrans(lex, cx, m, c, m.(i := c.i + 2, blocks := MoveContinue(bs, |m.blocks|, Top(m.bstack))));
    FuncApart(cx, d, m.blocks, m.bstack, Top(m.bstack));
    FuncClosed(cx, d, m.blocks, m.bstack);
  }

  lemma {:induction false} FuncClosed(cx: Context, d: FuncDecl, blocks: seq<Block>, bstack: seq<nat>)
    requires Nested(blocks, bstack) && GoodFunc(cx, d, blocks, bstack) && Closed(blocks)
    ensures Closed(BuildFunc(cx, d, blocks, bstack))
  {
    hide HeadBlock, BuildAll, GoodStmts, Local, Named, SameNames, Closed;
    OpenNested(d, blocks, bstack);
    var o, local := OpenFunc(d, blocks, Top(bstack)), FuncLocal(d, blocks, bstack);
    BuildAllNames(cx, local, d.body, o, |blocks|);
    OpenClosed(d, blocks, Top(bstack));
    NamesKept(o, BuildFunc(cx, d, blocks, bstack), bstack + [|blocks|]);
  }

  /** A function is compiled to the blocks of the reference translation. */
  lemma {:induction false} FuncRun(lex: seq<Lexeme>, cx: Context, m: Machine, d: FuncDecl)
    requires AtDecl(lex, m) && Nested(m.blocks, m.bstack) && GoodFunc(cx, d, m.blocks, m.bstack) && At(lex, m.i, FuncText(d))
    ensures var m' := m.(i := m.i + |FuncText(d)|, blocks := BuildFunc(cx, d, m.blocks, m.bstack));
            RunsTo(lex, cx, m, m') && AtDecl(lex, m')
  {
    hide Valid, At, Compile, FuncText, BuildFunc, GoodFunc, Closed;
    AnyFuncRun(lex, cx, m, d);
  }

  /** The blocks are those of the translation exactly if `code` does not end with `continue`;
      otherwise that command has moved from block `top` to block `n`. */
  predicate TakenIff(bs: seq<Block>, bs': seq<Block>, code: seq<Code>, n: nat, top: nat) {
    && (bs' == bs <==> !(code != [] && Last(code) == Continue))
    && (bs' != bs ==> top < |bs'| && n < |bs| && n < |bs'| && bs'[top].code + [Continue] == code && bs'[n].code == bs[n].code + [Continue])
  }

  /** The exception to the translation: a function inside a body takes away the
      `continue` that stands in front of it, and only that. */
  lemma {:induction false} NestedFuncTakesContinue(lex: seq<Lexeme>, cx: Context, m: Machine, d: FuncDecl)
    requires AtPlace(lex, m) && Nested(m.blocks, m.bstack) && GoodFunc(cx, d, m.blocks, m.bstack) && At(lex, m.i, FuncText(d))
    ensures Top(m.bstack) < |m.blocks|
    ensures var top, n, bs := Top(m.bstack), |m.blocks|, BuildFunc(cx, d, m.blocks, m.bstack);
            var code := m.blocks[top].code;
            var bs' := MoveContinue(bs, n, top);
            RunsTo(lex, cx, m, m.(i := m.i + |FuncText(d)|, blocks := bs')) && TakenIff(bs, bs', code, n, top)
  {
    hide Valid, At, Compile, FuncText, BuildFunc, GoodFunc, Closed, Nested;
    AtPlaceFacts(lex, m);
    AnyFuncRun(lex, cx, m, d);
    var top, n, bs := Top(m.bstack), |m.blocks|, BuildFunc(cx, d, m.blocks, m.bstack);
    var code := m.blocks[top].code;
    if code != [] && Last(code) == Continue {
      assert Front(code) + [Continue] == code;
      assert MoveContinue(bs, n, top)[top].code == Front(code);
    }
  }

  /** A function with another one at the end of its body. */
  function NestedText(d: FuncDecl, g: FuncDecl): seq<Lexeme> {
    (HeadText(d) + StmtsText(d.body)) + (FuncText(g) + [RCurly, NewLine])
  }

  /** The blocks of `d`, the first function of a text, when its body has been read. */
  ghost function OuterBlocks(cx: Context, d: FuncDecl): (r: seq<Block>)
    requires Nested([EmptyBlock(None)], [0]) && GoodFunc(cx, d, [EmptyBlock(None)], [0])
    ensures Nested(r, [0, 1]) && |r| > 1 && r == BuildFunc(cx, d, [EmptyBlock(None)], [0])
  {
    OpenNested(d, [EmptyBlock(None)], [0]);
    var o := OpenFunc(d, [EmptyBlock(None)], 0);
    BuildAllNames(cx, FuncLocal(d, [EmptyBlock(None)], [0]), d.body, o, 1);
    assert [0] + [1] == [0, 1];
    NestedEmit(o, BuildFunc(cx, d, [EmptyBlock(None)], [0]), [0, 1]);
    BuildFunc(cx, d, [EmptyBlock(None)], [0])
  }

  lemma {:induction false} ToInner(lex: seq<Lexeme>, cx: Context, d: FuncDecl)
    requires Nested([EmptyBlock(None)], [0]) && GoodFunc(cx, d, [EmptyBlock(None)], [0]) && At(lex, 0, HeadText(d) + StmtsText(d.body))
    ensures var c := AtBracket(Initial(), d, OuterBlocks(cx, d));
            c.bstack == [0, 1] && RunsTo(lex, cx, Initial(), c) && AtPlace(lex, c)
  {
    hide Valid, At, Compile, HeadText, StmtsText, BuildFunc, GoodFunc, Nested;
    var m := Initial();
    InitialValid(lex);
    ToBracket(lex, cx, m, d);
    FuncClosed(cx, d, m.blocks, m.bstack);
  }

  /** The closing brackets of the outer function. */
  lemma {:induction false} FromInner(lex: seq<Lexeme>, cx: Context, d: FuncDecl, c: Machine)
    requires Valid(lex, c) && c.cur.InBody? && c.fork == 0 && c.stack == [InRoot] && c.bstack == [0, 1] && c.i + 2 == |lex|
    requires lex[c.i] == RCurly && lex[c.i + 1] == NewLine && |c.blocks| > 1 && c.blocks[0].code == []
    ensures Compile(lex, cx, c) == Good(c.blocks)
  {
    hide Valid, Turn;
    var m := Initial();
    InitialValid(lex);
    assert [0, 1][..1] == [0] && [] + [InRoot] == [InRoot];
    CloseDecl(lex, cx, m, c);
    assert Top([0]) == 0 && Top([0, 1]) == 1;
    assert Compile(lex, cx, m.(i := |lex|, blocks := c.blocks)) == Good(c.blocks);
  }

  /** Whole texts reach the exception: CompileBlock accepts them, and a `continue` at
      the end of the body in front of the inner function is then the last command
      of the inner function. */
  lemma {:induction false} NestedTextCompiles(cx: Context, d: FuncDecl, g: FuncDecl)
    requires Nested([EmptyBlock(None)], [0]) && GoodFunc(cx, d, [EmptyBlock(None)], [0])
    requires GoodFunc(cx, g, OuterBlocks(cx, d), [0, 1])
    ensures var lex, outer := NestedText(d, g), OuterBlocks(cx, d);
            var bs, n, code := BuildFunc(cx, g, outer, [0, 1]), |outer|, outer[1].code;
            var bs' := MoveContinue(bs, n, 1);
            Valid(lex, Initial()) && Compile(lex, cx, Initial()) == Good(bs') && TakenIff(bs, bs', code, n, 1)
  {
    hide Valid, At, Compile, HeadText, StmtsText, FuncText, BuildFunc, GoodFunc, AtPlace, Nested, MoveContinue, OuterBlocks;
    var lex, t, inner := NestedText(d, g), HeadText(d) + StmtsText(d.body), FuncText(g) + [RCurly, NewLine];
    AtAll(lex);
    AtConcat(lex, 0, t, inner);
    AtConcat(lex, |t|, FuncText(g), [RCurly, NewLine]);
    ToInner(lex, cx, d);
    var outer := OuterBlocks(cx, d);
    var c := AtBracket(Initial(), d, outer);
    NestedFuncTakesContinue(lex, cx, c, g);
    var c' := c.(i := |t| + |FuncText(g)|, blocks := MoveContinue(BuildFunc(cx, g, outer, [0, 1]), |outer|, 1));
    RunsValid(lex, cx, c, c');
    AtIndex(lex, c'.i, [RCurly, NewLine], 0);
    AtIndex(lex, c'.i, [RCurly, NewLine], 1);
    RootUntouched(cx, d, g);
    assert c'.stack == [InRoot] && c'.fork == 0 && c'.i + 2 == |lex|;
    FromInner(lex, cx, d, c');
  }

  lemma AtAll(lex: seq<Lexeme>)
    ensures At(lex, 0, lex)
  {
    assert lex[0..|lex|] == lex;
  }

  lemma {:induction false} RootUntouched(cx: Context, d: FuncDecl, g: FuncDecl)
    requires Nested([EmptyBlock(None)], [0]) && GoodFunc(cx, d, [EmptyBlock(None)], [0])
    requires GoodFunc(cx, g, OuterBlocks(cx, d), [0, 1])
    ensures var outer := OuterBlocks(cx, d);
            var bs := MoveContinue(BuildFunc(cx, g, outer, [0, 1]), |outer|, 1);
            |bs| > 1 && bs[0].code == []
  {
    hide BuildFunc, GoodFunc, Nested;
    FuncApart(cx, d, [EmptyBlock(None)], [0], 0);
    FuncApart(cx, g, OuterBlocks(cx, d), [0, 1], 0);
  }

  lemma {:induction false} BodyRun(lex: seq<Lexeme>, cx: Context, local: Env, h: Machine, ss: Stmts)
    requires AtStatement(lex, cx, local, h) && h.bstack != [] && Top(h.bstack) < |h.blocks|
    requires GoodStmts(cx, local, ss) && At(lex, h.i, StmtsText(ss)) && Fresh(lex, h.i)
    ensures RunsTo(lex, cx, h, h.(i := h.i + |StmtsText(ss)|, blocks := BuildAll(cx, local, ss, h.blocks, Top(h.bstack))))
  {
    hide Valid, AtStatement, At, Compile, StmtsText, BuildAll, GoodStmts;
    StmtsRun(lex, cx, local, h, ss);
  }

  lemma {:induction false} HeadFresh(lex: seq<Lexeme>, i: nat, d: FuncDecl)
    requires At(lex, i, HeadText(d))
    ensures Fresh(lex, i + |HeadText(d)|)
  {
    hide At, TypingTokens, ResultTokens;
    HeaderLayout(lex, i, d);
    var l, t := LocalTokens(d.locals), TypingTokens(d.locals);
    if d.locals == [] {
      AtConcat(lex, i + 2, ParenTokens(d) + ResultTokens(d.results), [LCurly, NewLine]) by {
        assert ParenTokens(d) + (ResultTokens(d.results) + [LCurly, NewLine]) == ParenTokens(d) + ResultTokens(d.results) + [LCurly, NewLine];
      }
      AtIndex(lex, i + |HeadText(d)| - 2, [LCurly, NewLine], 1);
    } else {
      AtIndex(lex, i + |HeadText(d)| - |l|, l, |l| - 1);
    }
  }

  // ----- lists of functions, contracts, whole texts -----

  ghost predicate GoodFuncs(cx: Context, ds: seq<FuncDecl>, blocks: seq<Block>, bstack: seq<nat>)
    requires Nested(blocks, bstack)
    decreases |ds|
  {
    ds == [] || (GoodFunc(cx, ds[0], blocks, bstack) && GoodFuncs(cx, ds[1..], BuildFunc(cx, ds[0], blocks, bstack), bstack))
  }

  ghost function BuildFuncs(cx: Context, ds: seq<FuncDecl>, blocks: seq<Block>, bstack: seq<nat>): (r: seq<Block>)
    requires Nested(blocks, bstack) && GoodFuncs(cx, ds, blocks, bstack)
    ensures Nested(r, bstack) && |r| >= |blocks|
    decreases |ds|
  {
    if ds == [] then blocks else BuildFuncs(cx, ds[1..], BuildFunc(cx, ds[0], blocks, bstack), bstack)
  }

  lemma {:induction false} FuncsRun(lex: seq<Lexeme>, cx: Context, m: Machine, ds: seq<FuncDecl>)
    requires AtDecl(lex, m) && Nested(m.blocks, m.bstack) && GoodFuncs(cx, ds, m.blocks, m.bstack) && At(lex, m.i, FuncsText(ds))
    ensures var m' := m.(i := m.i + |FuncsText(ds)|, blocks := BuildFuncs(cx, ds, m.blocks, m.bstack));
            RunsTo(lex, cx, m, m') && AtDecl(lex, m')
    decreases |ds|
  {
    hide Valid, At, Compile, FuncText, AtPlace, BuildFunc, GoodFunc, Nested;
    AtPlaceFacts(lex, m);
    if ds != [] {
      AtConcat(lex, m.i, FuncText(ds[0]), FuncsText(ds[1..]));
      FuncRun(lex, cx, m, ds[0]);
      FuncsRun(lex, cx, m.(i := m.i + |FuncText(ds[0])|, blocks := BuildFunc(cx, ds[0], m.blocks, m.bstack)), ds[1..]);
    }
  }

  /** A contract gets its full name and its number among the children of the root. */
  function EmptyContract(cx: Context, name: string, id: nat): (r: Info)
    ensures r.ContractInfo?
  {
    ContractInfo(name, StateName(cx.state, name), id, None, None, "")
  }

  /** The blocks with a contract that has its sections only, as a new child of the root. */
  function OpenContract(cx: Context, name: string, ps: seq<Section>, blocks: seq<Block>): (r: seq<Block>)
    requires |blocks| > 0
    ensures |r| == |blocks| + 1
  {
    var full, n := StateName(cx.state, name), |blocks|;
    var c := EmptyBlock(Some(0)).(info := InfoAfterAll(EmptyContract(cx, name, |blocks[0].children|), ps));
    var bs := AddChild(blocks, 0)[n := c];
    bs[0 := bs[0].(objects := bs[0].objects[full := ContractEntry(n)])]
  }

  lemma ContractNested(cx: Context, name: string, ps: seq<Section>, blocks: seq<Block>)
    requires Nested(blocks, [0])
    ensures Nested(OpenContract(cx, name, ps, blocks), [0, |blocks|]) && [0, |blocks|][..1] == [0]
  {
    hide StateName, InfoAfterAll;
    var bs, st := OpenContract(cx, name, ps, blocks), [0, |blocks|];
    assert st[..1] == [0];
    assert bs[|blocks|].parent == Some(0) && bs[0].parent == None;
    assert Nested(bs, [0]);
  }

  ghost predicate GoodUnit(cx: Context, u: Unit, blocks: seq<Block>)
    requires Nested(blocks, [0])
  {
    match u
    case OneFunc(d) => GoodFunc(cx, d, blocks, [0])
    case OneContract(n, ps, ds) => ContractNested(cx, n, ps, blocks); GoodSections(ps) && GoodFuncs(cx, ds, OpenContract(cx, n, ps, blocks), [0, |blocks|])
  }

  ghost function BuildUnit(cx: Context, u: Unit, blocks: seq<Block>): (r: seq<Block>)
    requires Nested(blocks, [0]) && GoodUnit(cx, u, blocks)
    ensures Nested(r, [0]) && |r| > |blocks|
  {
    match u
    case OneFunc(d) => BuildFunc(cx, d, blocks, [0])
    case OneContract(n, ps, ds) =>
      ContractNested(cx, n, ps, blocks);
      var r := BuildFuncs(cx, ds, OpenContract(cx, n, ps, blocks), [0, |blocks|]);
      assert [0, |blocks|][..1] == [0];
      r
  }

  ghost predicate GoodUnits(cx: Context, us: seq<Unit>, blocks: seq<Block>)
    requires Nested(blocks, [0])
    decreases |us|
  {
    us == [] || (GoodUnit(cx, us[0], blocks) && GoodUnits(cx, us[1..], BuildUnit(cx, us[0], blocks)))
  }

  ghost function BuildUnits(cx: Context, us: seq<Unit>, blocks: seq<Block>): (r: seq<Block>)
    requires Nested(blocks, [0]) && GoodUnits(cx, us, blocks)
    ensures |r| >= |blocks|
    decreases |us|
  {
    if us == [] then blocks else BuildUnits(cx, us[1..], BuildUnit(cx, us[0], blocks))
  }

  /** The machine inside a new contract, behind its sections. */
  function InContractBody(cx: Context, m: Machine, name: string, ps: seq<Section>): Machine
    requires |m.blocks| > 0
  {
    m.(i := m.i + 4 + |SectionsText(ps)|, cur := InBody, stack := m.stack + [m.cur], bstack := m.bstack + [|m.blocks|],
       blocks := OpenContract(cx, name, ps, m.blocks))
  }

  lemma DeclPlace(lex: seq<Lexeme>, m: Machine)
    requires AtDecl(lex, m)
    ensures AtPlace(lex, m)
  {
  }

  lemma {:induction false} ContractHead(lex: seq<Lexeme>, cx: Context, m: Machine, name: string)
    requires AtDecl(lex, m) && m.bstack == [0] && m.stack == [] && |m.blocks| > 0
    requires At(lex, m.i, [Key(KwContract), Ident(name), LCurly, NewLine])
    ensures RunsTo(lex, cx, m, InContractBody(cx, m, name, []))
  {
    hide Valid, Nested, At, Closed, Compile, StateName, OpenContract, AtDecl;
    DeclPlace(lex, m);
    AtPlaceFacts(lex, m);
    var t := [Key(KwContract), Ident(name), LCurly, NewLine];
    AtIndex(lex, m.i, t, 0);
    AtIndex(lex, m.i, t, 1);
    AtIndex(lex, m.i, t, 2);
    AtIndex(lex, m.i, t, 3);
    RootState(lex, m);
    NestedPush(m);
    var m1 := PushBlock(m).(i := m.i + 1, cur := InContract);
    OneStep(lex, cx, m, m1);
    var c := InContractBody(cx, m, name, []);
    var m2 := c.(i := m.i + 2, cur := InBlock);
    ContractBlocks(cx, m.blocks, name);
    GotoTurn(lex, cx, m1, InBlock, DoName, m2);
    CurlyTurn(lex, cx, m2);
    var m3 := c.(i := m.i + 3);
    ValidNested(lex, m3);
    GotoTurn(lex, cx, m3, InBody, DoNothing, c);
  }

  lemma RootState(lex: seq<Lexeme>, m: Machine)
    requires Valid(lex, m) && m.stack == []
    ensures m.cur.InRoot?
  {
  }

  lemma ContractBlocks(cx: Context, blocks: seq<Block>, name: string)
    requires |blocks| > 0
    ensures NameAct(cx, AddChild(blocks, 0), |blocks|, 0, InBlock, name) == OpenContract(cx, name, [], blocks)
  {
  }

  lemma {:induction false} ContractReady(lex: seq<Lexeme>, cx: Context, m: Machine, name: string, ps: seq<Section>)
    requires AtDecl(lex, m) && |m.blocks| > 0 && Valid(lex, InContractBody(cx, m, name, ps))
    ensures AtDecl(lex, InContractBody(cx, m, name, ps))
  {
    hide Valid, StateName, InfoAfterAll;
    var c := InContractBody(cx, m, name, ps);
    ValidNested(lex, c);
    assert Top(c.bstack) == |m.blocks|;
  }

  /** Blocks other than the new ones and the one that is extended keep their code. */
  lemma {:induction false} FuncsApart(cx: Context, ds: seq<FuncDecl>, blocks: seq<Block>, bstack: seq<nat>, k: nat)
    requires Nested(blocks, bstack) && GoodFuncs(cx, ds, blocks, bstack) && k < |blocks|
    ensures BuildFuncs(cx, ds, blocks, bstack)[k].code == blocks[k].code
    decreases |ds|
  {
    hide GoodFunc, BuildFunc, Nested;
    if ds != [] {
      FuncApart(cx, ds[0], blocks, bstack, k);
      FuncsApart(cx, ds[1..], BuildFunc(cx, ds[0], blocks, bstack), bstack, k);
    }
  }

  lemma {:induction false} FuncApart(cx: Context, d: FuncDecl, blocks: seq<Block>, bstack: seq<nat>, k: nat)
    requires Nested(blocks, bstack) && GoodFunc(cx, d, blocks, bstack) && k < |blocks|
    ensures BuildFunc(cx, d, blocks, bstack)[k].code == blocks[k].code
  {
    hide HeadBlock, BuildAll, GoodStmts, Local;
    OpenNested(d, blocks, bstack);
    var o, local := OpenFunc(d, blocks, Top(bstack)), FuncLocal(d, blocks, bstack);
    BuildAllApart(cx, local, d.body, o, |blocks|, k, []);
    assert o[k].code == blocks[k].code;
  }

  /** The sections come behind the head. */
  lemma {:induction false} ContractOpens(lex: seq<Lexeme>, cx: Context, m: Machine, name: string, ps: seq<Section>)
    requires AtDecl(lex, m) && m.bstack == [0] && m.stack == [] && |m.blocks| > 0 && GoodSections(ps)
    requires At(lex, m.i, [Key(KwContract), Ident(name), LCurly, NewLine]) && At(lex, m.i + 4, SectionsText(ps))
    ensures RunsTo(lex, cx, m, InContractBody(cx, m, name, ps)) && AtDecl(lex, InContractBody(cx, m, name, ps))
  {
    hide Valid, At, RunsTo, AtDecl, SectionsText, GoodSections, InfoAfterAll, StateName;
    ContractHead(lex, cx, m, name);
    var e, c := InContractBody(cx, m, name, []), InContractBody(cx, m, name, ps);
    RunsValid(lex, cx, m, e);
    var top, n, info := |m.blocks|, |m.blocks[0].children|, EmptyContract(cx, name, |m.blocks[0].children|);
    NoSections(info);
    assert Top(e.bstack) == top && e.blocks[top].info == info;
    SameMachine(e);
    SectionsRun(lex, cx, e, e.i, info, ps);
    assert SetInfo(e.blocks, top, InfoAfterAll(info, ps)) == c.blocks;
    RunsTrans(lex, cx, m, e, c);
    RunsValid(lex, cx, m, c);
    ContractReady(lex, cx, m, name, ps);
  }

  lemma NoSections(info: Info)
    requires info.ContractInfo?
    ensures InfoAfterAll(info, []) == info && SectionsText([]) == []
  {
  }

  lemma {:induction false} ContractRun(lex: seq<Lexeme>, cx: Context, m: Machine, u: Unit)
    requires AtDecl(lex, m) && m.bstack == [0] && m.stack == [] && Nested(m.blocks, [0])
    requires u.OneContract? && GoodUnit(cx, u, m.blocks) && At(lex, m.i, UnitText(u))
    ensures var m' := m.(i := m.i + |UnitText(u)|, blocks := BuildUnit(cx, u, m.blocks));
            RunsTo(lex, cx, m, m') && AtDecl(lex, m')
  {
    hide Valid, At, Compile, FuncsText, SectionsText, GoodSections, GoodFuncs, BuildFuncs, OpenContract, Closed;
    AtPlaceFacts(lex, m);
    ContractNested(cx, u.name, u.sections, m.blocks);
    var head, mid, fs, tail := [Key(KwContract), Ident(u.name), LCurly, NewLine], SectionsText(u.sections), FuncsText(u.funcs), [RCurly, NewLine];
    AtConcat(lex, m.i, head, mid + (fs + tail));
    AtConcat(lex, m.i + 4, mid, fs + tail);
    AtConcat(lex, m.i + 4 + |mid|, fs, tail);
    ContractOpens(lex, cx, m, u.name, u.sections);
    var c := InContractBody(cx, m, u.name, u.sections);
    assert c.bstack == [0, |m.blocks|];
    FuncsRun(lex, cx, c, u.funcs);
    var r := m.i + 4 + |mid| + |fs|;
    AtIndex(lex, r, tail, 0);
    AtIndex(lex, r, tail, 1);
    FuncsApart(cx, u.funcs, c.blocks, c.bstack, 0);
    RootCode(cx, u.name, u.sections, m.blocks);
    assert Top(c.bstack) == |m.blocks|;
    CloseDecl(lex, cx, m, c.(i := r, blocks := BuildFuncs(cx, u.funcs, c.blocks, c.bstack)));
  }

  lemma RootCode(cx: Context, name: string, ps: seq<Section>, blocks: seq<Block>)
    requires |blocks| > 0
    ensures OpenContract(cx, name, ps, blocks)[0].code == blocks[0].code
  {
  }

  lemma {:induction false} UnitsRun(lex: seq<Lexeme>, cx: Context, m: Machine, us: seq<Unit>)
    requires AtDecl(lex, m) && m.bstack == [0] && m.stack == [] && Nested(m.blocks, [0])
    requires GoodUnits(cx, us, m.blocks) && At(lex, m.i, UnitsText(us))
    ensures RunsTo(lex, cx, m, m.(i := m.i + |UnitsText(us)|, blocks := BuildUnits(cx, us, m.blocks)))
    decreases |us|
  {
    hide Valid, At, Compile, AtPlace, GoodFunc, BuildFunc, UnitText, Nested;
    AtPlaceFacts(lex, m);
    if us != [] {
      AtConcat(lex, m.i, UnitText(us[0]), UnitsText(us[1..]));
      UnitRun(lex, cx, m, us[0]);
      UnitsRun(lex, cx, m.(i := m.i + |UnitText(us[0])|, blocks := BuildUnit(cx, us[0], m.blocks)), us[1..]);
    }
  }

  lemma {:induction false} UnitRun(lex: seq<Lexeme>, cx: Context, m: Machine, u: Unit)
    requires AtDecl(lex, m) && m.bstack == [0] && m.stack == [] && Nested(m.blocks, [0])
    requires GoodUnit(cx, u, m.blocks) && At(lex, m.i, UnitText(u))
    ensures var m' := m.(i := m.i + |UnitText(u)|, blocks := BuildUnit(cx, u, m.blocks));
            RunsTo(lex, cx, m, m') && AtDecl(lex, m')
  {
    hide Valid, At, Compile, AtDecl, GoodFunc, BuildFunc, FuncText, Nested;
    if u.OneFunc? { FuncRun(lex, cx, m, u.f); } else { ContractRun(lex, cx, m, u); }
  }

  /** The main result: CompileBlock on the text of any list of functions and
      contracts succeeds with the blocks of the reference translation. */
  lemma {:induction false} TextCompiles(cx: Context, us: seq<Unit>)
    requires GoodUnits(cx, us, [EmptyBlock(None)])
    ensures var lex := UnitsText(us);
            Valid(lex, Initial()) && Compile(lex, cx, Initial()) == Good(BuildUnits(cx, us, [EmptyBlock(None)]))
  {
    hide Valid, UnitsText, BuildUnits, GoodUnits, Turn;
    var lex, m := UnitsText(us), Initial();
    InitialValid(lex);
    assert lex[0..|lex|] == lex;
    UnitsRun(lex, cx, m, us);
  }

  /** `func f() { continue` and, in the next line, `func g() { } }` */
  function StrayText(): seq<Lexeme> {
    NestedText(FuncDecl("f", [], false, false, [], [], Then(NextTurn, Done)), FuncDecl("g", [], false, false, [], [], Done))
  }

  /** The blocks of both functions before the continue has moved. */
  lemma {:induction false} StrayBlocks(cx: Context)
    ensures var d, g := FuncDecl("f", [], false, false, [], [], Then(NextTurn, Done)), FuncDecl("g", [], false, false, [], [], Done);
            && Nested([EmptyBlock(None)], [0]) && GoodFunc(cx, d, [EmptyBlock(None)], [0])
            && var outer := OuterBlocks(cx, d);
               && Nested(outer, [0, 1]) && GoodFunc(cx, g, outer, [0, 1])
               && |outer| == 2 && outer[1].code == [Continue]
               && BuildFunc(cx, g, outer, [0, 1]) == OpenFunc(g, outer, 1)
               && outer[0].objects == map["f" := FuncEntry(1)] && outer[1].objects == map[]
  {
    hide HeadBlock;
    var root := [EmptyBlock(None)];
    var d, g := FuncDecl("f", [], false, false, [], [], Then(NextTurn, Done)), FuncDecl("g", [], false, false, [], [], Done);
    assert Nested(root, [0]);
    OpenNested(d, root, [0]);
    assert GoodFunc(cx, d, root, [0]);
    EmptyHead("f", d.body);
    EmptyHead("g", g.body);
    var outer := OuterBlocks(cx, d);
    assert outer == Emit(OpenFunc(d, root, 0), 1, [Continue]);
    assert outer[1].code == [] + [Continue] == [Continue];
    OpenNested(g, outer, [0, 1]);
  }

  /** The exception on one text: the only command of `f` is found in `g`. */
  lemma {:induction false} StrayContinueMoves(cx: Context)
    ensures var lex := StrayText();
            && Valid(lex, Initial()) && Compile(lex, cx, Initial()).Good?
            && var bs := Compile(lex, cx, Initial()).value;
               && |bs| == 3 && bs[0].objects == map["f" := FuncEntry(1)] && bs[1].objects == map["g" := FuncEntry(2)]
               && bs[1].code == [] && bs[2].code == [Continue]
  {
    hide Valid, Compile, HeadBlock, GoodFunc, Nested, OuterBlocks, BuildFunc, NestedText;
    StrayBlocks(cx);
    var d, g := FuncDecl("f", [], false, false, [], [], Then(NextTurn, Done)), FuncDecl("g", [], false, false, [], [], Done);
    EmptyHead("g", g.body);
    var outer := OuterBlocks(cx, d);
    assert OpenFunc(g, outer, 1)[2] == HeadBlock(g, 1);
    NestedTextCompiles(cx, d, g);
  }

  lemma {:induction false} EmptyHead(name: string, body: Stmts)
    ensures forall parent: nat :: HeadBlock(FuncDecl(name, [], false, false, [], [], body), parent).code == []
    ensures forall parent: nat :: HeadBlock(FuncDecl(name, [], false, false, [], [], body), parent).objects == map[]
  {
  }
}

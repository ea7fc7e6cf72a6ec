/**
 The quick list of contract names (ContractsList in packages/script/compile.go)
 against the full compiler: a scan that counts curly brackets finds the names of
 the contracts and functions of the root, exactly when every keyword of the root
 is directly followed by its name.
 */
module ContractNames {
  import opened Wrappers
  import opened Lexemes
  import opened Initializers
  import opened Expressions
  import opened Blocks
  import C = StatementCompilation

  predicate Opens(l: Lexeme) {
    l == Key(KwContract) || l == Key(KwFunc)
  }

  function LevelAfter(l: Lexeme, level: int): int {
    if l.LCurly? then level + 1 else if l.RCurly? then level - 1 else level
  }

  /** One mark for each keyword outside all brackets: the name behind it, if one stands there. */
  function Marks(lex: seq<Lexeme>, i: nat, level: int): seq<Option<string>>
    decreases |lex| - i
  {
    if i >= |lex| then []
    else
      (if Opens(lex[i]) && level == 0 then
         [if i + 1 < |lex| && lex[i + 1].Ident? then Some(lex[i + 1].name) else None]
       else []) + Marks(lex, i + 1, LevelAfter(lex[i], level))
  }

  function NameAt(lex: seq<Lexeme>, i: nat, level: int): seq<string>
    requires i < |lex|
  {
    if Opens(lex[i]) && level == 0 && i + 1 < |lex| && lex[i + 1].Ident? then [lex[i + 1].name] else []
  }

  /** The scan from position `i` on. */
  function NamesFrom(lex: seq<Lexeme>, i: nat, level: int): seq<string>
    decreases |lex| - i
  {
    if i >= |lex| then [] else NameAt(lex, i, level) + NamesFrom(lex, i + 1, LevelAfter(lex[i], level))
  }

  lemma ScanStep(lex: seq<Lexeme>, i: nat, level: int, names: seq<string>)
    requires i < |lex|
    ensures names + NamesFrom(lex, i, level) == names + NameAt(lex, i, level) + NamesFrom(lex, i + 1, LevelAfter(lex[i], level))
  {
  }

  method ContractsList(lex: seq<Lexeme>) returns (names: seq<string>)
    ensures names == NamesFrom(lex, 0, 0)
  {
    names := [];
    var level := 0;
    for i := 0 to |lex|
      invariant names + NamesFrom(lex, i, level) == NamesFrom(lex, 0, 0)
    {
      hide NamesFrom;
      ScanStep(lex, i, level, names);
      ghost var before := names;
      match lex[i] {
        case LCurly => level := level + 1;
        case RCurly => level := level - 1;
        case Key(k) =>
          if (k == KwContract || k == KwFunc) && level == 0 && i + 1 < |lex| && lex[i + 1].Ident? {
            names := names + [lex[i + 1].name];
          }
        case _ =>
      }
      assert before + [] == before;
    }
  }

  function Found(ms: seq<Option<string>>): seq<string> {
    if ms == [] then [] else (if ms[0].Some? then [ms[0].value] else []) + Found(ms[1..])
  }

  lemma {:induction false} NamesAreFound(lex: seq<Lexeme>, i: nat, level: int)
    ensures NamesFrom(lex, i, level) == Found(Marks(lex, i, level))
    decreases |lex| - i
  {
    if i < |lex| {
      NamesAreFound(lex, i + 1, LevelAfter(lex[i], level));
      var rest := Marks(lex, i + 1, LevelAfter(lex[i], level));
      if Opens(lex[i]) && level == 0 {
        assert Marks(lex, i, level)[1..] == rest;
      } else {
        assert Marks(lex, i, level) == rest && NamesFrom(lex, i, level) == NamesFrom(lex, i + 1, LevelAfter(lex[i], level));
      }
    }
  }

  lemma {:induction false} FoundSize(ms: seq<Option<string>>)
    ensures |Found(ms)| <= |ms|
    ensures |Found(ms)| == |ms| <==> forall k :: 0 <= k < |ms| ==> ms[k].Some?
    ensures |Found(ms)| == |ms| ==> forall k :: 0 <= k < |ms| ==> Found(ms)[k] == ms[k].value
    decreases |ms|
  {
    if ms != [] {
      var rest := ms[1..];
      FoundSize(rest);
      assert forall k :: 0 < k < |ms| ==> ms[k] == rest[k - 1];
      if forall k :: 0 <= k < |ms| ==> ms[k].Some? {
        assert forall k :: 0 <= k < |rest| ==> rest[k] == ms[k + 1];
      }
    }
  }

  // ----- expressions and initializers keep the level -----

  lemma MarksStep(lex: seq<Lexeme>, i: nat, level: int)
    requires i < |lex| && (level > 0 || !Opens(lex[i]))
    ensures Marks(lex, i, level) == Marks(lex, i + 1, LevelAfter(lex[i], level))
  {
  }

  lemma {:induction false} ValueLevel(lex: seq<Lexeme>, i: nat, env: Env, level: int)
    requires i < |lex| && level > 0 && ValueAt(lex, i, env).Good?
    ensures Marks(lex, i, level) == Marks(lex, ValueAt(lex, i, env).value.1 + 1, level)
    decreases |lex| - i, 1
  {
    hide Marks;
    MarksStep(lex, i, level);
    match lex[i]
    case LBrack => ArrayLevel(lex, i + 1, [], MustValue, env, level);
    case LCurly => MapLevel(lex, i + 1, "", [], MustKey, env, level);
    case _ =>
  }

  lemma {:induction false} MapLevel(lex: seq<Lexeme>, i: nat, key: string, acc: Entries, st: Expect, env: Env, level: int)
    requires i <= |lex| && level > 0 && MapFrom(lex, i, key, acc, st, env).Good?
    ensures Marks(lex, i, level + 1) == Marks(lex, MapFrom(lex, i, key, acc, st, env).value.1 + 1, level)
    decreases |lex| - i, 2
  {
    hide Marks;
    MarksStep(lex, i, level + 1);
    if lex[i] == NewLine { MapLevel(lex, i + 1, key, acc, st, env, level); }
    else if lex[i] != RCurly {
      match st
      case MustComma => MapLevel(lex, i + 1, key, acc, MustKey, env, level);
      case MustColon => MapLevel(lex, i + 1, key, acc, MustValue, env, level);
      case MustKey => KeyLevel(lex, i, key, acc, env, level);
      case MustValue =>
        var v := ValueAt(lex, i, env).value;
        ValueLevel(lex, i, env, level + 1);
        MapLevel(lex, v.1 + 1, key, SetEntry(acc, key, v.0), MustComma, env, level);
    }
  }

  lemma {:induction false} KeyLevel(lex: seq<Lexeme>, i: nat, key: string, acc: Entries, env: Env, level: int)
    requires i < |lex| && level > 0 && lex[i] != NewLine && lex[i] != RCurly && MapFrom(lex, i, key, acc, MustKey, env).Good?
    ensures Marks(lex, i, level + 1) == Marks(lex, MapFrom(lex, i, key, acc, MustKey, env).value.1 + 1, level)
    decreases |lex| - i, 1
  {
    hide Marks;
    MarksStep(lex, i, level + 1);
    match lex[i]
    case Ident(n) => MapLevel(lex, i + 1, n, acc, MustColon, env, level);
    case Str(t) => MapLevel(lex, i + 1, t, acc, MustColon, env, level);
    case Key(k) =>
      var st := if k == KwFunc && i + 1 < |lex| && lex[i + 1].Ident? then MustKey else MustColon;
      MapLevel(lex, i + 1, KeywordText(k), acc, st, env, level);
    case _ =>
  }

  lemma {:induction false} ArrayLevel(lex: seq<Lexeme>, i: nat, acc: seq<Item>, st: Expect, env: Env, level: int)
    requires i <= |lex| && level > 0 && ArrayFrom(lex, i, acc, st, env).Good?
    ensures Marks(lex, i, level) == Marks(lex, ArrayFrom(lex, i, acc, st, env).value.1 + 1, level)
    decreases |lex| - i, 2
  {
    hide Marks;
    MarksStep(lex, i, level);
    if lex[i] == NewLine { ArrayLevel(lex, i + 1, acc, st, env, level); }
    else if lex[i] != RBrack {
      if st == MustComma { ArrayLevel(lex, i + 1, acc, MustValue, env, level); }
      else {
        var v := ValueAt(lex, i, env).value;
        ValueLevel(lex, i, env, level);
        ArrayLevel(lex, v.1 + 1, acc + [v.0], MustComma, env, level);
      }
    }
  }

  lemma {:induction false} StepLevel(lex: seq<Lexeme>, s: EvalState, env: Env, level: int)
    requires s.i < |lex| && level > 0
    ensures var t := EvalStep(lex, s, env);
            (t.Next? ==> Marks(lex, s.i, level) == Marks(lex, t.s.i, level)) &&
            (t.Stop? ==> Marks(lex, s.i, level) == Marks(lex, t.i + 1, level))
  {
    hide Marks, MapFrom, ArrayFrom, CloseBracket, PopHigher, FlushToBracket;
    MarksStep(lex, s.i, level);
    if s.i + 1 < |lex| { MarksStep(lex, s.i + 1, level); }
    if lex[s.i].LCurly? && MapFrom(lex, s.i + 1, "", [], MustKey, env).Good? { MapLevel(lex, s.i + 1, "", [], MustKey, env, level); }
    if lex[s.i].LBrack? && ArrayFrom(lex, s.i + 1, [], MustValue, env).Good? { ArrayLevel(lex, s.i + 1, [], MustValue, env, level); }
  }

  lemma {:induction false} RunLevel(lex: seq<Lexeme>, s: EvalState, env: Env, level: int)
    requires level > 0 && Run(lex, s, env).Good?
    ensures Run(lex, s, env).value.0 >= -1
    ensures Marks(lex, s.i, level) == Marks(lex, Run(lex, s, env).value.0 + 1, level)
    decreases |lex| - s.i
  {
    hide EvalStep;
    RunForward(lex, s, env);
    if s.i < |lex| {
      StepLevel(lex, s, env, level);
      var t := EvalStep(lex, s, env);
      if t.Next? { RunLevel(lex, t.s, env, level); }
    }
  }

  // ----- the machine keeps track of the level -----

  /** How many curly brackets are open in a state with `n` states below it. */
  function Depth(cur: State, n: nat): int {
    if cur.InRoot? then 0
    else if InHeader(cur) then n - 1
    else if cur.InFields? || cur.InConsts? || cur.InConstsAssign? || cur.InConstsValue? then n + 1
    else n
  }

  /** The lexeme of a plain transition and what it does to the level. */
  lemma {:induction false} GotoLevel(st: State, l: Lexeme, n: nat)
    requires Table(st, l).Goto? && (st.InRoot? || n > 0)
    ensures !Opens(l) && Depth(Table(st, l).next, n) == LevelAfter(l, Depth(st, n))
  {
  }

  function DeclaredName(b: Block): Option<string> {
    if b.info.NoInfo? then None else Some(b.info.declared)
  }

  /** Names that were given stay. */
  predicate Follows(a: seq<Block>, b: seq<Block>) {
    |a| <= |b| && forall k :: 0 <= k < |a| && !a[k].info.NoInfo? ==> DeclaredName(b[k]) == DeclaredName(a[k])
  }

  lemma FollowsChain(a: seq<Block>, b: seq<Block>, c: seq<Block>)
    requires Follows(a, b) && Follows(b, c)
    ensures Follows(a, c)
  {
    forall k | 0 <= k < |a| && !a[k].info.NoInfo? ensures DeclaredName(c[k]) == DeclaredName(a[k]) {
      assert DeclaredName(b[k]) == DeclaredName(a[k]);
    }
  }

  /** What a turn of the machine does to the root and to names. */
  ghost predicate Tracked(lex: seq<Lexeme>, m: Machine, m': Machine)
    requires m.i < |lex| && m.blocks != [] && m'.blocks != []
  {
    && Follows(m.blocks, m'.blocks)
    && m'.blocks[0].children == m.blocks[0].children
    && Marks(lex, m.i, Depth(m.cur, |m.stack|)) == Marks(lex, m'.i, Depth(m'.cur, |m'.stack|))
  }

  /** The handler has kept the name and the children of the block. */
  predicate NameKept(b: Block, r: Outcome<Block>) {
    r.Good? ==> DeclaredName(r.value) == DeclaredName(b) && r.value.children == b.children
  }

  lemma {:induction false} TopActNames(cx: Context, act: Act, next: State, b: Block, l: Lexeme)
    ensures NameKept(b, TopAct(cx, act, next, b, l))
  {
    hide VarAct, SectionAct, CommandAct, NameKept, CodeAct;
    CommandNames(act, b, l);
    VarNames(act, next, b, l);
    SectionNames(act, b, l);
  }

  lemma {:induction false} CommandNames(act: Act, b: Block, l: Lexeme)
    ensures NameKept(b, CommandAct(act, b, l))
  {
  }

  lemma {:induction false} VarNames(act: Act, next: State, b: Block, l: Lexeme)
    ensures NameKept(b, VarAct(act, next, b, l))
  {
    hide Typed, WaitingCount;
  }

  lemma {:induction false} SectionNames(act: Act, b: Block, l: Lexeme)
    ensures NameKept(b, SectionAct(act, b, l))
  {
    hide FieldAct;
  }

  lemma SameBut(blocks: seq<Block>, k: nat, b: Block)
    requires k < |blocks| && b.children == blocks[k].children && (!blocks[k].info.NoInfo? ==> DeclaredName(b) == DeclaredName(blocks[k]))
    ensures Follows(blocks, blocks[k := b]) && blocks[k := b][0].children == blocks[0].children
  {
  }

  lemma {:induction false} NameActNames(cx: Context, blocks: seq<Block>, top: nat, below: nat, next: State, name: string)
    requires below < top < |blocks| && blocks[top].info.NoInfo?
    ensures var bs := NameAct(cx, blocks, top, below, next, name);
            Follows(blocks, bs) && bs[0].children == blocks[0].children && DeclaredName(bs[top]) == Some(name)
  {
  }

  lemma {:induction false} GotoTracked(lex: seq<Lexeme>, cx: Context, m: Machine, m': Machine)
    requires Valid(lex, m) && m.i < |lex| && Table(m.cur, lex[m.i]).Goto?
    requires Nested(m.blocks, m.bstack) && |m.bstack| == |m.stack| + 1 && Turn(lex, cx, m) == Good(m')
    ensures m.blocks != [] && m'.blocks != [] && Tracked(lex, m, m') && Top(m.bstack) < |m'.blocks|
    ensures (m.cur.InContract? || m.cur.InFunc?) && lex[m.i].Ident? ==> DeclaredName(m'.blocks[Top(m.bstack)]) == Some(lex[m.i].name)
  {
    hide Family, BlocksFine, TopAct, NameAct, TargetAct, Table, Marks, Planned;
    var mv, l, top := Table(m.cur, lex[m.i]), lex[m.i], Top(m.bstack);
    var b := m.blocks[top];
    GotoLevel(m.cur, l, |m.stack|);
    MarksStep(lex, m.i, Depth(m.cur, |m.stack|));
    TablePlan(m.cur, l, b);
    if mv.act.DoName? {
      PlannedName(m.cur, mv.next, b);
      NestedBelow(m.blocks, m.bstack);
      if l.Ident? { NameActNames(cx, m.blocks, top, Below(m.bstack), mv.next, l.name); }
    } else if mv.act.DoTarget? {
      PlannedTarget(m.cur, mv.next, b, m);
      var t := TargetAct(cx, m.blocks, m.bstack, l);
      if t.Good? { SameBut(m.blocks, top, b.(code := AddTarget(b.code, t.value))); }
    } else if !mv.act.DoNothing? {
      PlannedOther(m.cur, mv.act, mv.next);
      TopActNames(cx, mv.act, mv.next, b, l);
      var r := TopAct(cx, mv.act, mv.next, b, l);
      if r.Good? { SameBut(m.blocks, top, r.value); }
    }
    NamingMove(m.cur, l);
  }

  lemma NamingMove(st: State, l: Lexeme)
    ensures (st.InContract? || st.InFunc?) && l.Ident? ==> Table(st, l).Goto? && Table(st, l).act.DoName?
  {
  }

  lemma {:induction false} EvalTracked(lex: seq<Lexeme>, cx: Context, m: Machine, i: nat, labelled: bool, must: bool, level: int)
    requires Nested(m.blocks, m.bstack) && level > 0
    ensures var r := Evaluate(lex, cx, m, i, labelled, must);
            r.Good? ==> r.value == m.(i := r.value.i, blocks := r.value.blocks) && r.value.blocks != [] &&
                        SameInfos(m.blocks, r.value.blocks) && Marks(lex, i, level) == Marks(lex, r.value.i, level)
  {
    hide Marks, Run, Scope;
    if EvalAt(lex, i, Scope(cx, m)).Good? { RunLevel(lex, Start(i), Scope(cx, m), level); }
  }

  /** Nothing but code has changed. */
  predicate SameInfos(a: seq<Block>, b: seq<Block>) {
    |a| == |b| && forall k :: 0 <= k < |a| ==> a[k].info == b[k].info && a[k].children == b[k].children && a[k].parent == b[k].parent
  }

  lemma {:induction false} LeaveTracked(lex: seq<Lexeme>, cx: Context, m: Machine, m': Machine)
    requires Valid(lex, m) && m.i < |lex| && Table(m.cur, lex[m.i]).Leave?
    requires Nested(m.blocks, m.bstack) && |m.bstack| == |m.stack| + 1 && Turn(lex, cx, m) == Good(m')
    ensures m.blocks != [] && m'.blocks != [] && Tracked(lex, m, m')
  {
    hide Family, BlocksFine, Table, Marks;
    LeaveLexeme(m.cur, lex[m.i]);
    TableMoves(m.cur, lex[m.i]);
    MarksStep(lex, m.i, Depth(m.cur, |m.stack|));
    NestedBelow(m.blocks, m.bstack);
    MovedInfos(m.blocks, Top(m.bstack), Below(m.bstack));
  }

  lemma LeaveLexeme(st: State, l: Lexeme)
    requires Table(st, l).Leave?
    ensures l.RCurly?
  {
  }

  lemma MovedInfos(blocks: seq<Block>, top: nat, below: nat)
    requires below < top < |blocks|
    ensures SameInfos(blocks, MoveContinue(blocks, top, below))
  {
  }

  lemma {:induction false} StayTracked(lex: seq<Lexeme>, cx: Context, m: Machine, m': Machine)
    requires Valid(lex, m) && m.i < |lex|
    requires Table(m.cur, lex[m.i]).Stay? || Table(m.cur, lex[m.i]).Fork? || Table(m.cur, lex[m.i]).BackToAssign?
    requires Nested(m.blocks, m.bstack) && |m.bstack| == |m.stack| + 1 && Turn(lex, cx, m) == Good(m')
    ensures m.blocks != [] && m'.blocks != [] && Tracked(lex, m, m')
  {
    hide Family, BlocksFine, Table, Marks;
    TableMoves(m.cur, lex[m.i]);
    MarksStep(lex, if m.cur.InAssignEval? then m.fork else m.i, |m.stack|) by {
      assert m.cur.InAssignEval? || m.cur.InBody? ==> |m.stack| > 0;
      assert m.cur.InParams? || m.cur.InResult? || m.cur.InVar? ==> |m.stack| > 0;
    }
  }

  lemma {:induction false} EvalThenTracked(lex: seq<Lexeme>, cx: Context, m: Machine, m': Machine)
    requires Valid(lex, m) && m.i < |lex| && (Table(m.cur, lex[m.i]).EvalThen? || Table(m.cur, lex[m.i]).BackToEval?)
    requires Nested(m.blocks, m.bstack) && |m.bstack| == |m.stack| + 1 && Turn(lex, cx, m) == Good(m')
    ensures m.blocks != [] && m'.blocks != [] && Tracked(lex, m, m')
  {
    hide Family, BlocksFine, Table, Marks, Evaluate, TopAct, Nested;
    var mv, l := Table(m.cur, lex[m.i]), lex[m.i];
    TableMoves(m.cur, l);
    if mv.BackToEval? {
      EvalTracked(lex, cx, m.(cur := InBody, fork := 0), m.fork, false, false, |m.stack|);
      MarksStep(lex, m.fork, |m.stack|);
    } else {
      EvalTracked(lex, cx, m, m.i, false, false, |m.stack|);
      var m1 := Evaluate(lex, cx, m, m.i, false, false).value;
      NestedTop(m.blocks, m.bstack);
      TopActNames(cx, mv.act, mv.next, m1.blocks[Top(m.bstack)], l);
    }
  }

  lemma NestedTop(blocks: seq<Block>, bstack: seq<nat>)
    requires Nested(blocks, bstack)
    ensures bstack != [] && Top(bstack) < |blocks| && (Top(bstack) == 0 <==> |bstack| == 1)
  {
  }

  /** A new block below a block other than the root. */
  lemma PushedInfos(m: Machine)
    requires Nested(m.blocks, m.bstack)
    ensures var bs := PushBlock(m).blocks;
            |bs| == |m.blocks| + 1 && Follows(m.blocks, bs) && bs[|m.blocks|].info.NoInfo? &&
            bs[0].children == if |m.bstack| == 1 then m.blocks[0].children + [|m.blocks|] else m.blocks[0].children
  {
    NestedTop(m.blocks, m.bstack);
  }

  lemma EmittedInfos(blocks: seq<Block>, b: nat, c: seq<Code>)
    requires b < |blocks|
    ensures SameInfos(blocks, Emit(blocks, b, c))
  {
  }

  /** A new block whose parent gets a command. */
  lemma {:induction false} PushEmitted(m: Machine, c: seq<Code>)
    requires Nested(m.blocks, m.bstack) && |m.bstack| > 1
    ensures var m1 := PushBlock(m);
            m1 == m.(stack := m.stack + [m.cur], bstack := m1.bstack, blocks := m1.blocks) &&
            |m1.bstack| >= 2 && Nested(m1.blocks, m1.bstack) && Below(m1.bstack) < |m1.blocks| &&
            Emit(m1.blocks, Below(m1.bstack), c) != [] &&
            Follows(m.blocks, Emit(m1.blocks, Below(m1.bstack), c)) && Follows(m.blocks, m1.blocks) &&
            m1.blocks[0].children == m.blocks[0].children &&
            Emit(m1.blocks, Below(m1.bstack), c)[0].children == m.blocks[0].children
  {
    hide Nested, AddChild, Emit;
    NestedTop(m.blocks, m.bstack);
    PushedInfos(m);
    NestedPush(m);
    var m1 := PushBlock(m);
    NestedBelow(m1.blocks, m1.bstack);
    EmittedInfos(m1.blocks, Below(m1.bstack), c);
  }

  lemma {:induction false} EnterTracked(lex: seq<Lexeme>, cx: Context, m: Machine, m': Machine)
    requires Valid(lex, m) && m.i < |lex| && Table(m.cur, lex[m.i]).Enter? && m.cur.InBody?
    requires Nested(m.blocks, m.bstack) && |m.bstack| == |m.stack| + 1 && Turn(lex, cx, m) == Good(m')
    ensures m.blocks != [] && m'.blocks != [] && Tracked(lex, m, m')
  {
    hide Family, BlocksFine, Table, Marks, PushBlock, Emit, Nested, Follows;
    TableMoves(m.cur, lex[m.i]);
    EnterLexeme(m.cur, lex[m.i]);
    MarksStep(lex, m.i, |m.stack|);
    NestedTop(m.blocks, m.bstack);
    PushedTop(m);
    PushEmitted(m, [Else(Top(PushBlock(m).bstack))]);
  }

  lemma PushedTop(m: Machine)
    requires Nested(m.blocks, m.bstack)
    ensures PushBlock(m).bstack != []
  {
  }

  lemma EnterLexeme(st: State, l: Lexeme)
    requires Table(st, l).Enter?
    ensures l.Key? && (st.InRoot? ==> Opens(l) && Table(st, l).act.DoNothing?)
  {
  }

  /** A keyword in the root: one more child, and its mark. */
  lemma {:induction false} RootTracked(lex: seq<Lexeme>, cx: Context, m: Machine, m': Machine)
    requires Valid(lex, m) && m.i < |lex| && Table(m.cur, lex[m.i]).Enter? && m.cur.InRoot?
    requires Nested(m.blocks, m.bstack) && |m.bstack| == |m.stack| + 1 && Turn(lex, cx, m) == Good(m')
    ensures m.blocks != [] && m'.blocks != [] && Follows(m.blocks, m'.blocks) && m'.i == m.i + 1
    ensures m'.blocks[0].children == m.blocks[0].children + [|m.blocks|]
    ensures (m'.cur.InContract? || m'.cur.InFunc?) && |m'.stack| == 1 && m'.bstack == m.bstack + [|m.blocks|]
    ensures Opens(lex[m.i])
  {
    hide Family, BlocksFine, Table, Marks, AddChild, Nested;
    TableMoves(m.cur, lex[m.i]);
    EnterLexeme(m.cur, lex[m.i]);
    NestedTop(m.blocks, m.bstack);
    PushedInfos(m);
  }

  lemma {:induction false} EvalEnterTracked(lex: seq<Lexeme>, cx: Context, m: Machine, m': Machine)
    requires Valid(lex, m) && m.i < |lex| && Table(m.cur, lex[m.i]).EvalEnter?
    requires Nested(m.blocks, m.bstack) && |m.bstack| == |m.stack| + 1 && Turn(lex, cx, m) == Good(m')
    ensures m.blocks != [] && m'.blocks != [] && Tracked(lex, m, m')
  {
    hide Family, BlocksFine, Table, Marks, Evaluate, PushBlock, Emit, Nested, Follows;
    var mv := Table(m.cur, lex[m.i]);
    TableMoves(m.cur, lex[m.i]);
    EvalTracked(lex, cx, m, m.i, mv.labelled, true, |m.stack|);
    var m1 := Evaluate(lex, cx, m, m.i, mv.labelled, true).value;
    NestedEmit(m.blocks, m1.blocks, m.bstack);
    NestedTop(m.blocks, m.bstack);
    PushedTop(m1);
    InfosFollow(m.blocks, m1.blocks);
    PushEmitted(m1, [If(Top(PushBlock(m1).bstack))]);
    PushEmitted(m1, [While(Top(PushBlock(m1).bstack)), Continue]);
    FollowsChain(m.blocks, m1.blocks, m'.blocks);
  }

  lemma InfosFollow(a: seq<Block>, b: seq<Block>)
    requires SameInfos(a, b)
    ensures Follows(a, b)
  {
  }

  lemma {:induction false} TurnTracked(lex: seq<Lexeme>, cx: Context, m: Machine, m': Machine)
    requires Valid(lex, m) && m.i < |lex|
    requires Nested(m.blocks, m.bstack) && |m.bstack| == |m.stack| + 1 && Turn(lex, cx, m) == Good(m')
    requires !(Table(m.cur, lex[m.i]).Enter? && m.cur.InRoot?)
    ensures m.blocks != [] && m'.blocks != [] && Tracked(lex, m, m')
  {
    hide Valid, Nested, Handle, Tracked, Table, Evaluate, PushBlock, PopBlock;
    TableMoves(m.cur, lex[m.i]);
    match Table(m.cur, lex[m.i]) {
      case Goto(_, _) => GotoTracked(lex, cx, m, m');
      case Enter(_, _) => EnterTracked(lex, cx, m, m');
      case Leave => LeaveTracked(lex, cx, m, m');
      case EvalThen(_, _) => EvalThenTracked(lex, cx, m, m');
      case BackToEval => EvalThenTracked(lex, cx, m, m');
      case EvalEnter(_, _) => EvalEnterTracked(lex, cx, m, m');
      case _ => StayTracked(lex, cx, m, m');
    }
  }

  // ----- the two agree -----

  /** The blocks of a finished run have one child of the root for each mark still to
      come, and marks that carry a name carry the name of the child. */
  ghost predicate MarksNameKids(lex: seq<Lexeme>, m: Machine, bs: seq<Block>)
    requires m.blocks != [] && bs != []
  {
    var kids, ms := m.blocks[0].children, Marks(lex, m.i, Depth(m.cur, |m.stack|));
    && Follows(m.blocks, bs)
    && kids <= bs[0].children && |bs[0].children| == |kids| + |ms|
    && (forall k :: 0 <= k < |ms| && ms[k].Some? ==> NamedKid(bs, |kids| + k, ms[k]))
  }

  predicate NamedKid(bs: seq<Block>, k: nat, name: Option<string>)
    requires bs != []
  {
    k < |bs[0].children| && bs[0].children[k] < |bs| && DeclaredName(bs[bs[0].children[k]]) == name
  }

  /** The block that waits for its name gets it from the next lexeme. */
  ghost predicate WaitsForName(lex: seq<Lexeme>, m: Machine, bs: seq<Block>) {
    (m.cur.InContract? || m.cur.InFunc?) && m.i < |lex| && lex[m.i].Ident? && m.bstack != [] ==>
      Top(m.bstack) < |bs| && DeclaredName(bs[Top(m.bstack)]) == Some(lex[m.i].name)
  }

  lemma {:induction false} TrackedNames(lex: seq<Lexeme>, m: Machine, m': Machine, bs: seq<Block>)
    requires m.i < |lex| && m.blocks != [] && m'.blocks != [] && bs != [] && Tracked(lex, m, m') && MarksNameKids(lex, m', bs)
    ensures MarksNameKids(lex, m, bs)
  {
    hide Marks, Follows;
    FollowsChain(m.blocks, m'.blocks, bs);
  }

  lemma {:induction false} RootNames(lex: seq<Lexeme>, m: Machine, m': Machine, bs: seq<Block>)
    requires m.i < |lex| && m.blocks != [] && m'.blocks != [] && bs != [] && MarksNameKids(lex, m', bs) && WaitsForName(lex, m', bs)
    requires Follows(m.blocks, m'.blocks) && m'.i == m.i + 1 && m.cur.InRoot? && Opens(lex[m.i])
    requires m'.blocks[0].children == m.blocks[0].children + [|m.blocks|]
    requires (m'.cur.InContract? || m'.cur.InFunc?) && |m'.stack| == 1 && m'.bstack == m.bstack + [|m.blocks|]
    ensures MarksNameKids(lex, m, bs)
  {
    hide Follows;
    FollowsChain(m.blocks, m'.blocks, bs);
    var kids, ms, rest := m.blocks[0].children, Marks(lex, m.i, 0), Marks(lex, m'.i, 0);
    var mark := if m.i + 1 < |lex| && lex[m.i + 1].Ident? then Some(lex[m.i + 1].name) else None;
    assert ms == [mark] + rest;
    forall k | 0 <= k < |ms| && ms[k].Some? ensures NamedKid(bs, |kids| + k, ms[k]) {
      if k == 0 {
        assert bs[0].children[|kids|] == m'.blocks[0].children[|kids|] == |m.blocks|;
      } else {
        assert NamedKid(bs, |m'.blocks[0].children| + (k - 1), rest[k - 1]);
      }
    }
  }

  lemma {:induction false} RunNames(lex: seq<Lexeme>, cx: Context, m: Machine)
    requires Valid(lex, m) && Compile(lex, cx, m).Good?
    ensures var bs := Compile(lex, cx, m).value;
            m.blocks != [] && bs != [] && MarksNameKids(lex, m, bs) && WaitsForName(lex, m, bs)
    decreases Measure(lex, m)
  {
    hide Valid, Turn, Tracked, MarksNameKids, Nested, Table, Measure;
    ValidNested(lex, m);
    NestedTop(m.blocks, m.bstack);
    var bs := Compile(lex, cx, m).value;
    if m.i >= |lex| {
      EndNames(lex, m);
    } else {
      StepKeeps(lex, cx, m);
      var m' := Turn(lex, cx, m).value;
      RunNames(lex, cx, m');
      if Table(m.cur, lex[m.i]).Enter? && m.cur.InRoot? {
        RootTracked(lex, cx, m, m');
        RootNames(lex, m, m', bs);
      } else {
        TurnTracked(lex, cx, m, m');
        TrackedNames(lex, m, m', bs);
        if (m.cur.InContract? || m.cur.InFunc?) && lex[m.i].Ident? {
          NamingMove(m.cur, lex[m.i]);
          GotoTracked(lex, cx, m, m');
          FollowedName(lex, m', bs, Top(m.bstack), lex[m.i].name);
        }
      }
    }
  }

  lemma FollowedName(lex: seq<Lexeme>, m': Machine, bs: seq<Block>, k: nat, name: string)
    requires m'.blocks != [] && bs != [] && MarksNameKids(lex, m', bs) && k < |m'.blocks| && DeclaredName(m'.blocks[k]) == Some(name)
    ensures k < |bs| && DeclaredName(bs[k]) == Some(name)
  {
  }

  lemma EndNames(lex: seq<Lexeme>, m: Machine)
    requires m.i >= |lex| && m.blocks != []
    ensures MarksNameKids(lex, m, m.blocks)
  {
  }

  /** The names of the root's children, as they are declared. */
  function KidNames(bs: seq<Block>): seq<Option<string>>
    requires bs != [] && forall k :: 0 <= k < |bs[0].children| ==> bs[0].children[k] < |bs|
  {
    seq(|bs[0].children|, k requires 0 <= k < |bs[0].children| => DeclaredName(bs[bs[0].children[k]]))
  }

  function Wrapped(names: seq<string>): seq<Option<string>> {
    seq(|names|, k requires 0 <= k < |names| => Some(names[k]))
  }

  /** Every keyword outside all brackets is directly followed by a name. */
  predicate Direct(lex: seq<Lexeme>) {
    forall k :: 0 <= k < |Marks(lex, 0, 0)| ==> Marks(lex, 0, 0)[k].Some?
  }

  /** The main result: when the compiler succeeds, the scan lists the names of the
      root's children in order if and only if no name stands apart from its keyword. */
  lemma {:induction false} ScanAgrees(lex: seq<Lexeme>, cx: Context)
    requires Valid(lex, Initial()) && Compile(lex, cx, Initial()).Good?
    ensures var bs := Compile(lex, cx, Initial()).value;
            bs != [] && (forall k :: 0 <= k < |bs[0].children| ==> bs[0].children[k] < |bs|) &&
            (Wrapped(NamesFrom(lex, 0, 0)) == KidNames(bs) <==> Direct(lex))
  {
    hide Valid, Compile, Marks, Family, NamesFrom;
    var bs, ms, names := Compile(lex, cx, Initial()).value, Marks(lex, 0, 0), NamesFrom(lex, 0, 0);
    RunNames(lex, cx, Initial());
    CompiledIsSound(lex, cx, Initial());
    KidsInside(bs);
    NamesAreFound(lex, 0, 0);
    FoundSize(ms);
    if Direct(lex) {
      forall k | 0 <= k < |ms| ensures Wrapped(names)[k] == KidNames(bs)[k] { assert NamedKid(bs, 0 + k, ms[k]); }
    }
  }

  lemma {:induction false} KidsInside(bs: seq<Block>)
    requires Family(bs)
    ensures bs != [] && forall k :: 0 <= k < |bs[0].children| ==> bs[0].children[k] < |bs|
  {
    KidsBelow(bs, 0, |bs|);
  }

  lemma {:induction false} KidsBelow(bs: seq<Block>, b: nat, n: nat)
    requires n <= |bs|
    ensures forall k :: 0 <= k < |KidsOf(bs, b, n)| ==> KidsOf(bs, b, n)[k] < n
    decreases n
  {
    if n > 0 { KidsBelow(bs, b, n - 1); }
  }

  // ----- a text whose contract the scan does not see -----

  /** A line break between the keyword and the name. */
  function Broken(name: string): seq<Lexeme> {
    [Key(KwContract), NewLine, Ident(name), LCurly, RCurly]
  }

  /** The machine in the new contract of that text. */
  function InBroken(i: nat, cur: State, c: Block, objects: map<string, Entry>): Machine {
    Machine(i, cur, [InRoot], [0, 1], [EmptyBlock(None).(children := [1], objects := objects), c], 0)
  }

  lemma {:induction false} BrokenEnters(cx: Context, name: string)
    ensures C.RunsTo(Broken(name), cx, Initial(), InBroken(1, InContract, EmptyBlock(Some(0)), map[]))
  {
    hide Valid, Compile, Handle;
    var lex, m := Broken(name), Initial();
    InitialValid(lex);
    ValidNested(lex, m);
    NestedPush(m);
    NothingHere(cx, PushBlock(m).(i := 1, cur := InContract), lex[0]);
    assert EmptyBlock(None).children + [1] == [1];
    assert AddChild(m.blocks, 0) == [EmptyBlock(None).(children := [1]), EmptyBlock(Some(0))];
    assert EmptyBlock(None).(children := [1], objects := map[]) == EmptyBlock(None).(children := [1]);
    assert [] + [InRoot] == [InRoot] && [0] + [1] == [0, 1];
    assert PushBlock(m).(i := 1, cur := InContract) == InBroken(1, InContract, EmptyBlock(Some(0)), map[]);
    C.OneStep(lex, cx, m, InBroken(1, InContract, EmptyBlock(Some(0)), map[]));
  }

  lemma NothingHere(cx: Context, m: Machine, l: Lexeme)
    requires Nested(m.blocks, m.bstack)
    ensures Handle(cx, DoNothing, m, l) == Good(m)
  {
  }

  lemma {:induction false} BrokenNamed(cx: Context, name: string, m2: Machine, m3: Machine)
    requires Valid(Broken(name), m2) && m2 == InBroken(2, InContract, EmptyBlock(Some(0)), map[])
    requires var full := StateName(cx.state, name);
             m3 == InBroken(3, InBlock, EmptyBlock(Some(0)).(info := ContractInfo(name, full, 0, None, None, "")), map[full := ContractEntry(1)])
    ensures C.RunsTo(Broken(name), cx, m2, m3)
  {
    hide Valid, StateName, Compile;
    ValidNested(Broken(name), m2);
    assert Below([0, 1]) == 0 && Top([0, 1]) == 1;
    assert NameAct(cx, m2.blocks, 1, 0, InBlock, name) == m3.blocks;
    C.GotoTurn(Broken(name), cx, m2, InBlock, DoName, m3);
  }

  lemma {:induction false} BrokenRuns(cx: Context, name: string)
    ensures var full := StateName(cx.state, name);
            var c := EmptyBlock(Some(0)).(info := ContractInfo(name, full, 0, None, None, ""));
            C.RunsTo(Broken(name), cx, Initial(), InBroken(4, InBody, c, map[full := ContractEntry(1)]))
  {
    hide Valid, StateName, Compile, Handle;
    var lex, full, e := Broken(name), StateName(cx.state, name), EmptyBlock(Some(0));
    var c := e.(info := ContractInfo(name, full, 0, None, None, ""));
    BrokenEnters(cx, name);
    var m1, m2 := InBroken(1, InContract, e, map[]), InBroken(2, InContract, e, map[]);
    ValidNested(lex, m1);
    NothingHere(cx, m2, NewLine);
    C.GotoTurn(lex, cx, m1, InContract, DoNothing, m2);
    var m3 := InBroken(3, InBlock, c, map[full := ContractEntry(1)]);
    BrokenNamed(cx, name, m2, m3);
    C.CurlyTurn(lex, cx, m3);
  }

  lemma {:induction false} BrokenCompiles(cx: Context, name: string)
    ensures var lex, full := Broken(name), StateName(cx.state, name);
            var c := EmptyBlock(Some(0)).(info := ContractInfo(name, full, 0, None, None, ""));
            Valid(lex, Initial()) &&
            Compile(lex, cx, Initial()) == Good([EmptyBlock(None).(children := [1], objects := map[full := ContractEntry(1)]), c])
  {
    hide Valid, StateName, Turn;
    BrokenRuns(cx, name);
    var lex, full := Broken(name), StateName(cx.state, name);
    var c := EmptyBlock(Some(0)).(info := ContractInfo(name, full, 0, None, None, ""));
    var m4 := InBroken(4, InBody, c, map[full := ContractEntry(1)]);
    var m5 := Machine(5, InRoot, [], [0], m4.blocks, 0);
    BrokenLeaves(cx, name, m4, m5);
    C.OneStep(lex, cx, m4, m5);
    assert Compile(lex, cx, m5) == Good(m5.blocks);
  }

  lemma {:induction false} BrokenLeaves(cx: Context, name: string, m: Machine, m': Machine)
    requires Valid(Broken(name), m) && |m.blocks| == 2 && m == InBroken(4, InBody, m.blocks[1], m.blocks[0].objects)
    requires m' == Machine(5, InRoot, [], [0], m.blocks, 0)
    ensures Nested(m.blocks, m.bstack) && Turn(Broken(name), cx, m) == Good(m')
  {
    hide Valid;
    ValidNested(Broken(name), m);
    assert [0, 1][..1] == [0] && [InRoot][..0] == [];
    assert Top([0, 1]) == 1 && Below([0, 1]) == 0;
  }

  /** The compiler accepts the text and declares the contract; the scan finds no name. */
  lemma {:induction false} LineBreakHidesName(cx: Context, name: string)
    ensures var lex := Broken(name);
            && Valid(lex, Initial()) && Compile(lex, cx, Initial()).Good?
            && var bs := Compile(lex, cx, Initial()).value;
               |bs| == 2 && bs[0].children == [1] && KidNames(bs) == [Some(name)] && NamesFrom(lex, 0, 0) == [] && !Direct(lex)
  {
    hide Valid, StateName, Compile;
    BrokenCompiles(cx, name);
    var lex := Broken(name);
    MarksStep(lex, 4, 1);
    MarksStep(lex, 3, 0);
    MarksStep(lex, 2, 0);
    MarksStep(lex, 1, 0);
    assert Marks(lex, 0, 0) == [None] + Marks(lex, 1, 0);
    assert Marks(lex, 0, 0)[0].None?;
    NamesAreFound(lex, 0, 0);
    assert Found([None]) == [];
  }
}

/**
 The sections `data` and `settings` of a contract: their texts, and what CompileBlock
 enters for them in the contract.
 */
module Sections {
  import opened Wrappers
  import opened Lexemes
  import opened Blocks
  import opened StatementCompilation

  // ----- texts and what they mean -----

  /** Fields of one type; a tag belongs to the last name. */
  datatype Group = Group(names: seq<string>, typ: string, tag: Option<string>)

  datatype Setting = Setting(key: string, value: Const)

  function NameTokens(ns: seq<string>): seq<Lexeme> {
    if ns == [] then [] else if |ns| == 1 then [Ident(ns[0])] else [Ident(ns[0]), Comma] + NameTokens(ns[1..])
  }

  function TagTokens(g: Group): seq<Lexeme> {
    match g.tag case None => [] case Some(s) => [Str(s)]
  }

  function GroupText(g: Group): seq<Lexeme> {
    NameTokens(g.names) + ([TypeName(g.typ)] + (TagTokens(g) + [NewLine]))
  }

  function GroupsText(gs: seq<Group>): seq<Lexeme> {
    if gs == [] then [] else GroupText(gs[0]) + GroupsText(gs[1..])
  }

  function DataText(gs: seq<Group>): seq<Lexeme> {
    [Key(KwTx), LCurly, NewLine] + (GroupsText(gs) + [RCurly, NewLine])
  }

  function ValueToken(c: Const): Lexeme {
    if c.Text? then Str(c.s) else Number(c)
  }

  function EntriesText(es: seq<Setting>): seq<Lexeme> {
    if es == [] then [] else [Ident(es[0].key), Equals, ValueToken(es[0].value), NewLine] + EntriesText(es[1..])
  }

  function SettingsText(es: seq<Setting>): seq<Lexeme> {
    [Key(KwSettings), LCurly, NewLine] + (EntriesText(es) + [RCurly, NewLine])
  }

  predicate GoodGroups(gs: seq<Group>) {
    forall k :: 0 <= k < |gs| ==> gs[k].names != []
  }

  /** A value of a setting is not `nil`, which the program takes for a missing one. */
  predicate GoodSettings(es: seq<Setting>) {
    forall k :: 0 <= k < |es| ==> es[k].value != Nil
  }

  /** Each name in order with the type of its group, and the tag on the last one. */
  function GroupFields(g: Group): seq<DataField> {
    seq(|g.names|, k requires 0 <= k < |g.names| =>
      DataField(g.names[k], Some(g.typ), if k == |g.names| - 1 && g.tag.Some? then g.tag.value else ""))
  }

  function FieldsOf(gs: seq<Group>): seq<DataField> {
    if gs == [] then [] else GroupFields(gs[0]) + FieldsOf(gs[1..])
  }

  /** Each key with the last value written behind it. */
  function SettingsOf(sets: map<string, Option<Const>>, es: seq<Setting>): map<string, Option<Const>>
    decreases |es|
  {
    if es == [] then sets else SettingsOf(sets[es[0].key := Some(es[0].value)], es[1..])
  }

  lemma {:induction false} SettingsRead(sets: map<string, Option<Const>>, es: seq<Setting>, key: string)
    ensures var r := SettingsOf(sets, es);
            && (key in r <==> key in sets || exists k :: 0 <= k < |es| && es[k].key == key)
            && (key in r && (forall k :: 0 <= k < |es| ==> es[k].key != key) ==> r[key] == sets[key])
            && (forall k :: 0 <= k < |es| && es[k].key == key && (forall j :: k < j < |es| ==> es[j].key != key) ==>
                  r[key] == Some(es[k].value))
    decreases |es|
  {
    if es != [] {
      SettingsRead(sets[es[0].key := Some(es[0].value)], es[1..], key);
      assert forall k :: 0 < k < |es| ==> es[k] == es[1..][k - 1];
      assert forall k :: 0 <= k < |es[1..]| ==> es[1..][k] == es[k + 1];
    }
  }

  // ----- the machine inside a section -----

  /** The machine in a section of the contract on top. */
  function Sectioned(m: Machine, i: nat, cur: State, info: Info): Machine
    requires m.bstack != [] && Top(m.bstack) < |m.blocks|
  {
    m.(i := i, cur := cur, blocks := SetInfo(m.blocks, Top(m.bstack), info))
  }

  predicate SectionAct'(act: Act) {
    act.DoTx? || act.DoSettings? || act.DoConstName? || act.DoConstValue? || FieldAction(act)
  }

  lemma {:induction false} SectionTurn(lex: seq<Lexeme>, cx: Context, m: Machine, i: nat, cur: State, info: Info, next: State, act: Act, info': Info)
    requires m.bstack != [] && Top(m.bstack) < |m.blocks| && Valid(lex, Sectioned(m, i, cur, info))
    requires i < |lex| && Table(cur, lex[i]) == Goto(next, act) && (act.DoNothing? || SectionAct'(act))
    requires var b := m.blocks[Top(m.bstack)];
             if act.DoNothing? then info' == info
             else TopAct(cx, act, next, b.(info := info), lex[i]) == Good(b.(info := info'))
    ensures RunsTo(lex, cx, Sectioned(m, i, cur, info), Sectioned(m, i + 1, next, info'))
  {
    hide Valid, Nested, Table, TopAct;
    var s, top := Sectioned(m, i, cur, info), Top(m.bstack);
    ValidNested(lex, s);
    assert s.blocks[top] == m.blocks[top].(info := info);
    assert s.blocks[top := m.blocks[top].(info := info')] == SetInfo(m.blocks, top, info');
    GotoTurn(lex, cx, s, next, act, Sectioned(m, i + 1, next, info'));
  }

  /** A line break or a bracket that changes nothing. */
  lemma {:induction false} QuietTurn(lex: seq<Lexeme>, cx: Context, m: Machine, i: nat, cur: State, info: Info, next: State)
    requires m.bstack != [] && Top(m.bstack) < |m.blocks| && Valid(lex, Sectioned(m, i, cur, info))
    requires i < |lex| && Table(cur, lex[i]) == Goto(next, DoNothing)
    ensures RunsTo(lex, cx, Sectioned(m, i, cur, info), Sectioned(m, i + 1, next, info))
    ensures Valid(lex, Sectioned(m, i + 1, next, info))
  {
    hide Valid, Table, TopAct, Sectioned;
    SectionTurn(lex, cx, m, i, cur, info, next, DoNothing, info);
  }

  lemma {:induction false} FieldTurn(lex: seq<Lexeme>, cx: Context, m: Machine, i: nat, info: Info, fs: seq<DataField>, next: State, act: Act, fs': seq<DataField>)
    requires m.bstack != [] && Top(m.bstack) < |m.blocks| && info.ContractInfo? && Valid(lex, Sectioned(m, i, InFields, WithFields(info, fs)))
    requires i < |lex| && Table(InFields, lex[i]) == Goto(next, act) && FieldAction(act) && FieldAct(act, fs, lex[i]) == Good(fs')
    ensures RunsTo(lex, cx, Sectioned(m, i, InFields, WithFields(info, fs)), Sectioned(m, i + 1, next, WithFields(info, fs')))
    ensures Valid(lex, Sectioned(m, i + 1, next, WithFields(info, fs')))
  {
    hide Valid, Table, Sectioned, FieldAct;
    SectionTurn(lex, cx, m, i, InFields, WithFields(info, fs), next, act, WithFields(info, fs'));
  }

  lemma {:induction false} ConstTurn(lex: seq<Lexeme>, cx: Context, m: Machine, i: nat, cur: State, info: Info, next: State, act: Act, info': Info)
    requires m.bstack != [] && Top(m.bstack) < |m.blocks| && info.ContractInfo? && Valid(lex, Sectioned(m, i, cur, info))
    requires i < |lex| && Table(cur, lex[i]) == Goto(next, act) && (act.DoConstName? || act.DoConstValue?)
    requires var b := m.blocks[Top(m.bstack)]; ConstAct(b.(info := info), lex[i]) == Good(b.(info := info'))
    ensures RunsTo(lex, cx, Sectioned(m, i, cur, info), Sectioned(m, i + 1, next, info'))
    ensures Valid(lex, Sectioned(m, i + 1, next, info'))
  {
    hide Valid, Table, Sectioned, ConstAct;
    SectionTurn(lex, cx, m, i, cur, info, next, act, info');
  }

  /** The keyword of a section. */
  lemma {:induction false} OpenTurn(lex: seq<Lexeme>, cx: Context, m: Machine, act: Act, next: State, info': Info)
    requires m.bstack != [] && Top(m.bstack) < |m.blocks| && Valid(lex, m) && m.cur.InBody? && m.blocks[Top(m.bstack)].info.ContractInfo?
    requires m.i < |lex| && Table(InBody, lex[m.i]) == Goto(next, act) && (act.DoTx? || act.DoSettings?)
    requires var info := m.blocks[Top(m.bstack)].info; info' == if act.DoTx? then info.(tx := Some([])) else info.(settings := Some(map[]))
    ensures RunsTo(lex, cx, m, Sectioned(m, m.i + 1, next, info'))
    ensures Valid(lex, Sectioned(m, m.i + 1, next, info'))
  {
    hide Valid, Table, Sectioned;
    SameMachine(m);
    SectionTurn(lex, cx, m, m.i, InBody, m.blocks[Top(m.bstack)].info, next, act, info');
  }

  lemma SectionRuns(lex: seq<Lexeme>, cx: Context, a: Machine, b: Machine, c: Machine)
    requires RunsTo(lex, cx, a, b) && RunsTo(lex, cx, b, c)
    ensures RunsTo(lex, cx, a, c)
  {
  }

  // ----- data -----

  predicate AllGiven(fs: seq<DataField>) {
    forall k :: 0 <= k < |fs| ==> fs[k].typ.Some?
  }

  lemma FieldTable()
    ensures forall n :: Table(InFields, Ident(n)) == Goto(InFields, DoField)
    ensures forall t :: Table(InFields, TypeName(t)) == Goto(InFields, DoFieldType)
    ensures forall t :: Table(InFields, Str(t)) == Goto(InFields, DoFieldTag)
    ensures Table(InFields, Comma) == Goto(InFields, DoFieldComma) && Table(InFields, NewLine) == Goto(InFields, DoFieldLine)
    ensures Table(InFields, RCurly) == Goto(InBody, DoFieldsEnd) && Table(InBody, NewLine) == Goto(InBody, DoNothing)
    ensures Table(InBody, Key(KwTx)) == Goto(InTx, DoTx) && Table(InTx, LCurly) == Goto(InFields, DoNothing)
    ensures Table(InBody, Key(KwSettings)) == Goto(InSettings, DoSettings) && Table(InSettings, LCurly) == Goto(InConsts, DoNothing)
    ensures Table(InConsts, NewLine) == Goto(InConsts, DoNothing) && Table(InConsts, RCurly) == Goto(InBody, DoNothing)
  {
  }

  /** The names that wait for their type; a comma leaves a mark on the name in front of it. */
  function Untyped(ns: seq<string>): seq<DataField> {
    if ns == [] then [] else if |ns| == 1 then [DataField(ns[0], None, "")] else [DataField(ns[0], None, "_")] + Untyped(ns[1..])
  }

  /** A new name can follow. */
  predicate MayFollow(fs: seq<DataField>) {
    fs != [] ==> LastField(fs).typ.Some? || LastField(fs).tags == "_"
  }

  function WithFields(info: Info, fs: seq<DataField>): Info
    requires info.ContractInfo?
  {
    info.(tx := Some(fs))
  }

  lemma {:induction false} NameTurn(lex: seq<Lexeme>, cx: Context, m: Machine, i: nat, info: Info, fs: seq<DataField>, n: string)
    requires m.bstack != [] && Top(m.bstack) < |m.blocks| && info.ContractInfo? && MayFollow(fs)
    requires Valid(lex, Sectioned(m, i, InFields, WithFields(info, fs))) && i < |lex| && lex[i] == Ident(n)
    ensures RunsTo(lex, cx, Sectioned(m, i, InFields, WithFields(info, fs)),
                   Sectioned(m, i + 1, InFields, WithFields(info, fs + [DataField(n, None, "")])))
  {
    hide Valid, Sectioned, RunsTo, WithFields, FieldAct, Table, MayFollow;
    FieldTable();
    NameAdded(fs, n);
    FieldTurn(lex, cx, m, i, info, fs, InFields, DoField, fs + [DataField(n, None, "")]);
  }

  /** A name with a comma behind it. */
  lemma {:induction false} CommaTurns(lex: seq<Lexeme>, cx: Context, m: Machine, i: nat, info: Info, fs: seq<DataField>, n: string)
    requires m.bstack != [] && Top(m.bstack) < |m.blocks| && info.ContractInfo? && MayFollow(fs)
    requires Valid(lex, Sectioned(m, i, InFields, WithFields(info, fs))) && i + 1 < |lex| && lex[i] == Ident(n) && lex[i + 1] == Comma
    ensures var marked := fs + [DataField(n, None, "_")];
            MayFollow(marked) &&
            RunsTo(lex, cx, Sectioned(m, i, InFields, WithFields(info, fs)), Sectioned(m, i + 2, InFields, WithFields(info, marked)))
  {
    hide Valid, Sectioned, RunsTo, WithFields, FieldAct, Table, MayFollow;
    FieldTable();
    NameAdded(fs, n);
    var one, marked := fs + [DataField(n, None, "")], fs + [DataField(n, None, "_")];
    NameTurn(lex, cx, m, i, info, fs, n);
    var a, b := Sectioned(m, i, InFields, WithFields(info, fs)), Sectioned(m, i + 1, InFields, WithFields(info, one));
    RunsBoth(lex, cx, a, b);
    FieldTurn(lex, cx, m, i + 1, info, one, InFields, DoFieldComma, marked);
    SectionRuns(lex, cx, a, b, Sectioned(m, i + 2, InFields, WithFields(info, marked)));
  }

  /** Two names or more. */
  lemma {:induction false} NamesLayout(lex: seq<Lexeme>, i: nat, ns: seq<string>)
    requires |ns| > 1 && At(lex, i, NameTokens(ns))
    ensures i + 1 < |lex| && lex[i] == Ident(ns[0]) && lex[i + 1] == Comma
    ensures At(lex, i + 2, NameTokens(ns[1..])) && |NameTokens(ns)| == 2 + |NameTokens(ns[1..])|
  {
    hide At;
    var head := [Ident(ns[0]), Comma];
    AtConcat(lex, i, head, NameTokens(ns[1..]));
    AtIndex(lex, i, head, 0);
    AtIndex(lex, i, head, 1);
  }

  lemma UntypedNext(fs: seq<DataField>, ns: seq<string>)
    requires |ns| > 1
    ensures fs + [DataField(ns[0], None, "_")] + Untyped(ns[1..]) == fs + Untyped(ns)
  {
  }

  lemma {:induction false} NamesRun(lex: seq<Lexeme>, cx: Context, m: Machine, i: nat, info: Info, fs: seq<DataField>, ns: seq<string>)
    requires m.bstack != [] && Top(m.bstack) < |m.blocks| && info.ContractInfo? && ns != [] && MayFollow(fs)
    requires Valid(lex, Sectioned(m, i, InFields, WithFields(info, fs))) && At(lex, i, NameTokens(ns))
    ensures RunsTo(lex, cx, Sectioned(m, i, InFields, WithFields(info, fs)),
                   Sectioned(m, i + |NameTokens(ns)|, InFields, WithFields(info, fs + Untyped(ns))))
    decreases |ns|
  {
    hide Valid, Sectioned, At, RunsTo, WithFields, FieldAct, Table, MayFollow;
    if |ns| == 1 {
      AtIndex(lex, i, NameTokens(ns), 0);
      NameTurn(lex, cx, m, i, info, fs, ns[0]);
    } else {
      NamesLayout(lex, i, ns);
      UntypedNext(fs, ns);
      hide NameTokens, Untyped;
      var marked := fs + [DataField(ns[0], None, "_")];
      CommaTurns(lex, cx, m, i, info, fs, ns[0]);
      var a, c := Sectioned(m, i, InFields, WithFields(info, fs)), Sectioned(m, i + 2, InFields, WithFields(info, marked));
      RunsBoth(lex, cx, a, c);
      NamesRun(lex, cx, m, i + 2, info, marked, ns[1..]);
      SectionRuns(lex, cx, a, c, Sectioned(m, i + |NameTokens(ns)|, InFields, WithFields(info, fs + Untyped(ns))));
    }
  }

  lemma NameAdded(fs: seq<DataField>, n: string)
    requires MayFollow(fs)
    ensures var one, marked := fs + [DataField(n, None, "")], fs + [DataField(n, None, "_")];
            FieldAct(DoField, fs, Ident(n)) == Good(one) && FieldAct(DoFieldComma, one, Comma) == Good(marked) && MayFollow(marked)
  {
    var one := fs + [DataField(n, None, "")];
    assert one[|one| - 1 := LastField(one).(tags := "_")] == fs + [DataField(n, None, "_")];
  }

  lemma RunsBoth(lex: seq<Lexeme>, cx: Context, m: Machine, m': Machine)
    requires RunsTo(lex, cx, m, m')
    ensures Valid(lex, m) && Valid(lex, m')
  {
  }

  /** The fields of a group before its tag is read. */
  function Untagged(g: Group): seq<DataField> {
    GroupFields(g.(tag := None))
  }

  lemma {:induction false} UntypedWait(ns: seq<string>)
    ensures |Untyped(ns)| == |ns| && forall k :: 0 <= k < |ns| ==> Untyped(ns)[k].typ.None? && Untyped(ns)[k].name == ns[k]
    decreases |ns|
  {
    if |ns| > 1 { UntypedWait(ns[1..]); }
  }

  lemma {:induction false} TypeGiven(fs: seq<DataField>, g: Group, l: Lexeme)
    requires AllGiven(fs) && g.names != [] && l == TypeName(g.typ)
    ensures FieldAct(DoFieldType, fs + Untyped(g.names), l) == Good(fs + Untagged(g))
  {
    UntypedWait(g.names);
    var all := fs + Untyped(g.names);
    assert LastField(all) == Untyped(g.names)[|g.names| - 1];
    assert all != [] && LastField(all).typ.None?;
    var r := FieldAct(DoFieldType, all, l).value;
    assert |r| == |fs + Untagged(g)|;
    forall k | 0 <= k < |r| ensures r[k] == (fs + Untagged(g))[k] {
      if k >= |fs| { assert all[k] == Untyped(g.names)[k - |fs|]; }
    }
    assert r == fs + Untagged(g);
  }

  lemma {:induction false} TagGiven(fs: seq<DataField>, g: Group, l: Lexeme)
    requires g.names != [] && g.tag.Some? && l == Str(g.tag.value)
    ensures FieldAct(DoFieldTag, fs + Untagged(g), l) == Good(fs + GroupFields(g))
  {
    var all := fs + Untagged(g);
    assert LastField(all) == Untagged(g)[|g.names| - 1];
    assert all[|all| - 1 := LastField(all).(tags := l.s)] == fs + GroupFields(g);
  }

  lemma {:induction false} GroupLayout(lex: seq<Lexeme>, i: nat, g: Group)
    requires At(lex, i, GroupText(g))
    ensures var j := i + |NameTokens(g.names)|;
            && At(lex, i, NameTokens(g.names)) && j < |lex| && lex[j] == TypeName(g.typ)
            && At(lex, j + 1, TagTokens(g)) && At(lex, j + 1 + |TagTokens(g)|, [NewLine])
            && i + |GroupText(g)| == j + 1 + |TagTokens(g)| + 1
  {
    hide At, NameTokens;
    var ns, tail := NameTokens(g.names), TagTokens(g) + [NewLine];
    AtConcat(lex, i, ns, [TypeName(g.typ)] + tail);
    AtConcat(lex, i + |ns|, [TypeName(g.typ)], tail);
    AtConcat(lex, i + |ns| + 1, TagTokens(g), [NewLine]);
    AtIndex(lex, i + |ns|, [TypeName(g.typ)], 0);
  }

  lemma {:induction false} GroupRun(lex: seq<Lexeme>, cx: Context, m: Machine, i: nat, info: Info, fs: seq<DataField>, g: Group)
    requires m.bstack != [] && Top(m.bstack) < |m.blocks| && info.ContractInfo? && g.names != [] && AllGiven(fs)
    requires Valid(lex, Sectioned(m, i, InFields, WithFields(info, fs))) && At(lex, i, GroupText(g))
    ensures RunsTo(lex, cx, Sectioned(m, i, InFields, WithFields(info, fs)),
                   Sectioned(m, i + |GroupText(g)|, InFields, WithFields(info, fs + GroupFields(g))))
  {
    hide Valid, Sectioned, At, RunsTo, NameTokens, Untyped, GroupFields, WithFields, FieldAct, Untagged, Table, GroupText, TagTokens, MayFollow, AllGiven;
    FieldTable();
    GivenFollows(fs);
    GroupLayout(lex, i, g);
    var j := i + |NameTokens(g.names)|;
    NamesRun(lex, cx, m, i, info, fs, g.names);
    var a, b := Sectioned(m, i, InFields, WithFields(info, fs)), Sectioned(m, j, InFields, WithFields(info, fs + Untyped(g.names)));
    RunsBoth(lex, cx, a, b);
    TypeGiven(fs, g, lex[j]);
    FieldTurn(lex, cx, m, j, info, fs + Untyped(g.names), InFields, DoFieldType, fs + Untagged(g));
    var c := Sectioned(m, j + 1, InFields, WithFields(info, fs + Untagged(g)));
    SectionRuns(lex, cx, a, b, c);
    TagRun(lex, cx, m, j + 1, info, fs, g);
    SectionRuns(lex, cx, a, c, Sectioned(m, i + |GroupText(g)|, InFields, WithFields(info, fs + GroupFields(g))));
  }

  lemma {:induction false} TagRun(lex: seq<Lexeme>, cx: Context, m: Machine, i: nat, info: Info, fs: seq<DataField>, g: Group)
    requires m.bstack != [] && Top(m.bstack) < |m.blocks| && info.ContractInfo? && g.names != []
    requires Valid(lex, Sectioned(m, i, InFields, WithFields(info, fs + Untagged(g)))) && At(lex, i, TagTokens(g)) && At(lex, i + |TagTokens(g)|, [NewLine])
    ensures RunsTo(lex, cx, Sectioned(m, i, InFields, WithFields(info, fs + Untagged(g))),
                   Sectioned(m, i + |TagTokens(g)| + 1, InFields, WithFields(info, fs + GroupFields(g))))
  {
    hide Valid, Sectioned, At, RunsTo, WithFields, FieldAct, GroupFields, Table;
    FieldTable();
    var j, before, after := i + |TagTokens(g)|, fs + Untagged(g), fs + GroupFields(g);
    AtIndex(lex, j, [NewLine], 0);
    LastGiven(fs, g);
    LineKeeps(after);
    if g.tag.Some? {
      AtIndex(lex, i, TagTokens(g), 0);
      TagGiven(fs, g, lex[i]);
      FieldTurn(lex, cx, m, i, info, before, InFields, DoFieldTag, after);
      FieldTurn(lex, cx, m, j, info, after, InFields, DoFieldLine, after);
      SectionRuns(lex, cx, Sectioned(m, i, InFields, WithFields(info, before)), Sectioned(m, j, InFields, WithFields(info, after)),
                  Sectioned(m, j + 1, InFields, WithFields(info, after)));
    } else {
      assert g.(tag := None) == g;
      FieldTurn(lex, cx, m, j, info, after, InFields, DoFieldLine, after);
    }
  }

  lemma LineKeeps(fs: seq<DataField>)
    requires fs != [] ==> LastField(fs).typ.Some?
    ensures FieldAct(DoFieldLine, fs, NewLine) == Good(fs) && FieldAct(DoFieldsEnd, fs, RCurly) == Good(fs)
  {
  }

  lemma GivenFollows(fs: seq<DataField>)
    requires AllGiven(fs)
    ensures MayFollow(fs) && (fs != [] ==> LastField(fs).typ.Some?)
  {
  }

  lemma LastGiven(fs: seq<DataField>, g: Group)
    requires g.names != []
    ensures fs + GroupFields(g) != [] && LastField(fs + GroupFields(g)).typ.Some?
    ensures AllGiven(fs) ==> AllGiven(fs + GroupFields(g))
  {
    assert LastField(fs + GroupFields(g)) == GroupFields(g)[|g.names| - 1];
  }

  lemma {:induction false} GroupsRun(lex: seq<Lexeme>, cx: Context, m: Machine, i: nat, info: Info, fs: seq<DataField>, gs: seq<Group>)
    requires m.bstack != [] && Top(m.bstack) < |m.blocks| && info.ContractInfo? && GoodGroups(gs) && AllGiven(fs)
    requires Valid(lex, Sectioned(m, i, InFields, WithFields(info, fs))) && At(lex, i, GroupsText(gs))
    ensures RunsTo(lex, cx, Sectioned(m, i, InFields, WithFields(info, fs)),
                   Sectioned(m, i + |GroupsText(gs)|, InFields, WithFields(info, fs + FieldsOf(gs))))
    ensures AllGiven(fs + FieldsOf(gs))
    decreases |gs|
  {
    hide Valid, Sectioned, At, Compile, GroupText, GroupFields, AllGiven, WithFields;
    if gs == [] {
      assert fs + [] == fs;
    } else {
      var fs1, j := fs + GroupFields(gs[0]), i + |GroupText(gs[0])|;
      AtConcat(lex, i, GroupText(gs[0]), GroupsText(gs[1..]));
      GroupRun(lex, cx, m, i, info, fs, gs[0]);
      LastGiven(fs, gs[0]);
      assert fs1 + FieldsOf(gs[1..]) == fs + FieldsOf(gs);
      hide RunsTo;
      var a, b := Sectioned(m, i, InFields, WithFields(info, fs)), Sectioned(m, j, InFields, WithFields(info, fs1));
      RunsBoth(lex, cx, a, b);
      GroupsRun(lex, cx, m, j, info, fs1, gs[1..]);
      SectionRuns(lex, cx, a, b, Sectioned(m, i + |GroupsText(gs)|, InFields, WithFields(info, fs + FieldsOf(gs))));
    }
  }

  /** The keyword and the bracket in front of a list, and the bracket behind it. */
  lemma {:induction false} Framed(lex: seq<Lexeme>, i: nat, k: Keyword, g: seq<Lexeme>)
    requires At(lex, i, [Key(k), LCurly, NewLine] + (g + [RCurly, NewLine]))
    ensures var j := i + 3 + |g|;
            && j + 1 < |lex| && lex[i] == Key(k) && lex[i + 1] == LCurly && lex[i + 2] == NewLine
            && At(lex, i + 3, g) && lex[j] == RCurly && lex[j + 1] == NewLine
  {
    hide At;
    var head, tail := [Key(k), LCurly, NewLine], [RCurly, NewLine];
    AtConcat(lex, i, head, g + tail);
    AtConcat(lex, i + 3, g, tail);
    AtIndex(lex, i, head, 0);
    AtIndex(lex, i, head, 1);
    AtIndex(lex, i, head, 2);
    AtIndex(lex, i + 3 + |g|, tail, 0);
    AtIndex(lex, i + 3 + |g|, tail, 1);
  }

  /** The result of a data section: the fields are those of its groups. */
  lemma {:induction false} DataRun(lex: seq<Lexeme>, cx: Context, m: Machine, gs: seq<Group>)
    requires Valid(lex, m) && m.cur.InBody? && m.bstack != [] && Top(m.bstack) < |m.blocks|
    requires m.blocks[Top(m.bstack)].info.ContractInfo? && GoodGroups(gs) && At(lex, m.i, DataText(gs))
    ensures RunsTo(lex, cx, m, Sectioned(m, m.i + |DataText(gs)|, InBody, WithFields(m.blocks[Top(m.bstack)].info, FieldsOf(gs))))
  {
    hide Valid, At, RunsTo, GroupsText;
    var info, g := m.blocks[Top(m.bstack)].info, GroupsText(gs);
    Framed(lex, m.i, KwTx, g);
    var j := m.i + 3 + |g|;
    hide Sectioned, TopAct, FieldAct, Table;
    FieldTable();
    var none, full := WithFields(info, []), WithFields(info, FieldsOf(gs));
    OpenTurn(lex, cx, m, DoTx, InTx, none);
    QuietTurn(lex, cx, m, m.i + 1, InTx, none, InFields);
    LineKeeps([]);
    FieldTurn(lex, cx, m, m.i + 2, info, [], InFields, DoFieldLine, []);
    GroupsRun(lex, cx, m, m.i + 3, info, [], gs);
    assert [] + FieldsOf(gs) == FieldsOf(gs);
    var b, c, d, e, f := Sectioned(m, m.i + 1, InTx, none), Sectioned(m, m.i + 2, InFields, none), Sectioned(m, m.i + 3, InFields, none),
                         Sectioned(m, j, InFields, full), Sectioned(m, j + 1, InBody, full);
    RunsBoth(lex, cx, d, e);
    GivenFollows(FieldsOf(gs));
    LineKeeps(FieldsOf(gs));
    FieldTurn(lex, cx, m, j, info, FieldsOf(gs), InBody, DoFieldsEnd, FieldsOf(gs));
    QuietTurn(lex, cx, m, j + 1, InBody, full, InBody);
    SectionRuns(lex, cx, m, b, c);
    SectionRuns(lex, cx, m, c, d);
    SectionRuns(lex, cx, m, d, e);
    SectionRuns(lex, cx, m, e, f);
    SectionRuns(lex, cx, m, f, Sectioned(m, j + 2, InBody, full));
  }

  lemma SameMachine(m: Machine)
    requires m.bstack != [] && Top(m.bstack) < |m.blocks|
    ensures Sectioned(m, m.i, m.cur, m.blocks[Top(m.bstack)].info) == m
  {
    var top := Top(m.bstack);
    assert m.blocks[top := m.blocks[top].(info := m.blocks[top].info)] == m.blocks;
  }

  // ----- settings -----

  function WithSettings(info: Info, sets: map<string, Option<Const>>, last: string): Info
    requires info.ContractInfo?
  {
    info.(settings := Some(sets), pending := last)
  }

  /** The name that was set last. */
  function LastKey(key: string, es: seq<Setting>): string {
    if es == [] then key else es[|es| - 1].key
  }

  lemma {:induction false} EntryRun(lex: seq<Lexeme>, cx: Context, m: Machine, i: nat, info: Info, sets: map<string, Option<Const>>, last: string, s: Setting)
    requires m.bstack != [] && Top(m.bstack) < |m.blocks| && info.ContractInfo? && s.value != Nil
    requires Valid(lex, Sectioned(m, i, InConsts, WithSettings(info, sets, last))) && At(lex, i, [Ident(s.key), Equals, ValueToken(s.value), NewLine])
    ensures RunsTo(lex, cx, Sectioned(m, i, InConsts, WithSettings(info, sets, last)),
                   Sectioned(m, i + 4, InConsts, WithSettings(info, sets[s.key := Some(s.value)], s.key)))
  {
    hide Valid, Sectioned, At, RunsTo;
    var t := [Ident(s.key), Equals, ValueToken(s.value), NewLine];
    AtIndex(lex, i, t, 0);
    AtIndex(lex, i, t, 1);
    AtIndex(lex, i, t, 2);
    AtIndex(lex, i, t, 3);
    var now, named, given := WithSettings(info, sets, last), WithSettings(info, sets[s.key := None], s.key),
                             WithSettings(info, sets[s.key := Some(s.value)], s.key);
    ValueStored(m.blocks[Top(m.bstack)], info, sets, last, s);
    ConstTable(s);
    hide WithSettings, ConstAct, Table, ValueToken;
    ConstTurn(lex, cx, m, i, InConsts, now, InConstsAssign, DoConstName, named);
    QuietTurn(lex, cx, m, i + 1, InConstsAssign, named, InConstsValue);
    ConstTurn(lex, cx, m, i + 2, InConstsValue, named, InConsts, DoConstValue, given);
    QuietTurn(lex, cx, m, i + 3, InConsts, given, InConsts);
    var a, b, c, d := Sectioned(m, i, InConsts, now), Sectioned(m, i + 1, InConstsAssign, named),
                      Sectioned(m, i + 2, InConstsValue, named), Sectioned(m, i + 3, InConsts, given);
    SectionRuns(lex, cx, a, b, c);
    SectionRuns(lex, cx, a, c, d);
    SectionRuns(lex, cx, a, d, Sectioned(m, i + 4, InConsts, given));
  }

  lemma ConstTable(s: Setting)
    ensures Table(InConsts, Ident(s.key)) == Goto(InConstsAssign, DoConstName) && Table(InConstsAssign, Equals) == Goto(InConstsValue, DoNothing)
    ensures Table(InConstsValue, ValueToken(s.value)) == Goto(InConsts, DoConstValue) && Table(InConsts, NewLine) == Goto(InConsts, DoNothing)
  {
  }

  lemma ValueStored(b: Block, info: Info, sets: map<string, Option<Const>>, last: string, s: Setting)
    requires info.ContractInfo? && s.value != Nil
    ensures var named := WithSettings(info, sets[s.key := None], s.key);
            && ConstAct(b.(info := WithSettings(info, sets, last)), Ident(s.key)) == Good(b.(info := named))
            && ConstAct(b.(info := named), ValueToken(s.value)) ==
               Good(b.(info := WithSettings(info, sets[s.key := Some(s.value)], s.key)))
  {
    assert sets[s.key := None][s.key := Some(s.value)] == sets[s.key := Some(s.value)];
  }

  lemma {:induction false} EntriesRun(lex: seq<Lexeme>, cx: Context, m: Machine, i: nat, info: Info, sets: map<string, Option<Const>>, last: string, es: seq<Setting>)
    requires m.bstack != [] && Top(m.bstack) < |m.blocks| && info.ContractInfo? && GoodSettings(es)
    requires Valid(lex, Sectioned(m, i, InConsts, WithSettings(info, sets, last))) && At(lex, i, EntriesText(es))
    ensures RunsTo(lex, cx, Sectioned(m, i, InConsts, WithSettings(info, sets, last)),
                   Sectioned(m, i + |EntriesText(es)|, InConsts, WithSettings(info, SettingsOf(sets, es), LastKey(last, es))))
    decreases |es|
  {
    hide Valid, Sectioned, At, Compile;
    if es != [] {
      var s := es[0];
      AtConcat(lex, i, [Ident(s.key), Equals, ValueToken(s.value), NewLine], EntriesText(es[1..]));
      EntryRun(lex, cx, m, i, info, sets, last, s);
      var sets1 := sets[s.key := Some(s.value)];
      RunsBoth(lex, cx, Sectioned(m, i, InConsts, WithSettings(info, sets, last)), Sectioned(m, i + 4, InConsts, WithSettings(info, sets1, s.key)));
      EntriesRun(lex, cx, m, i + 4, info, sets1, s.key, es[1..]);
      assert LastKey(s.key, es[1..]) == LastKey(last, es);
    }
  }

  /** The result of a settings section: every key has the value written behind it. */
  lemma {:induction false} SettingsRun(lex: seq<Lexeme>, cx: Context, m: Machine, es: seq<Setting>)
    requires Valid(lex, m) && m.cur.InBody? && m.bstack != [] && Top(m.bstack) < |m.blocks|
    requires m.blocks[Top(m.bstack)].info.ContractInfo? && GoodSettings(es) && At(lex, m.i, SettingsText(es))
    ensures var info := m.blocks[Top(m.bstack)].info;
            RunsTo(lex, cx, m, Sectioned(m, m.i + |SettingsText(es)|, InBody, WithSettings(info, SettingsOf(map[], es), LastKey(info.pending, es))))
  {
    hide Valid, At, RunsTo, EntriesText, SettingsOf, LastKey;
    var info, g := m.blocks[Top(m.bstack)].info, EntriesText(es);
    Framed(lex, m.i, KwSettings, g);
    var j := m.i + 3 + |g|;
    hide Sectioned, TopAct, Table;
    FieldTable();
    var none, full := WithSettings(info, map[], info.pending), WithSettings(info, SettingsOf(map[], es), LastKey(info.pending, es));
    OpenTurn(lex, cx, m, DoSettings, InSettings, none);
    hide WithSettings;
    QuietTurn(lex, cx, m, m.i + 1, InSettings, none, InConsts);
    QuietTurn(lex, cx, m, m.i + 2, InConsts, none, InConsts);
    EntriesRun(lex, cx, m, m.i + 3, info, map[], info.pending, es);
    var b, c, d, e, f := Sectioned(m, m.i + 1, InSettings, none), Sectioned(m, m.i + 2, InConsts, none), Sectioned(m, m.i + 3, InConsts, none),
                         Sectioned(m, j, InConsts, full), Sectioned(m, j + 1, InBody, full);
    RunsBoth(lex, cx, d, e);
    QuietTurn(lex, cx, m, j, InConsts, full, InBody);
    QuietTurn(lex, cx, m, j + 1, InBody, full, InBody);
    SectionRuns(lex, cx, m, b, c);
    SectionRuns(lex, cx, m, c, d);
    SectionRuns(lex, cx, m, d, e);
    SectionRuns(lex, cx, m, e, f);
    SectionRuns(lex, cx, m, f, Sectioned(m, j + 2, InBody, full));
  }

  // ----- the sections of a contract -----

  datatype Section = Data(groups: seq<Group>) | Settings(entries: seq<Setting>)

  function SectionText(s: Section): seq<Lexeme> {
    match s case Data(gs) => DataText(gs) case Settings(es) => SettingsText(es)
  }

  function SectionsText(ss: seq<Section>): seq<Lexeme> {
    if ss == [] then [] else SectionText(ss[0]) + SectionsText(ss[1..])
  }

  predicate GoodSection(s: Section) {
    match s case Data(gs) => GoodGroups(gs) case Settings(es) => GoodSettings(es)
  }

  predicate GoodSections(ss: seq<Section>) {
    forall k :: 0 <= k < |ss| ==> GoodSection(ss[k])
  }

  /** What a section enters in the contract. */
  function InfoAfter(info: Info, s: Section): (r: Info)
    requires info.ContractInfo?
    ensures r.ContractInfo?
  {
    match s
    case Data(gs) => WithFields(info, FieldsOf(gs))
    case Settings(es) => WithSettings(info, SettingsOf(map[], es), LastKey(info.pending, es))
  }

  function InfoAfterAll(info: Info, ss: seq<Section>): (r: Info)
    requires info.ContractInfo?
    ensures r.ContractInfo?
    decreases |ss|
  {
    if ss == [] then info else InfoAfterAll(InfoAfter(info, ss[0]), ss[1..])
  }

  /** A contract has the fields of its last data section and the values of its last
      section of settings, whatever stands between them. */
  lemma {:induction false} SectionsRead(info: Info, ss: seq<Section>, k: nat)
    requires info.ContractInfo? && k < |ss|
    ensures ss[k].Data? && (forall j :: k < j < |ss| ==> ss[j].Settings?) ==> InfoAfterAll(info, ss).tx == Some(FieldsOf(ss[k].groups))
    ensures ss[k].Settings? && (forall j :: k < j < |ss| ==> ss[j].Data?) ==>
              InfoAfterAll(info, ss).settings == Some(SettingsOf(map[], ss[k].entries))
    ensures var r := InfoAfterAll(info, ss); r == info.(tx := r.tx, settings := r.settings, pending := r.pending)
    decreases |ss|
  {
    hide FieldsOf, SettingsOf, LastKey;
    var info1 := InfoAfter(info, ss[0]);
    if k > 0 { SectionsRead(info1, ss[1..], k - 1); } else { SectionsKept(info1, ss[1..]); }
  }

  lemma {:induction false} SectionsKept(info: Info, ss: seq<Section>)
    requires info.ContractInfo?
    ensures var r := InfoAfterAll(info, ss);
            && ((forall j :: 0 <= j < |ss| ==> ss[j].Settings?) ==> r.tx == info.tx)
            && ((forall j :: 0 <= j < |ss| ==> ss[j].Data?) ==> r.settings == info.settings)
            && r == info.(tx := r.tx, settings := r.settings, pending := r.pending)
    decreases |ss|
  {
    hide FieldsOf, SettingsOf, LastKey;
    if ss != [] { SectionsKept(InfoAfter(info, ss[0]), ss[1..]); }
  }

  lemma {:induction false} SectionRun(lex: seq<Lexeme>, cx: Context, m: Machine, i: nat, info: Info, s: Section)
    requires m.bstack != [] && Top(m.bstack) < |m.blocks| && info.ContractInfo?
    requires Valid(lex, Sectioned(m, i, InBody, info)) && GoodSection(s) && At(lex, i, SectionText(s))
    ensures RunsTo(lex, cx, Sectioned(m, i, InBody, info), Sectioned(m, i + |SectionText(s)|, InBody, InfoAfter(info, s)))
  {
    hide Valid, At, RunsTo, DataText, SettingsText, WithFields, WithSettings, FieldsOf, SettingsOf, LastKey, GoodGroups, GoodSettings;
    var h, top := Sectioned(m, i, InBody, info), Top(m.bstack);
    assert h.blocks[top] == m.blocks[top].(info := info);
    SectionTwice(m, i, info, i + |SectionText(s)|, InfoAfter(info, s));
    match s
    case Data(gs) => DataRun(lex, cx, h, gs);
    case Settings(es) => SettingsRun(lex, cx, h, es);
  }

  lemma SectionTwice(m: Machine, i: nat, info: Info, i': nat, info': Info)
    requires m.bstack != [] && Top(m.bstack) < |m.blocks|
    ensures var h := Sectioned(m, i, InBody, info);
            Sectioned(h, i', InBody, info') == Sectioned(m, i', InBody, info')
  {
    var top := Top(m.bstack);
    assert SetInfo(SetInfo(m.blocks, top, info), top, info') == SetInfo(m.blocks, top, info');
  }

  lemma {:induction false} SectionsRun(lex: seq<Lexeme>, cx: Context, m: Machine, i: nat, info: Info, ss: seq<Section>)
    requires m.bstack != [] && Top(m.bstack) < |m.blocks| && info.ContractInfo?
    requires Valid(lex, Sectioned(m, i, InBody, info)) && GoodSections(ss) && At(lex, i, SectionsText(ss))
    ensures RunsTo(lex, cx, Sectioned(m, i, InBody, info), Sectioned(m, i + |SectionsText(ss)|, InBody, InfoAfterAll(info, ss)))
    decreases |ss|
  {
    hide Valid, Sectioned, At, Compile, SectionText, InfoAfter, GoodSection;
    if ss != [] {
      AtConcat(lex, i, SectionText(ss[0]), SectionsText(ss[1..]));
      SectionRun(lex, cx, m, i, info, ss[0]);
      var info1, j := InfoAfter(info, ss[0]), i + |SectionText(ss[0])|;
      RunsBoth(lex, cx, Sectioned(m, i, InBody, info), Sectioned(m, j, InBody, info1));
      SectionsRun(lex, cx, m, j, info1, ss[1..]);
    }
  }
}

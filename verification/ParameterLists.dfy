/**
 Parameters and variables that share a type, as in `a, b int`, and what stands in
 front of `...`.
 */
module ParameterLists {
  import opened Wrappers
  import opened Lexemes
  import opened Blocks
  import opened Sections
  import opened StatementCompilation
  import opened Declarations

  /** Each name with the type that they share. */
  function Sharing(ns: seq<string>, t: string): seq<Typing> {
    if ns == [] then [] else [Typing(ns[0], t)] + Sharing(ns[1..], t)
  }

  /** A name has its slot and waits for its type. */
  function Awaiting(f: Block, n: string, param: bool): Block {
    var info := if param && f.info.FuncInfo? then f.info.(params := f.info.params + [None]) else f.info;
    f.(objects := f.objects[n := VarEntry(|f.vars|)], vars := f.vars + [None], info := info)
  }

  function AwaitingAll(f: Block, ns: seq<string>, param: bool): Block
    decreases |ns|
  {
    if ns == [] then f else AwaitingAll(Awaiting(f, ns[0], param), ns[1..], param)
  }

  function Between(param: bool): State {
    if param then InParam else InVar
  }

  function Behind(param: bool): State {
    if param then InParamType else InVarType
  }

  // ----- the blocks -----

  function Nones(n: nat): (r: seq<Option<string>>)
    ensures |r| == n
  {
    seq(n, _ => None)
  }

  lemma NonesNext(vars: seq<Option<string>>, n: nat)
    ensures vars + [None] + Nones(n) == vars + Nones(n + 1)
  {
  }

  lemma {:induction false} AwaitingIs(f: Block, ns: seq<string>, param: bool)
    requires f.info.FuncInfo?
    ensures var r := AwaitingAll(f, ns, param);
            && r.vars == f.vars + Nones(|ns|) && r.info.FuncInfo?
            && r == f.(objects := r.objects, vars := r.vars, info := f.info.(params := r.info.params))
            && r.info.params == if param then f.info.params + Nones(|ns|) else f.info.params
    decreases |ns|
  {
    if ns == [] {
      assert f.vars + Nones(0) == f.vars && f.info.params + Nones(0) == f.info.params;
    } else {
      AwaitingIs(Awaiting(f, ns[0], param), ns[1..], param);
      NonesNext(f.vars, |ns| - 1);
      NonesNext(f.info.params, |ns| - 1);
    }
  }

  function Somes(n: nat, t: string): (r: seq<Option<string>>)
    ensures |r| == n
  {
    seq(n, _ => Some(t))
  }

  lemma SomesNext(vars: seq<Option<string>>, n: nat, t: string)
    ensures vars + [Some(t)] + Somes(n, t) == vars + Somes(n + 1, t)
  {
  }

  lemma {:induction false} SharingIs(f: Block, ns: seq<string>, t: string, param: bool)
    requires f.info.FuncInfo?
    ensures var r := DeclaredAll(f, Sharing(ns, t), param);
            && r.vars == f.vars + Somes(|ns|, t) && r.info.FuncInfo?
            && r == f.(objects := r.objects, vars := r.vars, info := f.info.(params := r.info.params))
            && r.info.params == if param then f.info.params + Somes(|ns|, t) else f.info.params
    decreases |ns|
  {
    if ns == [] {
      assert f.vars + Somes(0, t) == f.vars && f.info.params + Somes(0, t) == f.info.params;
    } else {
      var v, rest := Typing(ns[0], t), Sharing(ns[1..], t);
      assert Sharing(ns, t)[0] == v && Sharing(ns, t)[1..] == rest;
      SharingIs(Declared(f, v, param), ns[1..], t, param);
      SomesNext(f.vars, |ns| - 1, t);
      SomesNext(f.info.params, |ns| - 1, t);
    }
  }

  /** Names get the same slots whether their types come at once or behind the last of them. */
  lemma {:induction false} SameSlots(f: Block, g: Block, ns: seq<string>, t: string, param: bool)
    requires f.objects == g.objects && |f.vars| == |g.vars|
    ensures AwaitingAll(f, ns, param).objects == DeclaredAll(g, Sharing(ns, t), param).objects
    decreases |ns|
  {
    if ns != [] {
      var v, rest := Typing(ns[0], t), Sharing(ns[1..], t);
      assert Sharing(ns, t)[0] == v && Sharing(ns, t)[1..] == rest;
      SameSlots(Awaiting(f, ns[0], param), Declared(g, v, param), ns[1..], t, param);
    }
  }

  lemma {:induction false} TypedNones(vars: seq<Option<string>>, n: nat, t: string)
    requires AllTyped(vars)
    ensures Typed(vars + Nones(n), t) == vars + Somes(n, t)
  {
  }

  lemma {:induction false} WaitingNones(vars: seq<Option<string>>, n: nat)
    requires AllTyped(vars)
    ensures WaitingCount(vars + Nones(n)) == n
    decreases |vars| + n
  {
    var all := vars + Nones(n);
    if n > 0 {
      assert all[..|all| - 1] == vars + Nones(n - 1);
      WaitingNones(vars, n - 1);
    } else if vars != [] {
      assert all == vars && vars[..|vars| - 1] + Nones(0) == vars[..|vars| - 1];
      WaitingNones(vars[..|vars| - 1], 0);
    }
  }

  /** The type goes to every name that waits. */
  lemma {:induction false} TypeShared(cx: Context, f: Block, ns: seq<string>, t: string, param: bool)
    requires f.info.FuncInfo? && AllTyped(f.vars) && AllTyped(f.info.params)
    ensures TopAct(cx, DoType, Between(param), AwaitingAll(f, ns, param), TypeName(t)) == Good(DeclaredAll(f, Sharing(ns, t), param))
  {
    AwaitingIs(f, ns, param);
    SharingIs(f, ns, t, param);
    SameSlots(f, f, ns, t, param);
    TypedNones(f.vars, |ns|, t);
    TypedNones(f.info.params, |ns|, t);
  }

  // ----- the machine -----

  lemma AwaitTable(param: bool)
    ensures forall n :: Table(Between(param), Ident(n)) == Goto(Behind(param), DoParam)
    ensures forall n :: Table(Behind(param), Ident(n)) == Goto(Behind(param), DoParam)
    ensures forall t :: Table(Behind(param), TypeName(t)) == Goto(Between(param), DoType)
    ensures Table(Behind(param), Comma) == Goto(Behind(param), DoNothing)
    ensures Table(InParamType, Key(KwTail)) == Goto(InTail, DoTail)
  {
  }

  lemma AwaitAct(cx: Context, f: Block, n: string, param: bool)
    ensures TopAct(cx, DoParam, Behind(param), f, Ident(n)) == Good(Awaiting(f, n, param))
  {
  }

  lemma AwaitFunc(f: Block, n: string, param: bool)
    ensures Awaiting(f, n, param).info.FuncInfo? == f.info.FuncInfo?
  {
  }

  /** Names with commas between them. */
  lemma {:induction false} WaitingRun(lex: seq<Lexeme>, cx: Context, m: Machine, name: string, i: nat, st: State, f: Block, ns: seq<string>, param: bool)
    requires m.bstack != [] && Top(m.bstack) < |m.blocks| && ns != [] && (st == Between(param) || st == Behind(param))
    requires Valid(lex, Heading(m, name, i, st, f)) && f.info.FuncInfo? && At(lex, i, NameTokens(ns))
    ensures RunsTo(lex, cx, Heading(m, name, i, st, f), Heading(m, name, i + |NameTokens(ns)|, Behind(param), AwaitingAll(f, ns, param)))
    decreases |ns|
  {
    hide Valid, Heading, At, RunsTo, Table, TopAct, Awaiting, Between, Behind;
    AwaitTable(param);
    AwaitAct(cx, f, ns[0], param);
    AwaitFunc(f, ns[0], param);
    var h, f1, next := Heading(m, name, i, st, f), Awaiting(f, ns[0], param), Behind(param);
    var h1, h2 := Heading(m, name, i + 1, next, f1), Heading(m, name, i + 2, next, f1);
    if |ns| == 1 {
      AtIndex(lex, i, NameTokens(ns), 0);
      HeaderTurn(lex, cx, m, name, i, st, f, next, DoParam, f1);
      assert AwaitingAll(f, ns, param) == AwaitingAll(f1, [], param) by { assert ns[1..] == []; }
    } else {
      NamesLayout(lex, i, ns);
      HeaderTurn(lex, cx, m, name, i, st, f, next, DoParam, f1);
      RunsValid(lex, cx, h, h1);
      HeaderTurn(lex, cx, m, name, i + 1, next, f1, next, DoNothing, f1);
      RunsValid(lex, cx, h1, h2);
      WaitingRun(lex, cx, m, name, i + 2, next, f1, ns[1..], param);
      RunsTrans(lex, cx, h, h1, h2);
      RunsTrans(lex, cx, h, h2, Heading(m, name, i + |NameTokens(ns)|, next, AwaitingAll(f, ns, param)));
    }
  }

  /** Names that share a type are declared like names that each have it. */
  lemma {:induction false} SharedRun(lex: seq<Lexeme>, cx: Context, m: Machine, name: string, i: nat, f: Block, ns: seq<string>, t: string, param: bool)
    requires m.bstack != [] && Top(m.bstack) < |m.blocks| && ns != []
    requires Valid(lex, Heading(m, name, i, Between(param), f)) && f.info.FuncInfo?
    requires At(lex, i, NameTokens(ns) + [TypeName(t)])
    ensures RunsTo(lex, cx, Heading(m, name, i, Between(param), f),
                   Heading(m, name, i + |NameTokens(ns)| + 1, Between(param), DeclaredAll(f, Sharing(ns, t), param)))
  {
    hide Valid, Heading, At, RunsTo, Table, TopAct, NameTokens, DeclaredAll, AwaitingAll;
    var j := i + |NameTokens(ns)|;
    AtConcat(lex, i, NameTokens(ns), [TypeName(t)]);
    AtIndex(lex, j, [TypeName(t)], 0);
    AwaitTable(param);
    TypesGiven(lex, m, name, i, f, param);
    TypeShared(cx, f, ns, t, param);
    WaitingRun(lex, cx, m, name, i, Between(param), f, ns, param);
    var h, f1 := Heading(m, name, i, Between(param), f), AwaitingAll(f, ns, param);
    var h1, h2 := Heading(m, name, j, Behind(param), f1), Heading(m, name, j + 1, Between(param), DeclaredAll(f, Sharing(ns, t), param));
    RunsValid(lex, cx, h, h1);
    HeaderTurn(lex, cx, m, name, j, Behind(param), f1, Between(param), DoType, DeclaredAll(f, Sharing(ns, t), param));
    RunsTrans(lex, cx, h, h1, h2);
  }

  lemma {:induction false} TypesGiven(lex: seq<Lexeme>, m: Machine, name: string, i: nat, f: Block, param: bool)
    requires m.bstack != [] && Top(m.bstack) < |m.blocks| && Valid(lex, Heading(m, name, i, Between(param), f)) && f.info.FuncInfo?
    ensures AllTyped(f.vars) && AllTyped(f.info.params)
  {
    hide Valid, Heading;
    HeadingTyped(lex, m, name, i, Between(param), f);
  }

  /** Only one name may wait in front of `...`: with two of them the text is refused. */
  lemma {:induction false} TailRefusedIff(lex: seq<Lexeme>, cx: Context, m: Machine, name: string, i: nat, f: Block, ns: seq<string>)
    requires m.bstack != [] && Top(m.bstack) < |m.blocks| && ns != []
    requires Valid(lex, Heading(m, name, i, InParam, f)) && f.info.FuncInfo?
    requires At(lex, i, NameTokens(ns) + [Key(KwTail)])
    ensures var h, j := Heading(m, name, i, InParam, f), i + |NameTokens(ns)|;
            if |ns| > 1 then Compile(lex, cx, h) == Bad(ErrTail)
            else RunsTo(lex, cx, h, Heading(m, name, j + 1, InTail, WithTail(Declared(f, Typing(ns[0], ARRAY_TYPE), true), true)))
  {
    hide Valid, Heading, At, Table, TopAct, DeclaredAll, AwaitingAll, Compile;
    var j := i + |NameTokens(ns)|;
    AtConcat(lex, i, NameTokens(ns), [Key(KwTail)]);
    if |ns| == 1 {
      assert NameTokens(ns) + [Key(KwTail)] == [Ident(ns[0]), Key(KwTail)];
      TailRun(lex, cx, m, name, i, f, Typing(ns[0], ARRAY_TYPE));
    } else {
      hide NameTokens;
      AtIndex(lex, j, [Key(KwTail)], 0);
      AwaitTable(true);
      TypesGiven(lex, m, name, i, f, true);
      WaitingRun(lex, cx, m, name, i, InParam, f, ns, true);
      var f1 := AwaitingAll(f, ns, true);
      AwaitingIs(f, ns, true);
      WaitingNones(f.info.params, |ns|);
      TailBad(cx, f1);
      HeadingRefused(lex, cx, m, name, j, f1);
    }
  }

  lemma TailBad(cx: Context, f: Block)
    requires f.info.FuncInfo? && WaitingCount(f.info.params) > 1
    ensures TopAct(cx, DoTail, InTail, f, Key(KwTail)) == Bad(ErrTail)
  {
  }

  lemma {:induction false} HeadingRefused(lex: seq<Lexeme>, cx: Context, m: Machine, name: string, j: nat, f: Block)
    requires m.bstack != [] && Top(m.bstack) < |m.blocks| && Valid(lex, Heading(m, name, j, InParamType, f))
    requires j < |lex| && lex[j] == Key(KwTail) && TopAct(cx, DoTail, InTail, f, Key(KwTail)) == Bad(ErrTail)
    ensures Compile(lex, cx, Heading(m, name, j, InParamType, f)) == Bad(ErrTail)
  {
    hide Valid, Nested, TopAct;
    var h := Heading(m, name, j, InParamType, f);
    ValidNested(lex, h);
    assert h.blocks[Top(h.bstack)] == f;
    assert Turn(lex, cx, h) == Bad(ErrTail);
  }
}

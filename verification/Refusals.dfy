/**
 Texts that the compiler refuses: unknown names, brackets without a pair and statements
 that stand where they must not.
 */
module Refusals {
  import opened Wrappers
  import opened Lexemes
  import opened Initializers
  import opened Expressions
  import opened ExpressionTrees
  import opened ExpressionCompilation
  import opened IndexAssignments
  import opened Blocks
  import opened Sections
  import opened Statements
  import opened StatementCompilation

  // ----- names in expressions -----

  /** The loop of compileEval comes from one state to another. */
  predicate Reaches(lex: seq<Lexeme>, env: Env, s: EvalState, t: EvalState)
    decreases |lex| - s.i
  {
    s == t || (s.i < |lex| && EvalStep(lex, s, env).Next? && Reaches(lex, env, EvalStep(lex, s, env).s, t))
  }

  lemma {:induction false} ReachedRuns(lex: seq<Lexeme>, env: Env, s: EvalState, t: EvalState)
    requires Reaches(lex, env, s, t)
    ensures Run(lex, s, env) == Run(lex, t, env)
    decreases |lex| - s.i
  {
    hide EvalStep, Finish;
    if s != t { ReachedRuns(lex, env, EvalStep(lex, s, env).s, t); }
  }

  /** Wherever a name stands in an expression: an unknown name makes compileEval fail, and
      so does a variable that is called and a function or contract that is not. */
  lemma {:induction false} WrongNameFails(lex: seq<Lexeme>, i: nat, env: Env, s: EvalState, n: string)
    requires Reaches(lex, env, Start(i), s) && s.i < |lex| && lex[s.i] == Ident(n)
    ensures var called := s.i + 2 < |lex| && lex[s.i + 1] == LPar;
            && (n !in env ==> EvalAt(lex, i, env) == Bad(ErrUnknownIdent(n)))
            && (n in env && called && env[n].ObjVar? ==> EvalAt(lex, i, env) == Bad(ErrUnknownFunc(n)))
            && (n in env && !called && !env[n].ObjVar? ==> EvalAt(lex, i, env) == Bad(ErrUnknownVar(n)))
  {
    ReachedRuns(lex, env, Start(i), s);
  }

  // ----- brackets in expressions -----

  function Bracket(l: Lexeme): int {
    if l == LPar || l == LBrack then 1 else if l == RPar || l == RBrack then -1 else 0
  }

  /** How many brackets open from `i` to `j`, less those that close. */
  function Depth(lex: seq<Lexeme>, i: nat, j: nat): int
    requires j <= |lex|
    decreases j - i
  {
    if i >= j then 0 else Bracket(lex[i]) + Depth(lex, i + 1, j)
  }

  lemma {:induction false} DepthJoins(lex: seq<Lexeme>, i: nat, j: nat, k: nat)
    requires i <= j <= k <= |lex|
    ensures Depth(lex, i, k) == Depth(lex, i, j) + Depth(lex, j, k)
    decreases j - i
  {
    if i < j { DepthJoins(lex, i + 1, j, k); }
  }

  lemma DepthOne(lex: seq<Lexeme>, i: nat)
    requires i < |lex|
    ensures Depth(lex, i, i + 1) == Bracket(lex[i]) && Depth(lex, i, i) == 0
  {
  }

  lemma {:induction false} ValueDepth(lex: seq<Lexeme>, i: nat, env: Env)
    requires i < |lex| && ValueAt(lex, i, env).Good?
    ensures Depth(lex, i, ValueAt(lex, i, env).value.1 + 1) == 0
    decreases |lex| - i, 1
  {
    hide Depth;
    DepthOne(lex, i);
    match lex[i]
    case LBrack =>
      ArrayDepth(lex, i + 1, [], MustValue, env);
      var j := ArrayFrom(lex, i + 1, [], MustValue, env).value.1;
      DepthOne(lex, j);
      DepthJoins(lex, i, i + 1, j + 1);
      DepthJoins(lex, i + 1, j, j + 1);
    case LCurly =>
      MapDepth(lex, i + 1, "", [], MustKey, env);
      var j := MapFrom(lex, i + 1, "", [], MustKey, env).value.1;
      DepthOne(lex, j);
      DepthJoins(lex, i, i + 1, j + 1);
      DepthJoins(lex, i + 1, j, j + 1);
    case _ =>
  }

  lemma {:induction false} MapDepth(lex: seq<Lexeme>, i: nat, key: string, acc: Entries, st: Expect, env: Env)
    requires i <= |lex| && MapFrom(lex, i, key, acc, st, env).Good?
    ensures Depth(lex, i, MapFrom(lex, i, key, acc, st, env).value.1) == 0
    decreases |lex| - i, 2
  {
    hide Depth, ValueAt;
    DepthOne(lex, i);
    var j := MapFrom(lex, i, key, acc, st, env).value.1;
    if lex[i] != RCurly {
      if lex[i] == NewLine { MapDepth(lex, i + 1, key, acc, st, env); }
      else {
        match st
        case MustComma => MapDepth(lex, i + 1, key, acc, MustKey, env);
        case MustColon => MapDepth(lex, i + 1, key, acc, MustValue, env);
        case MustKey => KeyDepth(lex, i, key, acc, env);
        case MustValue =>
          var v := ValueAt(lex, i, env).value;
          ValueDepth(lex, i, env);
          MapDepth(lex, v.1 + 1, key, SetEntry(acc, key, v.0), MustComma, env);
          DepthJoins(lex, i, v.1 + 1, j);
      }
      if i + 1 <= j { DepthJoins(lex, i, i + 1, j); }
    }
  }

  lemma {:induction false} KeyDepth(lex: seq<Lexeme>, i: nat, key: string, acc: Entries, env: Env)
    requires i < |lex| && lex[i] != NewLine && lex[i] != RCurly && MapFrom(lex, i, key, acc, MustKey, env).Good?
    ensures Depth(lex, i, MapFrom(lex, i, key, acc, MustKey, env).value.1) == 0
    decreases |lex| - i, 1
  {
    hide Depth;
    DepthOne(lex, i);
    match lex[i] {
      case Ident(n) => MapDepth(lex, i + 1, n, acc, MustColon, env);
      case Str(t) => MapDepth(lex, i + 1, t, acc, MustColon, env);
      case Key(k) =>
        var st := if k == KwFunc && i + 1 < |lex| && lex[i + 1].Ident? then MustKey else MustColon;
        MapDepth(lex, i + 1, KeywordText(k), acc, st, env);
      case _ =>
    }
    DepthJoins(lex, i, i + 1, MapFrom(lex, i, key, acc, MustKey, env).value.1);
  }

  lemma {:induction false} ArrayDepth(lex: seq<Lexeme>, i: nat, acc: seq<Item>, st: Expect, env: Env)
    requires i <= |lex| && ArrayFrom(lex, i, acc, st, env).Good?
    ensures Depth(lex, i, ArrayFrom(lex, i, acc, st, env).value.1) == 0
    decreases |lex| - i, 2
  {
    hide Depth, ValueAt;
    DepthOne(lex, i);
    var j := ArrayFrom(lex, i, acc, st, env).value.1;
    if lex[i] != RBrack {
      if lex[i] == NewLine { ArrayDepth(lex, i + 1, acc, st, env); }
      else if st == MustComma { ArrayDepth(lex, i + 1, acc, MustValue, env); }
      else {
        var v := ValueAt(lex, i, env).value;
        ValueDepth(lex, i, env);
        ArrayDepth(lex, v.1 + 1, acc + [v.0], MustComma, env);
        DepthJoins(lex, i, v.1 + 1, j);
      }
      if i + 1 <= j { DepthJoins(lex, i, i + 1, j); }
    }
  }

  /** The brackets that wait in the buffer. */
  function Open(buffer: seq<Code>): nat {
    if buffer == [] then 0 else Open(Front(buffer)) + if Last(buffer) == Sys then 1 else 0
  }

  lemma OpenMore(buffer: seq<Code>, c: Code)
    ensures Open(buffer + [c]) == Open(buffer) + if c == Sys then 1 else 0
  {
    assert Front(buffer + [c]) == buffer;
  }

  lemma {:induction false} NoneOpen(buffer: seq<Code>)
    ensures Open(buffer) == 0 <==> Sys !in buffer
    decreases |buffer|
  {
    if buffer != [] {
      NoneOpen(Front(buffer));
      assert buffer == Front(buffer) + [Last(buffer)];
    }
  }

  lemma {:induction false} FlushOpen(buffer: seq<Code>, code: seq<Code>)
    ensures Open(FlushToBracket(buffer, code).0) == Open(buffer)
    decreases |buffer|
  {
    if buffer != [] && Last(buffer) != Sys { FlushOpen(Front(buffer), code + [Last(buffer)]); }
  }

  lemma {:induction false} CloseOpen(buffer: seq<Code>, code: seq<Code>)
    ensures CloseBracket(buffer, code).Good? ==> Open(CloseBracket(buffer, code).value.0) + 1 == Open(buffer)
    decreases |buffer|
  {
    if buffer != [] { CloseOpen(Front(buffer), code + [Last(buffer)]); }
  }

  lemma {:induction false} RunOpen(buffer: seq<Code>, u: nat)
    requires u <= |buffer| && RunStart(buffer, u).Some?
    ensures Open(buffer[..RunStart(buffer, u).value]) == Open(buffer[..u])
    decreases u
  {
    if u > 0 && RunStart(buffer, u).value < u {
      RunOpen(buffer, u - 1);
      assert Front(buffer[..u]) == buffer[..u - 1] && Last(buffer[..u]) == buffer[u - 1];
    }
  }

  lemma {:induction false} PopOpen(buffer: seq<Code>, code: seq<Code>, p: nat)
    ensures PopHigher(buffer, code, p).Good? ==> Open(PopHigher(buffer, code, p).value.0) == Open(buffer)
    decreases |buffer|
  {
    if buffer != [] && Priority(Last(buffer)).Some? && Priority(Last(buffer)).value >= p && p != UNARY_PRIORITY && Last(buffer) != Sys {
      if Priority(Last(buffer)).value == UNARY_PRIORITY {
        var u := RunStart(buffer, |buffer| - 1);
        if u.Some? {
          RunOpen(buffer, |buffer| - 1);
          assert buffer[..|buffer| - 1] == Front(buffer);
          PopOpen(buffer[..u.value], code + buffer[u.value..], p);
        }
      } else { PopOpen(Front(buffer), code + [Last(buffer)], p); }
    }
  }

  /** Every turn counts the brackets that it passes. */
  lemma {:induction false} StepDepth(lex: seq<Lexeme>, s: EvalState, env: Env)
    requires s.i < |lex|
    ensures var t := EvalStep(lex, s, env);
            && (t.Next? ==> Open(t.s.buffer) == Open(s.buffer) + Depth(lex, s.i, t.s.i))
            && (t.Stop? ==> t.s.buffer == s.buffer && Depth(lex, s.i, t.i + 1) == 0)
  {
    hide Depth, MapFrom, ArrayFrom, CloseBracket, PopHigher, FlushToBracket, Open;
    DepthOne(lex, s.i);
    match lex[s.i]
    case LCurly => CurlyDepth(lex, s, env);
    case LBrack => BrackDepth(lex, s, env);
    case LPar => OpenMore(s.buffer, Sys);
    case Comma => FlushOpen(s.buffer, s.code);
    case RPar =>
      CloseOpen(s.buffer, s.code);
      CallOpen(lex, s, env);
    case RBrack =>
      CloseOpen(s.buffer, s.code);
      IndexOpen(lex, s, env);
    case Oper(op) =>
      var cmd := OperCode(op, s.i > 0 && EndsOperand(lex[s.i - 1]));
      PopOpen(s.buffer, s.code, Priority(cmd).value);
      var r := PopHigher(s.buffer, s.code, Priority(cmd).value);
      if r.Good? { OpenMore(r.value.0, cmd); }
    case Extend(n) =>
      OpenMore(s.buffer, CallExtend(n));
      OpenMore(s.buffer, Index(ToExtend(n)));
    case Ident(n) => NameOpen(lex, s, n, env);
    case _ =>
  }

  lemma CurlyDepth(lex: seq<Lexeme>, s: EvalState, env: Env)
    requires s.i < |lex| && lex[s.i] == LCurly
    ensures var t := EvalStep(lex, s, env);
            && (t.Next? ==> t.s.buffer == s.buffer && Depth(lex, s.i, t.s.i) == 0)
            && (t.Stop? ==> t.s.buffer == s.buffer && Depth(lex, s.i, t.i + 1) == 0)
  {
    hide Depth, MapFrom, StepRPar, StepRBrack, StepOper, StepComma, StepIdent, StepExtend, StepNewLine, ArrayFrom;
    DepthOne(lex, s.i);
    if !s.noMap && MapFrom(lex, s.i + 1, "", [], MustKey, env).Good? {
      var j := MapFrom(lex, s.i + 1, "", [], MustKey, env).value.1;
      MapDepth(lex, s.i + 1, "", [], MustKey, env);
      DepthOne(lex, j);
      DepthJoins(lex, s.i, s.i + 1, j + 1);
      DepthJoins(lex, s.i + 1, j, j + 1);
    }
  }

  lemma BrackDepth(lex: seq<Lexeme>, s: EvalState, env: Env)
    requires s.i < |lex| && lex[s.i] == LBrack
    ensures var t := EvalStep(lex, s, env);
            !t.Stop? && (t.Next? ==> Open(t.s.buffer) == Open(s.buffer) + Depth(lex, s.i, t.s.i))
  {
    hide Depth, ArrayFrom, Open, MapFrom, StepRPar, StepRBrack, StepOper, StepComma, StepIdent, StepExtend, StepNewLine;
    DepthOne(lex, s.i);
    OpenMore(s.buffer, Sys);
    if !s.noMap && ArrayFrom(lex, s.i + 1, [], MustValue, env).Good? {
      var j := ArrayFrom(lex, s.i + 1, [], MustValue, env).value.1;
      ArrayDepth(lex, s.i + 1, [], MustValue, env);
      DepthOne(lex, j);
      DepthJoins(lex, s.i, s.i + 1, j + 1);
      DepthJoins(lex, s.i + 1, j, j + 1);
    }
  }

  lemma CallOpen(lex: seq<Lexeme>, s: EvalState, env: Env)
    requires s.i < |lex| && lex[s.i] == RPar
    ensures var t, r := EvalStep(lex, s, env), CloseBracket(s.buffer, s.code);
            !t.Stop? && (t.Next? ==> r.Good? && t.s.i == s.i + 1 && Open(t.s.buffer) == Open(r.value.0))
  {
    hide CloseBracket;
  }

  lemma IndexOpen(lex: seq<Lexeme>, s: EvalState, env: Env)
    requires s.i < |lex| && lex[s.i] == RBrack
    ensures var t, r := EvalStep(lex, s, env), CloseBracket(s.buffer, s.code);
            !t.Stop? && (t.Next? ==> r.Good? && Open(t.s.buffer) == Open(r.value.0) && Depth(lex, s.i, t.s.i) == -1)
  {
    hide CloseBracket, Depth, ArrayFrom, Open, MapFrom, StepRPar, StepOper, StepComma, StepIdent, StepExtend, StepNewLine;
    DepthOne(lex, s.i);
    var r := CloseBracket(s.buffer, s.code);
    if r.Good? && r.value.0 != [] && Last(r.value.0).Index? {
      OpenMore(Front(r.value.0), Last(r.value.0));
      assert Front(r.value.0) + [Last(r.value.0)] == r.value.0;
      if s.i + 1 < |lex| && lex[s.i + 1] == Equals {
        DepthOne(lex, s.i + 1);
        DepthJoins(lex, s.i, s.i + 1, s.i + 2);
      }
    }
  }

  lemma NameOpen(lex: seq<Lexeme>, s: EvalState, n: string, env: Env)
    requires s.i < |lex| && lex[s.i] == Ident(n)
    ensures var t := EvalStep(lex, s, env); !t.Stop? && (t.Next? ==> t.s.i == s.i + 1 && Open(t.s.buffer) == Open(s.buffer))
  {
    hide Open;
    forall c: Code | c != Sys ensures Open(s.buffer + [c]) == Open(s.buffer) { OpenMore(s.buffer, c); }
  }

  /** Behind the last lexeme of an expression, or at the end of the text. */
  function EndOf(lex: seq<Lexeme>, j: int): (e: nat)
    requires -1 <= j
    ensures e <= |lex|
  {
    if j < |lex| then j + 1 else |lex|
  }

  lemma {:induction false} RunDepth(lex: seq<Lexeme>, s: EvalState, env: Env)
    requires s.i <= |lex|
    ensures var r := Run(lex, s, env);
            r.Good? ==> s.i - 1 <= r.value.0 && Open(s.buffer) + Depth(lex, s.i, EndOf(lex, r.value.0)) == 0
    decreases |lex| - s.i
  {
    hide EvalStep, Open, Depth;
    var r := Run(lex, s, env);
    if r.Good? {
      if s.i == |lex| {
        NoneOpen(s.buffer);
        assert Depth(lex, |lex|, |lex|) == 0 by { NoDepth(lex); }
      } else {
        StepDepth(lex, s, env);
        var t := EvalStep(lex, s, env);
        if t.Next? {
          RunDepth(lex, t.s, env);
          DepthJoins(lex, s.i, t.s.i, EndOf(lex, r.value.0));
        } else {
          NoneOpen(s.buffer);
        }
      }
    }
  }

  lemma NoDepth(lex: seq<Lexeme>)
    ensures Depth(lex, |lex|, |lex|) == 0
  {
  }

  /** Whatever the lexemes are: as many brackets close as open in an expression that compiles. */
  lemma {:induction false} BracketsPair(lex: seq<Lexeme>, i: nat, env: Env)
    requires i <= |lex| && EvalAt(lex, i, env).Good?
    ensures i - 1 <= EvalAt(lex, i, env).value.0
    ensures Depth(lex, i, EndOf(lex, EvalAt(lex, i, env).value.0)) == 0
  {
    hide Run;
    RunDepth(lex, Start(i), env);
  }

  lemma {:induction false} ReachedDepth(lex: seq<Lexeme>, env: Env, s: EvalState, t: EvalState)
    requires Reaches(lex, env, s, t) && s.i <= |lex|
    ensures s.i <= t.i <= |lex| && Open(t.buffer) == Open(s.buffer) + Depth(lex, s.i, t.i)
    decreases |lex| - s.i
  {
    hide EvalStep, Open, Depth;
    if s == t {
      NoDepthAt(lex, s.i);
    } else {
      var u := EvalStep(lex, s, env).s;
      StepDepth(lex, s, env);
      ReachedDepth(lex, env, u, t);
      DepthJoins(lex, s.i, u.i, t.i);
    }
  }

  lemma NoDepthAt(lex: seq<Lexeme>, i: nat)
    requires i <= |lex|
    ensures Depth(lex, i, i) == 0
  {
  }

  /** An expression ends at a line break if and only if every bracket has been closed and
      the line ends neither with a comma nor with an operator; otherwise it goes on. */
  lemma {:induction false} LineBreakEndsIff(lex: seq<Lexeme>, env: Env, i: nat, s: EvalState)
    requires i <= |lex| && Reaches(lex, env, Start(i), s) && s.i < |lex| && lex[s.i] == NewLine
    ensures i <= s.i
    ensures var goesOn := Depth(lex, i, s.i) > 0 || (s.i > 0 && (lex[s.i - 1] == Comma || lex[s.i - 1].Oper?));
            && (goesOn ==> EvalAt(lex, i, env) == Run(lex, s.(i := s.i + 1, noMap := false), env))
            && (!goesOn ==> EvalAt(lex, i, env).Good? && EvalAt(lex, i, env).value.0 == s.i)
  {
    hide Depth, Open, MapFrom, ArrayFrom, StepRPar, StepRBrack, StepOper, StepComma, StepIdent, StepExtend, Reverse;
    ReachedRuns(lex, env, Start(i), s);
    ReachedDepth(lex, env, Start(i), s);
    NoneOpen(s.buffer);
    NoneOpen([]);
  }

  // ----- statements -----

  lemma {:induction false} RefusedTurn(lex: seq<Lexeme>, cx: Context, m: Machine, e: Error)
    requires Valid(lex, m) && m.i < |lex| && Nested(m.blocks, m.bstack) && |m.bstack| == |m.stack| + 1
    requires Turn(lex, cx, m) == Bad(e)
    ensures Compile(lex, cx, m) == Bad(e)
  {
    hide Valid, Nested, Turn;
  }

  lemma {:induction false} RefusedGoto(lex: seq<Lexeme>, cx: Context, m: Machine, next: State, act: Act, e: Error)
    requires Valid(lex, m) && Nested(m.blocks, m.bstack) && m.i < |lex| && Table(m.cur, lex[m.i]) == Goto(next, act)
    requires Handle(cx, act, m.(i := m.i + 1, cur := next), lex[m.i]) == Bad(e)
    ensures Compile(lex, cx, m) == Bad(e)
  {
    hide Valid, Nested, Table, Handle;
    ValidNested(lex, m);
    RefusedTurn(lex, cx, m, e);
  }

  /** A system variable, or a name that starts like those of loops. */
  predicate Reserved(cx: Context, n: string) {
    n in cx.sysVars || (|n| >= 5 && n[..5] == "loop_")
  }

  /** Among the places of an assignment, a system variable is refused and so is a name that is
      no variable of the text; any other place is collected. */
  lemma {:induction false} PlaceRefusedIff(lex: seq<Lexeme>, cx: Context, local: Env, m: Machine, i: nat, ts: seq<Target>, x: Place)
    requires AtStatement(lex, cx, local, m) && i < |lex| && lex[i] == PlaceToken(x) && Valid(lex, Collecting(m, i, ts))
    ensures match x
            case OuterPlace(n) =>
              if Reserved(cx, n) then Compile(lex, cx, Collecting(m, i, ts)) == Bad(ErrSysVar(n))
              else RunsTo(lex, cx, Collecting(m, i, ts), Collecting(m, i + 1, ts + [ToExtend(n)]))
            case VarPlace(n) =>
              if n !in local || !local[n].ObjVar? then Compile(lex, cx, Collecting(m, i, ts)) == Bad(ErrUnknownVar(n))
              else RunsTo(lex, cx, Collecting(m, i, ts), Collecting(m, i + 1, ts + [ToVar(local[n].v)]))
  {
    hide Valid, Nested, Local, Closed, Collecting, Compile, AddTarget;
    LoopNames(cx, x.name);
    if GoodPlace(cx, local, x) {
      PlaceStep(lex, cx, local, m, i, ts, x);
    } else {
      AtStatementFacts(lex, cx, local, m);
      CollectingNames(lex, cx, local, m, i, ts);
      CollectingIs(m, i, ts);
      RefusedGoto(lex, cx, Collecting(m, i, ts), InAssign, DoTarget, if x.OuterPlace? then ErrSysVar(x.name) else ErrUnknownVar(x.name));
    }
  }

  lemma LoopNames(cx: Context, n: string)
    ensures IsSysVar(cx, n) <==> Reserved(cx, n)
  {
  }

  /** The same for a statement that begins with the place. */
  lemma {:induction false} AssignmentRefused(lex: seq<Lexeme>, cx: Context, local: Env, m: Machine, x: Place)
    requires AtStatement(lex, cx, local, m) && m.i + 1 < |lex| && lex[m.i] == PlaceToken(x)
    requires lex[m.i + 1] == Comma || lex[m.i + 1] == Equals
    requires if x.OuterPlace? then Reserved(cx, x.name) else x.name !in local || !local[x.name].ObjVar?
    ensures Compile(lex, cx, m) == Bad(if x.OuterPlace? then ErrSysVar(x.name) else ErrUnknownVar(x.name))
  {
    hide Valid, AtStatement, Collecting, Compile;
    BackForth(lex, cx, local, m, x);
    PlaceRefusedIff(lex, cx, local, m, m.i, [], x);
  }

  /** `else` is refused unless the last command in front of it is that of an `if`. */
  lemma {:induction false} ElseRefused(lex: seq<Lexeme>, cx: Context, local: Env, m: Machine)
    requires AtStatement(lex, cx, local, m) && m.i < |lex| && lex[m.i] == Key(KwElse)
    requires m.bstack != [] && Top(m.bstack) < |m.blocks|
    requires var code := m.blocks[Top(m.bstack)].code; code == [] || !code[|code| - 1].If?
    ensures !Compile(lex, cx, m).Good?
    ensures m.blocks[Top(m.bstack)].code != [] ==> Compile(lex, cx, m) == Bad(ErrElse)
  {
    hide Valid, Nested, Local, Closed;
    AtStatementFacts(lex, cx, local, m);
    NestedPush(m);
    var m1 := PushBlock(m);
    assert Below(m1.bstack) == Top(m.bstack) && m1.blocks[Top(m.bstack)].code == m.blocks[Top(m.bstack)].code;
    assert Table(m.cur, lex[m.i]) == Enter(InBlock, DoElse);
    assert Turn(lex, cx, m) == if m.blocks[Top(m.bstack)].code == [] then Panic else Bad(ErrElse);
  }

  /** A section is refused in any block but that of a contract. */
  lemma {:induction false} SectionRefused(lex: seq<Lexeme>, cx: Context, local: Env, m: Machine)
    requires AtStatement(lex, cx, local, m) && m.i < |lex| && (lex[m.i] == Key(KwTx) || lex[m.i] == Key(KwSettings))
    requires m.bstack != [] && Top(m.bstack) < |m.blocks| && !m.blocks[Top(m.bstack)].info.ContractInfo?
    ensures Compile(lex, cx, m) == Bad(ErrDataPlace)
  {
    hide Valid, Nested, Local, Closed;
    AtStatementFacts(lex, cx, local, m);
    var tx := lex[m.i] == Key(KwTx);
    RefusedGoto(lex, cx, m, if tx then InTx else InSettings, if tx then DoTx else DoSettings, ErrDataPlace);
  }

  /** `if` and `while` need a condition in their line. */
  lemma {:induction false} ConditionRefused(lex: seq<Lexeme>, cx: Context, local: Env, m: Machine)
    requires AtStatement(lex, cx, local, m) && m.i + 1 < |lex| && lex[m.i + 1] == NewLine
    requires lex[m.i] == Key(KwIf) || lex[m.i] == Key(KwWhile)
    ensures Compile(lex, cx, m) == Bad(ErrNoEval)
  {
    hide Valid, Nested, Local, Closed, Run;
    AtStatementFacts(lex, cx, local, m);
    var env := Scope(cx, m);
    IntroStep(lex, m.i, env);
    LineEnds(lex, m.i + 1, env);
    RefusedTurn(lex, cx, m, ErrNoEval);
  }

  lemma LineEnds(lex: seq<Lexeme>, i: nat, env: Env)
    requires 0 < i < |lex| && lex[i] == NewLine && lex[i - 1].Key?
    ensures EvalAt(lex, i, env) == Good((i, []))
  {
    assert [] + Reverse([]) == [];
  }

  /** A lexeme that begins no statement, and one that begins no declaration. */
  lemma {:induction false} StartRefused(lex: seq<Lexeme>, cx: Context, m: Machine)
    requires Valid(lex, m) && m.i < |lex|
    ensures m.cur.InRoot? && lex[m.i] != NewLine && lex[m.i] != Key(KwContract) && lex[m.i] != Key(KwFunc) ==>
              Compile(lex, cx, m) == Bad(ErrState(1))
    ensures m.cur.InBody? && !lex[m.i].Key? && !lex[m.i].Ident? && !lex[m.i].Extend? && lex[m.i] != RCurly && lex[m.i] != NewLine ==>
              Compile(lex, cx, m) == Bad(ErrState(4))
  {
    hide Valid, Nested;
    ValidNested(lex, m);
  }

  /** A text that ends inside a bracket is refused. */
  lemma {:induction false} OpenEndRefused(lex: seq<Lexeme>, cx: Context, m: Machine)
    requires Valid(lex, m) && m.i >= |lex| && m.cur != InRoot
    ensures Compile(lex, cx, m) == Bad(ErrState(4))
  {
    hide Nested, Sound;
  }

  /** Line breaks between statements, declarations and the parts of a header change nothing. */
  lemma {:induction false} LineBreakSkipped(lex: seq<Lexeme>, cx: Context, m: Machine)
    requires Valid(lex, m) && m.i < |lex| && lex[m.i] == NewLine
    requires m.cur.InRoot? || m.cur.InBody? || (InHeader(m.cur) && !m.cur.InParamType?) ||
             m.cur.InTx? || m.cur.InSettings? || m.cur.InConsts?
    ensures RunsTo(lex, cx, m, m.(i := m.i + 1))
  {
    hide Valid, Nested;
    ValidNested(lex, m);
    GotoTurn(lex, cx, m, m.cur, DoNothing, m.(i := m.i + 1));
  }

  // ----- the data section -----

  /** The machine in a data section, behind a list of groups and the names `ns` of the next one. */
  function InGroup(m: Machine, i: nat, info: Info, gs: seq<Group>, ns: seq<string>): Machine
    requires m.bstack != [] && Top(m.bstack) < |m.blocks| && info.ContractInfo?
  {
    Sectioned(m, i, InFields, WithFields(info, FieldsOf(gs) + if ns == [] then [] else Untyped(ns)))
  }

  /** Names without a type may only be followed by their type, a comma excepted; without
      names there can be no type and no comma, and a tag must follow a type. */
  lemma {:induction false} FieldRefused(lex: seq<Lexeme>, cx: Context, m: Machine, i: nat, info: Info, gs: seq<Group>, ns: seq<string>)
    requires m.bstack != [] && Top(m.bstack) < |m.blocks| && info.ContractInfo? && GoodGroups(gs) && i < |lex|
    requires Valid(lex, InGroup(m, i, info, gs, ns))
    ensures ns != [] && (lex[i] == NewLine || lex[i] == RCurly || lex[i].Ident?) ==>
              Compile(lex, cx, InGroup(m, i, info, gs, ns)) == Bad(ErrDataType)
    ensures ns == [] && (lex[i] == Comma || lex[i].TypeName?) ==> Compile(lex, cx, InGroup(m, i, info, gs, ns)) == Bad(ErrDataName)
    ensures ns != [] && lex[i].Str? ==> Compile(lex, cx, InGroup(m, i, info, gs, ns)) == Bad(ErrDataTag)
  {
    hide Valid, FieldsOf, Untyped, Compile, Table, Sectioned, TopAct, WithFields;
    var fs := FieldsOf(gs) + if ns == [] then [] else Untyped(ns);
    LastIs(gs, ns);
    FieldTable();
    var l := lex[i];
    if ns != [] {
      if l == NewLine { FieldFails(lex, cx, m, i, info, fs, InFields, DoFieldLine, ErrDataType); }
      if l == RCurly { FieldFails(lex, cx, m, i, info, fs, InBody, DoFieldsEnd, ErrDataType); }
      if l.Ident? { FieldFails(lex, cx, m, i, info, fs, InFields, DoField, ErrDataType); }
      if l.Str? { FieldFails(lex, cx, m, i, info, fs, InFields, DoFieldTag, ErrDataTag); }
    } else {
      if l == Comma { FieldFails(lex, cx, m, i, info, fs, InFields, DoFieldComma, ErrDataName); }
      if l.TypeName? { FieldFails(lex, cx, m, i, info, fs, InFields, DoFieldType, ErrDataName); }
    }
  }

  lemma {:induction false} FieldFails(lex: seq<Lexeme>, cx: Context, m: Machine, i: nat, info: Info, fs: seq<DataField>, next: State, act: Act, e: Error)
    requires m.bstack != [] && Top(m.bstack) < |m.blocks| && info.ContractInfo? && i < |lex|
    requires Valid(lex, Sectioned(m, i, InFields, WithFields(info, fs)))
    requires Table(InFields, lex[i]) == Goto(next, act) && FieldAction(act) && FieldAct(act, fs, lex[i]) == Bad(e)
    ensures Compile(lex, cx, Sectioned(m, i, InFields, WithFields(info, fs))) == Bad(e)
  {
    hide Valid, Nested, Table, FieldAct, Compile;
    var h := Sectioned(m, i, InFields, WithFields(info, fs));
    ValidNested(lex, h);
    assert h.blocks[Top(h.bstack)].info == WithFields(info, fs);
    RefusedGoto(lex, cx, h, next, act, e);
  }

  lemma {:induction false} LastIs(gs: seq<Group>, ns: seq<string>)
    requires GoodGroups(gs)
    ensures var fs := FieldsOf(gs) + if ns == [] then [] else Untyped(ns);
            && (ns != [] ==> fs != [] && LastField(fs).typ.None? && LastField(fs).tags == "")
            && (ns == [] && fs != [] ==> LastField(fs).typ.Some?)
  {
    if ns != [] { LastUntyped(ns); } else { AllFieldsGiven(gs); }
  }

  lemma {:induction false} LastUntyped(ns: seq<string>)
    requires ns != []
    ensures Untyped(ns) != [] && LastField(Untyped(ns)).typ.None? && LastField(Untyped(ns)).tags == ""
    decreases |ns|
  {
    if |ns| > 1 {
      LastUntyped(ns[1..]);
      assert LastField(Untyped(ns)) == LastField(Untyped(ns[1..]));
    }
  }

  lemma {:induction false} AllFieldsGiven(gs: seq<Group>)
    ensures AllGiven(FieldsOf(gs))
    decreases |gs|
  {
    if gs != [] { AllFieldsGiven(gs[1..]); }
  }
}

/**
 Translation of expressions to postfix bytecode (compileEval in
 packages/script/compile.go): one pass over the lexemes with a buffer of pending
 operators, a stack of argument counts and the code emitted so far.
 */
module Expressions {
  import opened Wrappers
  import opened Lexemes
  import opened Initializers

  const UNARY_PRIORITY: nat := 50
  const BRACKET: nat := 0xff

  function BinPriority(b: Binary): nat {
    match b
    case Or => 10
    case And => 15
    case Equal => 20 case NotEq => 20
    case Less => 22 case NotLess => 22 case Great => 22 case NotGreat => 22
    case Add => 25 case Sub => 25
    case Mul => 30 case Div => 30
  }

  /** The number stored with a pending command; None when the program would panic on reading it. */
  function Priority(c: Code): Option<nat> {
    match c
    case Sys => Some(BRACKET)
    case Un(_) => Some(UNARY_PRIORITY)
    case Bin(b) => Some(BinPriority(b))
    case _ => None
  }

  /** The command of an operator; a minus is a sign where no operand stands in front of it. */
  function OperCode(op: Operator, afterOperand: bool): Code {
    match op
    case OpNot => Un(Not)
    case OpMinus => if afterOperand then Bin(Sub) else Un(Sign)
    case OpAdd => Bin(Add) case OpMul => Bin(Mul) case OpDiv => Bin(Div)
    case OpLess => Bin(Less) case OpGrEq => Bin(NotLess)
    case OpGreat => Bin(Great) case OpLessEq => Bin(NotGreat)
    case OpEq => Bin(Equal) case OpNotEq => Bin(NotEq)
    case OpAnd => Bin(And) case OpOr => Bin(Or)
  }

  predicate EndsOperand(l: Lexeme) {
    l.Number? || l.Ident? || l.Extend? || l.Str? || l == RCurly || l == RBrack || l == RPar
  }

  function Reverse(s: seq<Code>): seq<Code> {
    if s == [] then [] else [s[|s| - 1]] + Reverse(s[..|s| - 1])
  }

  function Last(s: seq<Code>): Code
    requires s != []
  {
    s[|s| - 1]
  }

  function Front(s: seq<Code>): seq<Code>
    requires s != []
  {
    s[..|s| - 1]
  }

  // ----- the three loops over the operator buffer -----

  type Pending = (seq<Code>, seq<Code>)   // the operator buffer and the code emitted so far

  /** A comma: everything above the last open bracket is emitted. */
  function FlushToBracket(buffer: seq<Code>, code: seq<Code>): Pending {
    if buffer == [] || Last(buffer) == Sys then (buffer, code)
    else FlushToBracket(Front(buffer), code + [Last(buffer)])
  }

  /** A closing bracket: the same, and the open bracket is removed. */
  function CloseBracket(buffer: seq<Code>, code: seq<Code>): Outcome<Pending> {
    if buffer == [] then Bad(ErrNoPair)
    else if Priority(Last(buffer)).None? then Panic
    else if Priority(Last(buffer)).value == BRACKET then Good((Front(buffer), code))
    else CloseBracket(Front(buffer), code + [Last(buffer)])
  }

  /** The start of the run of prefix operators that ends below position `u`. */
  function RunStart(buffer: seq<Code>, u: nat): (r: Option<nat>)
    requires u <= |buffer|
    ensures r.Some? ==> r.value <= u
  {
    if u == 0 then Some(0)
    else if Priority(buffer[u - 1]).None? then None
    else if Priority(buffer[u - 1]).value == UNARY_PRIORITY then RunStart(buffer, u - 1)
    else Some(u)
  }

  /** An operator of priority `p` first emits the pending operators that bind at
      least as tightly. A run of prefix operators is emitted as a whole, in the
      order in which it stands in the buffer. */
  function PopHigher(buffer: seq<Code>, code: seq<Code>, p: nat): Outcome<Pending>
    decreases |buffer|
  {
    if buffer == [] then Good((buffer, code))
    else if Priority(Last(buffer)).None? then Panic
    else if Priority(Last(buffer)).value >= p && p != UNARY_PRIORITY && Last(buffer) != Sys then
      if Priority(Last(buffer)).value == UNARY_PRIORITY then
        match RunStart(buffer, |buffer| - 1)
        case None => Panic
        case Some(u) => PopHigher(buffer[..u], code + buffer[u..], p)
      else PopHigher(Front(buffer), code + [Last(buffer)], p)
    else Good((buffer, code))
  }

  // ----- one lexeme -----

  datatype EvalState = EvalState(i: nat, buffer: seq<Code>, code: seq<Code>, parcount: seq<nat>,
                                 setIndex: Option<Target>, noMap: bool)

  datatype Step = Next(s: EvalState) | Stop(i: int, s: EvalState) | StepBad(e: Error) | StepPanic

  function StepNewLine(lex: seq<Lexeme>, s: EvalState): Step
    requires s.i < |lex|
  {
    if s.i > 0 && (lex[s.i - 1] == Comma || lex[s.i - 1].Oper?) then Next(s.(i := s.i + 1, noMap := false))
    else if Sys in s.buffer then Next(s.(i := s.i + 1, noMap := false))
    else Stop(s.i, s.(noMap := false))
  }

  function StepComma(s: EvalState): Step {
    var (b, c) := FlushToBracket(s.buffer, s.code);
    var counts := if s.parcount == [] then []
                  else s.parcount[..|s.parcount| - 1] + [s.parcount[|s.parcount| - 1] + 1];
    Next(s.(i := s.i + 1, buffer := b, code := c, parcount := counts, noMap := false))
  }

  predicate WrongCount(f: Func, count: nat) {
    f.external && count != f.params && (!f.variadic || count < f.params)
  }

  function StepRPar(s: EvalState): Step {
    match CloseBracket(s.buffer, s.code)
    case Bad(e) => StepBad(e)
    case Panic => StepPanic
    case Good((b, c)) =>
      if b != [] && (Last(b).Call? || Last(b).CallVari?) then
        if s.parcount == [] then StepPanic
        else
          var count := s.parcount[|s.parcount| - 1];
          if WrongCount(Last(b).f, count) then StepBad(ErrWrongParams(Last(b).f.name))
          else
            var c' := if Last(b).CallVari? then c + [Push(ArgCount(count))] else c;
            Next(s.(i := s.i + 1, buffer := Front(b), code := c' + [Last(b)],
                    parcount := s.parcount[..|s.parcount| - 1], noMap := true))
      else Next(s.(i := s.i + 1, buffer := b, code := c, noMap := true))
  }

  function StepRBrack(lex: seq<Lexeme>, s: EvalState): Step
    requires s.i < |lex|
  {
    match CloseBracket(s.buffer, s.code)
    case Bad(e) => StepBad(e)
    case Panic => StepPanic
    case Good((b, c)) =>
      if b != [] && Last(b).Index? then
        if s.i + 1 < |lex| && lex[s.i + 1] == Equals then
          Next(s.(i := s.i + 2, buffer := Front(b), code := c, setIndex := Some(Last(b).t), noMap := false))
        else Next(s.(i := s.i + 1, buffer := Front(b), code := c + [Last(b)], noMap := true))
      else Next(s.(i := s.i + 1, buffer := b, code := c, noMap := true))
  }

  function StepOper(lex: seq<Lexeme>, s: EvalState, op: Operator): Step
    requires s.i < |lex|
  {
    var cmd := OperCode(op, s.i > 0 && EndsOperand(lex[s.i - 1]));
    match PopHigher(s.buffer, s.code, Priority(cmd).value)
    case Bad(e) => StepBad(e)
    case Panic => StepPanic
    case Good((b, c)) => Next(s.(i := s.i + 1, buffer := b + [cmd], code := c, noMap := false))
  }

  function StepExtend(lex: seq<Lexeme>, s: EvalState, name: string): Step
    requires s.i < |lex|
  {
    if s.i + 2 < |lex| && lex[s.i + 1] == LPar then
      Next(s.(i := s.i + 1, buffer := s.buffer + [CallExtend(name)],
              parcount := s.parcount + [if lex[s.i + 2] != RPar then 1 else 0], noMap := true))
    else
      var b := if s.i + 1 < |lex| && lex[s.i + 1] == LBrack then s.buffer + [Index(ToExtend(name))] else s.buffer;
      Next(s.(i := s.i + 1, buffer := b, code := s.code + [ExtendVar(name)], noMap := true))
  }

  function StepIdent(lex: seq<Lexeme>, s: EvalState, name: string, env: Env): Step
    requires s.i < |lex|
  {
    if name !in env then StepBad(ErrUnknownIdent(name))
    else if s.i + 2 < |lex| && lex[s.i + 1] == LPar then
      match env[name]
      case ObjVar(_) => StepBad(ErrUnknownFunc(name))
      case ObjContract(_) => StepBad(ErrContractCall(name))
      case ObjFunc(f) =>
        Next(s.(i := s.i + 1, buffer := s.buffer + [if f.variadic then CallVari(f) else Call(f)],
                parcount := s.parcount + [if lex[s.i + 2] != RPar then 1 else 0], noMap := true))
    else if !env[name].ObjVar? then StepBad(ErrUnknownVar(name))
    else
      var b := if s.i + 2 < |lex| && lex[s.i + 1] == LBrack
               then s.buffer + [Index(ToVar(env[name].v))] else s.buffer;
      Next(s.(i := s.i + 1, buffer := b, code := s.code + [Var(env[name].v)], noMap := true))
  }

  function EvalStep(lex: seq<Lexeme>, s: EvalState, env: Env): (r: Step)
    requires s.i < |lex|
    ensures r.Next? ==> s.i < r.s.i <= |lex|
    ensures r.Stop? ==> s.i - 1 <= r.i <= s.i
  {
    match lex[s.i]
    case LCurly =>
      if s.noMap then Stop(s.i - 1, s.(noMap := false))
      else (match MapFrom(lex, s.i + 1, "", [], MustKey, env)
            case Good((m, j)) => Next(s.(i := j + 1, code := s.code + [MapInit(m)]))
            case Bad(e) => StepBad(e)
            case Panic => StepPanic)
    case LBrack =>
      if s.noMap then Next(s.(i := s.i + 1, buffer := s.buffer + [Sys], noMap := false))
      else (match ArrayFrom(lex, s.i + 1, [], MustValue, env)
            case Good((a, j)) => Next(s.(i := j + 1, code := s.code + [ArrayInit(a)]))
            case Bad(e) => StepBad(e)
            case Panic => StepPanic)
    case RCurly => Stop(s.i - 1, s.(noMap := false))
    case NewLine => StepNewLine(lex, s)
    case LPar => Next(s.(i := s.i + 1, buffer := s.buffer + [Sys], noMap := false))
    case Comma => StepComma(s)
    case RPar => StepRPar(s)
    case RBrack => StepRBrack(lex, s)
    case Oper(op) => StepOper(lex, s, op)
    case Number(c) => Next(s.(i := s.i + 1, code := s.code + [Push(c)], noMap := true))
    case Str(t) => Next(s.(i := s.i + 1, code := s.code + [Push(Text(t))], noMap := true))
    case Extend(name) => StepExtend(lex, s, name)
    case Ident(name) => StepIdent(lex, s, name, env)
    case Key(k) =>
      Next(s.(i := s.i + 1, code := if k == KwTail then s.code + [UnwrapArr] else s.code, noMap := false))
    case _ => Next(s.(i := s.i + 1, noMap := false))
  }

  /** The end of the loop: pending operators are emitted from the top down. */
  function Finish(i: int, s: EvalState): Outcome<(int, seq<Code>)> {
    if Sys in s.buffer then Bad(ErrNoPair)
    else
      var c := s.code + Reverse(s.buffer);
      Good((i, match s.setIndex case None => c case Some(t) => c + [SetIndex(t)]))
  }

  function Run(lex: seq<Lexeme>, s: EvalState, env: Env): Outcome<(int, seq<Code>)>
    decreases |lex| - s.i
  {
    if s.i >= |lex| then Finish(s.i, s)
    else
      match EvalStep(lex, s, env)
      case Next(s') => Run(lex, s', env)
      case Stop(i, s') => Finish(i, s')
      case StepBad(e) => Bad(e)
      case StepPanic => Panic
  }

  function Start(i: nat): EvalState {
    EvalState(i, [], [], [], None, false)
  }

  /** The code of the expression at `i` and the position of the last lexeme used. */
  function EvalAt(lex: seq<Lexeme>, i: nat, env: Env): Outcome<(int, seq<Code>)> {
    Run(lex, Start(i), env)
  }

  // ----- the loops as the program runs them -----

  method FlushLoop(buffer: seq<Code>, code: seq<Code>) returns (b: seq<Code>, c: seq<Code>)
    ensures (b, c) == FlushToBracket(buffer, code)
  {
    b, c := buffer, code;
    while b != [] && Last(b) != Sys
      invariant FlushToBracket(b, c) == FlushToBracket(buffer, code)
      decreases |b|
    {
      b, c := Front(b), c + [Last(b)];
    }
  }

  method CloseLoop(buffer: seq<Code>, code: seq<Code>) returns (r: Outcome<Pending>)
    ensures r == CloseBracket(buffer, code)
  {
    var b, c := buffer, code;
    while true
      invariant CloseBracket(b, c) == CloseBracket(buffer, code)
      decreases |b|
    {
      if b == [] { return Bad(ErrNoPair); }
      var prev := Last(b);
      b := Front(b);
      if Priority(prev).None? { return Panic; }
      if Priority(prev).value == BRACKET { return Good((b, c)); }
      c := c + [prev];
    }
  }

  method OperLoop(buffer: seq<Code>, code: seq<Code>, p: nat) returns (r: Outcome<Pending>)
    ensures r == PopHigher(buffer, code, p)
  {
    var b, c := buffer, code;
    while b != []
      invariant PopHigher(b, c, p) == PopHigher(buffer, code, p)
      decreases |b|
    {
      var prev := Last(b);
      if Priority(prev).None? { return Panic; }
      if Priority(prev).value >= p && p != UNARY_PRIORITY && prev != Sys {
        if Priority(prev).value == UNARY_PRIORITY {
          var u := |b| - 1;
          while u > 0 && Priority(b[u - 1]) == Some(UNARY_PRIORITY)
            invariant 0 <= u < |b|
            invariant RunStart(b, u) == RunStart(b, |b| - 1)
          {
            u := u - 1;
          }
          if u > 0 && Priority(b[u - 1]).None? { return Panic; }
          c := c + b[u..];
          b := b[..u];
        } else {
          c := c + [prev];
          b := Front(b);
        }
      } else {
        break;
      }
    }
    return Good((b, c));
  }

  method CloseCall(s: EvalState) returns (r: Step)
    ensures r == StepRPar(s)
  {
    hide CloseBracket;
    var closed := CloseLoop(s.buffer, s.code);
    if closed.Bad? { return StepBad(closed.error); }
    if closed.Panic? { return StepPanic; }
    var (b, c) := closed.value;
    if b == [] || !(Last(b).Call? || Last(b).CallVari?) {
      return Next(s.(i := s.i + 1, buffer := b, code := c, noMap := true));
    }
    if s.parcount == [] { return StepPanic; }
    var prev := Last(b);
    var count := s.parcount[|s.parcount| - 1];
    if WrongCount(prev.f, count) { return StepBad(ErrWrongParams(prev.f.name)); }
    if prev.CallVari? { c := c + [Push(ArgCount(count))]; }
    return Next(s.(i := s.i + 1, buffer := Front(b), code := c + [prev],
                   parcount := s.parcount[..|s.parcount| - 1], noMap := true));
  }

  method CloseIndex(lex: seq<Lexeme>, s: EvalState) returns (r: Step)
    requires s.i < |lex|
    ensures r == StepRBrack(lex, s)
  {
    hide CloseBracket;
    var closed := CloseLoop(s.buffer, s.code);
    if closed.Bad? { return StepBad(closed.error); }
    if closed.Panic? { return StepPanic; }
    var (b, c) := closed.value;
    if b == [] || !Last(b).Index? {
      return Next(s.(i := s.i + 1, buffer := b, code := c, noMap := true));
    }
    if s.i + 1 < |lex| && lex[s.i + 1] == Equals {
      return Next(s.(i := s.i + 2, buffer := Front(b), code := c, setIndex := Some(Last(b).t), noMap := false));
    }
    return Next(s.(i := s.i + 1, buffer := Front(b), code := c + [Last(b)], noMap := true));
  }

  method PushOper(lex: seq<Lexeme>, s: EvalState, op: Operator) returns (r: Step)
    requires s.i < |lex|
    ensures r == StepOper(lex, s, op)
  {
    hide PopHigher;
    var cmd := OperCode(op, s.i > 0 && EndsOperand(lex[s.i - 1]));
    var popped := OperLoop(s.buffer, s.code, Priority(cmd).value);
    if popped.Bad? { return StepBad(popped.error); }
    if popped.Panic? { return StepPanic; }
    return Next(s.(i := s.i + 1, buffer := popped.value.0 + [cmd], code := popped.value.1, noMap := false));
  }

  method SkipLine(lex: seq<Lexeme>, s: EvalState) returns (r: Step)
    requires s.i < |lex|
    ensures r == StepNewLine(lex, s)
  {
    if s.i > 0 && (lex[s.i - 1] == Comma || lex[s.i - 1].Oper?) {
      return Next(s.(i := s.i + 1, noMap := false));
    }
    for k := |s.buffer| downto 0
      invariant Sys !in s.buffer[k..]
    {
      if s.buffer[k] == Sys { return Next(s.(i := s.i + 1, noMap := false)); }
    }
    assert s.buffer == s.buffer[0..];
    return Stop(s.i, s.(noMap := false));
  }

  /** A name: a call when a parenthesis follows, an index when a bracket does, or a variable. */
  method ReadIdent(lex: seq<Lexeme>, s: EvalState, name: string, env: Env) returns (r: Step)
    requires s.i < |lex|
    ensures r == StepIdent(lex, s, name, env)
  {
    if name !in env { return StepBad(ErrUnknownIdent(name)); }
    var obj := env[name];
    var b, c, counts := s.buffer, s.code, s.parcount;
    if s.i + 2 < |lex| && lex[s.i + 1] == LPar {
      if obj.ObjVar? { return StepBad(ErrUnknownFunc(name)); }
      if obj.ObjContract? { return StepBad(ErrContractCall(name)); }
      b := b + [if obj.f.variadic then CallVari(obj.f) else Call(obj.f)];
      counts := counts + [if lex[s.i + 2] != RPar then 1 else 0];
    } else {
      if !obj.ObjVar? { return StepBad(ErrUnknownVar(name)); }
      if s.i + 2 < |lex| && lex[s.i + 1] == LBrack { b := b + [Index(ToVar(obj.v))]; }
      c := c + [Var(obj.v)];
    }
    return Next(s.(i := s.i + 1, buffer := b, code := c, parcount := counts, noMap := true));
  }

  method ReadExtend(lex: seq<Lexeme>, s: EvalState, name: string) returns (r: Step)
    requires s.i < |lex|
    ensures r == StepExtend(lex, s, name)
  {
    var b, c, counts := s.buffer, s.code, s.parcount;
    if s.i + 2 < |lex| && lex[s.i + 1] == LPar {
      b := b + [CallExtend(name)];
      counts := counts + [if lex[s.i + 2] != RPar then 1 else 0];
    } else {
      if s.i + 1 < |lex| && lex[s.i + 1] == LBrack { b := b + [Index(ToExtend(name))]; }
      c := c + [ExtendVar(name)];
    }
    return Next(s.(i := s.i + 1, buffer := b, code := c, parcount := counts, noMap := true));
  }

  /** One turn of the loop. */
  method OneLexeme(lex: seq<Lexeme>, s: EvalState, env: Env) returns (r: Step)
    requires s.i < |lex|
    ensures r == EvalStep(lex, s, env)
  {
    hide MapFrom, ArrayFrom, StepNewLine, StepRPar, StepRBrack, StepOper, StepIdent, StepExtend, FlushToBracket;
    match lex[s.i] {
      case LCurly =>
        if s.noMap { return Stop(s.i - 1, s.(noMap := false)); }
        var m := GetInitMap(lex, s.i, env);
        r := match m case Good((es, j)) => Next(s.(i := j + 1, code := s.code + [MapInit(es)]))
                     case Bad(e) => StepBad(e) case Panic => StepPanic;
      case LBrack =>
        if s.noMap { return Next(s.(i := s.i + 1, buffer := s.buffer + [Sys], noMap := false)); }
        var a := GetInitArray(lex, s.i, env);
        r := match a case Good((es, j)) => Next(s.(i := j + 1, code := s.code + [ArrayInit(es)]))
                     case Bad(e) => StepBad(e) case Panic => StepPanic;
      case Comma =>
        var counts := s.parcount;
        if counts != [] { counts := counts[..|counts| - 1] + [counts[|counts| - 1] + 1]; }
        var b, c := FlushLoop(s.buffer, s.code);
        r := Next(s.(i := s.i + 1, buffer := b, code := c, parcount := counts, noMap := false));
      case NewLine => r := SkipLine(lex, s);
      case RPar => r := CloseCall(s);
      case RBrack => r := CloseIndex(lex, s);
      case Oper(op) => r := PushOper(lex, s, op);
      case RCurly => r := Stop(s.i - 1, s.(noMap := false));
      case LPar => r := Next(s.(i := s.i + 1, buffer := s.buffer + [Sys], noMap := false));
      case Number(c) => r := Next(s.(i := s.i + 1, code := s.code + [Push(c)], noMap := true));
      case Str(t) => r := Next(s.(i := s.i + 1, code := s.code + [Push(Text(t))], noMap := true));
      case Ident(name) => r := ReadIdent(lex, s, name, env);
      case Extend(name) => r := ReadExtend(lex, s, name);
      case Key(k) =>
        var c := s.code;
        if k == KwTail { c := c + [UnwrapArr]; }
        r := Next(s.(i := s.i + 1, code := c, noMap := false));
      case _ => r := Next(s.(i := s.i + 1, noMap := false));
    }
  }

  /** compileEval: the loop over the lexemes, then the operators still pending. */
  method CompileEval(lex: seq<Lexeme>, ind: nat, env: Env) returns (r: Outcome<(int, seq<Code>)>)
    ensures r == EvalAt(lex, ind, env)
  {
    hide EvalStep, Finish, Reverse;
    var s := Start(ind);
    while s.i < |lex|
      invariant Run(lex, s, env) == EvalAt(lex, ind, env)
      decreases |lex| - s.i
    {
      var t := OneLexeme(lex, s, env);
      match t
      case Next(s') => s := s';
      case Stop(i, s') => r := FinishLoop(i, s'); return;
      case StepBad(e) => return Bad(e);
      case StepPanic => return Panic;
    }
    r := FinishLoop(s.i, s);
  }

  method FinishLoop(i: int, s: EvalState) returns (r: Outcome<(int, seq<Code>)>)
    ensures r == Finish(i, s)
  {
    var c := s.code;
    assert s.buffer[..|s.buffer|] == s.buffer;
    for k := |s.buffer| downto 0
      invariant Sys !in s.buffer[k..]
      invariant c + Reverse(s.buffer[..k]) == s.code + Reverse(s.buffer)
    {
      if s.buffer[k] == Sys { return Bad(ErrNoPair); }
      assert s.buffer[..k + 1][..k] == s.buffer[..k];
      c := c + [s.buffer[k]];
    }
    assert s.buffer == s.buffer[0..];
    assert c + Reverse([]) == c;
    assert s.buffer[..0] == [];
    if s.setIndex.Some? { c := c + [SetIndex(s.setIndex.value)]; }
    return Good((i, c));
  }
}

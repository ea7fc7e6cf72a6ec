/**
 The block compiler (CompileBlock in packages/script/compile.go): a pushdown
 machine over the lexemes that is driven by a table of states and builds a tree
 of blocks. The blocks live in one list and are named by their place in it; the
 list grows with every block that is entered, and entry 0 is the root.
 */
module Blocks {
  import opened Wrappers
  import opened Lexemes
  import opened Initializers
  import opened Expressions

  // ----- blocks -----

  datatype Entry = VarEntry(slot: nat) | FuncEntry(block: nat) | ContractEntry(block: nat)

  datatype DataField = DataField(name: string, typ: Option<string>, tags: string)

  /** `declared` is the name as it stands in the text. */
  datatype Info =
    | NoInfo
    | FuncInfo(declared: string, params: seq<Option<string>>, results: seq<string>, variadic: bool)
    | ContractInfo(declared: string, name: string, id: nat, tx: Option<seq<DataField>>,
                   settings: Option<map<string, Option<Const>>>, pending: string)

  datatype Block = Block(parent: Option<nat>, objects: map<string, Entry>, vars: seq<Option<string>>,
                         code: seq<Code>, children: seq<nat>, info: Info)

  const ARRAY_TYPE := "array"

  function EmptyBlock(parent: Option<nat>): Block {
    Block(parent, map[], [], [], [], NoInfo)
  }

  // ----- the table of states -----

  datatype State =
    | InRoot | InBody | InBlock | InContract | InFunc | InParams | InParam | InParamType | InTail
    | InResult | InDot | InVar | InVarType | InAssignEval | InAssign | InTx | InSettings
    | InConsts | InConstsAssign | InConstsValue | InFields

  /** The handlers that a transition can name. */
  datatype Act =
    | DoNothing | DoName | DoResult | DoReturn | DoError | DoIf | DoElse | DoWhile | DoContinue | DoBreak
    | DoParam | DoType | DoTail | DoDotName | DoTarget | DoAssign | DoTx | DoSettings | DoConstName
    | DoConstValue | DoField | DoFieldType | DoFieldTag | DoFieldsEnd | DoFieldComma | DoFieldLine

  /** The combinations of state flags that occur in the table. */
  datatype Move =
    | Goto(next: State, act: Act)
    | Enter(next: State, act: Act)              // push
    | Leave                                     // pop
    | Stay(next: State)                         // the lexeme is read again
    | Fork                                      // remember the position
    | BackToAssign                              // to the remembered position, as an assignment
    | BackToEval                                // to the remembered position, as an expression
    | EvalThen(next: State, act: Act)           // an expression
    | EvalEnter(labelled: bool, act: Act)          // a condition that must not be empty, then push
    | Fail(code: nat)

  function RootMove(l: Lexeme): Move {
    match l
    case NewLine => Goto(InRoot, DoNothing)
    case Key(KwContract) => Enter(InContract, DoNothing)
    case Key(KwFunc) => Enter(InFunc, DoNothing)
    case _ => Fail(1)
  }

  function BodyMove(l: Lexeme): Move {
    match l
    case NewLine => Goto(InBody, DoNothing)
    case Key(KwFunc) => Enter(InFunc, DoNothing)
    case Key(KwReturn) => EvalThen(InBody, DoReturn)
    case Key(KwContinue) => Goto(InBody, DoContinue)
    case Key(KwBreak) => Goto(InBody, DoBreak)
    case Key(KwIf) => EvalEnter(false, DoIf)
    case Key(KwWhile) => EvalEnter(true, DoWhile)
    case Key(KwElse) => Enter(InBlock, DoElse)
    case Key(KwVar) => Goto(InVar, DoNothing)
    case Key(KwTx) => Goto(InTx, DoTx)
    case Key(KwSettings) => Goto(InSettings, DoSettings)
    case Key(KwError) => EvalThen(InBody, DoError)
    case Key(KwWarning) => EvalThen(InBody, DoError)
    case Key(KwInfo) => EvalThen(InBody, DoError)
    case Ident(_) => Fork
    case Extend(_) => Fork
    case RCurly => Leave
    case _ => Fail(4)
  }

  /** Headers of functions and contracts. */
  function HeaderMove(st: State, l: Lexeme): Move {
    if l.NewLine? && !st.InParamType? then Goto(st, DoNothing)
    else
      if st.InBlock? then if l.LCurly? then Goto(InBody, DoNothing) else Fail(3)
      else if st.InContract? then if l.Ident? then Goto(InBlock, DoName) else Fail(2)
      else if st.InFunc? then if l.Ident? then Goto(InParams, DoName) else Fail(2)
      else if st.InParams? then if l.LPar? then Goto(InParam, DoNothing) else Stay(InResult)
      else if st.InParam? then
        if l.Ident? then Goto(InParamType, DoParam) else if l.Comma? then Goto(InParam, DoNothing)
        else if l.RPar? then Goto(InResult, DoNothing) else Fail(5)
      else if st.InParamType? then
        if l.Ident? then Goto(InParamType, DoParam) else if l.TypeName? then Goto(InParam, DoType)
        else if l == Key(KwTail) then Goto(InTail, DoTail) else if l.Comma? then Goto(InParamType, DoNothing)
        else Fail(7)
      else if st.InTail? then if l.RPar? then Goto(InResult, DoNothing) else Fail(5)
      else if st.InResult? then
        if l.Dot? then Goto(InDot, DoNothing) else if l.TypeName? then Goto(InResult, DoResult)
        else if l.Comma? then Goto(InResult, DoNothing) else Stay(InBlock)
      else if l.Ident? then Goto(InParams, DoDotName) else Fail(2)
  }

  /** Variables and assignments. */
  function VarMove(st: State, l: Lexeme): Move {
    if st.InVar? then
      if l.NewLine? then Goto(InBody, DoNothing) else if l.Ident? then Goto(InVarType, DoParam)
      else if l.RCurly? then Stay(InBody) else if l.Comma? then Goto(InVar, DoNothing) else Fail(6)
    else if st.InVarType? then
      if l.Ident? then Goto(InVarType, DoParam) else if l.TypeName? then Goto(InVar, DoType)
      else if l.Comma? then Goto(InVarType, DoNothing) else Fail(7)
    else if st.InAssignEval? then if l.LPar? || l.LBrack? then BackToEval else BackToAssign
    else
      if l.Comma? then Goto(InAssign, DoNothing) else if l.Ident? || l.Extend? then Goto(InAssign, DoTarget)
      else if l.Equals? then EvalThen(InBody, DoAssign) else Fail(8)
  }

  /** The data and settings sections of a contract. */
  function DataMove(st: State, l: Lexeme): Move {
    if st.InTx? then if l.NewLine? then Goto(InTx, DoNothing) else if l.LCurly? then Goto(InFields, DoNothing) else Fail(3)
    else if st.InSettings? then
      if l.NewLine? then Goto(InSettings, DoNothing) else if l.LCurly? then Goto(InConsts, DoNothing) else Fail(3)
    else if st.InConsts? then
      if l.NewLine? || l.Comma? then Goto(InConsts, DoNothing) else if l.Ident? then Goto(InConstsAssign, DoConstName)
      else if l.RCurly? then Goto(InBody, DoNothing) else Fail(4)
    else if st.InConstsAssign? then if l.Equals? then Goto(InConstsValue, DoNothing) else Fail(8)
    else if st.InConstsValue? then if l.Str? || l.Number? then Goto(InConsts, DoConstValue) else Fail(9)
    else
      if l.NewLine? then Goto(InFields, DoFieldLine) else if l.Comma? then Goto(InFields, DoFieldComma)
      else if l.Ident? then Goto(InFields, DoField) else if l.TypeName? then Goto(InFields, DoFieldType)
      else if l.Str? then Goto(InFields, DoFieldTag) else if l.RCurly? then Goto(InBody, DoFieldsEnd) else Fail(4)
  }

  predicate InHeader(st: State) {
    st.InBlock? || st.InContract? || st.InFunc? || st.InParams? || st.InParam? || st.InParamType? ||
    st.InTail? || st.InResult? || st.InDot?
  }

  predicate InVars(st: State) {
    st.InVar? || st.InVarType? || st.InAssignEval? || st.InAssign?
  }

  function Table(st: State, l: Lexeme): Move {
    if st.InRoot? then RootMove(l)
    else if st.InBody? then BodyMove(l)
    else if InHeader(st) then HeaderMove(st, l)
    else if InVars(st) then VarMove(st, l)
    else DataMove(st, l)
  }

  // ----- the machine -----

  datatype Machine = Machine(i: nat, cur: State, stack: seq<State>, bstack: seq<nat>, blocks: seq<Block>, fork: nat)

  /** What the compiler is given besides the text: the objects of the virtual
      machine, the number of the ecosystem and the names of system variables. */
  datatype Context = Context(vm: Env, state: string, sysVars: set<string>)

  function Initial(): Machine {
    Machine(0, InRoot, [], [0], [EmptyBlock(None)], 0)
  }

  function Top(bstack: seq<nat>): nat
    requires bstack != []
  {
    bstack[|bstack| - 1]
  }

  function Below(bstack: seq<nat>): nat
    requires |bstack| >= 2
  {
    bstack[|bstack| - 2]
  }

  /** Each block on the stack is the parent of the one above it. */
  predicate Nested(blocks: seq<Block>, bstack: seq<nat>) {
    bstack != [] && Top(bstack) < |blocks| &&
    if |bstack| == 1 then bstack == [0] && blocks[0].parent == None
    else blocks[Top(bstack)].parent == Some(Below(bstack)) && Below(bstack) < Top(bstack) &&
         Nested(blocks, bstack[..|bstack| - 1])
  }

  /** The stack of states: the root below, bodies above it. */
  predicate Stacked(cur: State, stack: seq<State>) {
    && (cur.InRoot? <==> stack == [])
    && forall k :: 0 <= k < |stack| ==> stack[k] == if k == 0 then InRoot else InBody
  }

  predicate AllTyped(vars: seq<Option<string>>) {
    forall k :: 0 <= k < |vars| ==> vars[k].Some?
  }

  /** The parameters of a function are its first variables. */
  predicate ParamsFirst(b: Block) {
    b.info.FuncInfo? ==> |b.info.params| <= |b.vars| && b.info.params == b.vars[..|b.info.params|]
  }

  /** What the state says about the block on top. */
  predicate KindFits(cur: State, b: Block) {
    && (cur.InContract? || cur.InFunc? ==> b == EmptyBlock(b.parent))
    && (cur.InParams? || cur.InParam? || cur.InParamType? ==> b.info.FuncInfo? && b.vars == b.info.params)
    && (cur.InTail? || cur.InResult? || cur.InDot? ==> b.info.FuncInfo?)
    && (cur.InVarType? && b.info.FuncInfo? ==> AllTyped(b.info.params))
    && (cur.InTx? || cur.InFields? ==> b.info.ContractInfo? && b.info.tx.Some?)
    && (cur.InSettings? || cur.InConsts? || cur.InConstsAssign? || cur.InConstsValue? ==>
          b.info.ContractInfo? && b.info.settings.Some?)
  }

  /** Variables wait for their type only between their name and the type. */
  predicate Waiting(cur: State) {
    cur.InParamType? || cur.InVarType?
  }

  predicate Fine(b: Block, waiting: bool) {
    ParamsFirst(b) && (waiting || AllTyped(b.vars))
  }

  predicate BlocksFine(blocks: seq<Block>, top: nat, waiting: bool) {
    forall b :: 0 <= b < |blocks| ==> Fine(blocks[b], b == top && waiting)
  }

  /** The blocks among the first `n` whose parent is `b`, in order. */
  function KidsOf(blocks: seq<Block>, b: nat, n: nat): seq<nat>
    requires n <= |blocks|
  {
    if n == 0 then [] else KidsOf(blocks, b, n - 1) + if blocks[n - 1].parent == Some(b) then [n - 1] else []
  }

  predicate HasParent(blocks: seq<Block>, c: nat)
    requires c < |blocks|
  {
    blocks[c].parent.Some? && blocks[c].parent.value < c
  }

  /** The blocks form a tree: children stand behind their parents, and the list of
      children is what the parent links say. */
  predicate Family(blocks: seq<Block>) {
    && (forall b :: 0 <= b < |blocks| ==> blocks[b].children == KidsOf(blocks, b, |blocks|))
    && (forall c :: 0 < c < |blocks| ==> HasParent(blocks, c))
    && blocks != [] && blocks[0].parent == None
  }

  predicate ForkFits(lex: seq<Lexeme>, m: Machine) {
    m.cur.InAssignEval? ==> m.fork + 1 == m.i && m.fork < |lex| && (lex[m.fork].Ident? || lex[m.fork].Extend?)
  }

  predicate Sound(blocks: seq<Block>, bstack: seq<nat>, waiting: bool) {
    Nested(blocks, bstack) && Family(blocks) && BlocksFine(blocks, Top(bstack), waiting)
  }

  /** What holds between any two turns of the loop. */
  predicate Valid(lex: seq<Lexeme>, m: Machine) {
    && |m.bstack| == |m.stack| + 1
    && Stacked(m.cur, m.stack)
    && Sound(m.blocks, m.bstack, Waiting(m.cur))
    && KindFits(m.cur, m.blocks[Top(m.bstack)])
    && ForkFits(lex, m)
  }

  // ----- names -----

  function FuncOf(blocks: seq<Block>, name: string, b: nat): Func {
    if b < |blocks| && blocks[b].info.FuncInfo?
    then Func(name, b, |blocks[b].info.params|, |blocks[b].info.results|, blocks[b].info.variadic, false, None)
    else Func(name, b, 0, 0, false, false, None)
  }

  function ObjectOf(blocks: seq<Block>, b: nat, name: string, e: Entry): Object {
    match e
    case VarEntry(slot) => ObjVar(VarRef(b, slot))
    case FuncEntry(f) => ObjFunc(FuncOf(blocks, name, f))
    case ContractEntry(_) => ObjContract(name)
  }

  function Visible(blocks: seq<Block>, b: nat): Env
    requires b < |blocks|
  {
    map n | n in blocks[b].objects :: ObjectOf(blocks, b, n, blocks[b].objects[n])
  }

  /** The names that are visible from the top of the stack, innermost first. */
  function Local(blocks: seq<Block>, bstack: seq<nat>): Env
    requires Nested(blocks, bstack)
  {
    if |bstack| == 1 then Visible(blocks, Top(bstack))
    else Local(blocks, bstack[..|bstack| - 1]) + Visible(blocks, Top(bstack))
  }

  predicate Knows(blocks: seq<Block>, b: nat, n: string) {
    b < |blocks| && n in blocks[b].objects
  }

  /** The names of all blocks on the stack are visible, and the innermost block that has
      a name says what it stands for. */
  lemma {:induction false} InnermostWins(blocks: seq<Block>, bstack: seq<nat>, n: string, k: nat)
    requires Nested(blocks, bstack) && k < |bstack| && Knows(blocks, bstack[k], n)
    ensures n in Local(blocks, bstack)
    ensures (forall j :: k < j < |bstack| ==> !Knows(blocks, bstack[j], n)) ==>
              Local(blocks, bstack)[n] == ObjectOf(blocks, bstack[k], n, blocks[bstack[k]].objects[n])
    decreases |bstack|
  {
    hide ObjectOf;
    if k < |bstack| - 1 {
      var below := bstack[..|bstack| - 1];
      assert below[k] == bstack[k];
      InnermostWins(blocks, below, n, k);
      assert forall j :: k < j < |below| ==> below[j] == bstack[j];
    }
  }

  lemma {:induction false} VisibleIsKnown(blocks: seq<Block>, bstack: seq<nat>, n: string) returns (k: nat)
    requires Nested(blocks, bstack) && n in Local(blocks, bstack)
    ensures k < |bstack| && Knows(blocks, bstack[k], n)
    decreases |bstack|
  {
    k := |bstack| - 1;
    if !Knows(blocks, bstack[k], n) { k := VisibleIsKnown(blocks, bstack[..k], n); }
  }

  function Scope(cx: Context, m: Machine): Env
    requires Nested(m.blocks, m.bstack)
  {
    cx.vm + Local(m.blocks, m.bstack)
  }

  /** A name of the text hides the object of the virtual machine with that name. */
  lemma LocalHides(cx: Context, m: Machine, n: string)
    requires Nested(m.blocks, m.bstack)
    ensures var local, all := Local(m.blocks, m.bstack), Scope(cx, m);
            && (n in all <==> n in local || n in cx.vm)
            && (n in local ==> all[n] == local[n]) && (n !in local && n in cx.vm ==> all[n] == cx.vm[n])
  {
  }

  // ----- the handlers -----

  function Emit(blocks: seq<Block>, b: nat, c: seq<Code>): seq<Block>
    requires b < |blocks|
  {
    blocks[b := blocks[b].(code := blocks[b].code + c)]
  }

  function SetInfo(blocks: seq<Block>, b: nat, info: Info): seq<Block>
    requires b < |blocks|
  {
    blocks[b := blocks[b].(info := info)]
  }

  /** Gives the type to everything that waits for one. */
  function Typed(vars: seq<Option<string>>, t: string): (r: seq<Option<string>>)
    ensures |r| == |vars|
  {
    seq(|vars|, k requires 0 <= k < |vars| => if vars[k].None? then Some(t) else vars[k])
  }

  function WaitingCount(vars: seq<Option<string>>): nat {
    if vars == [] then 0 else (if vars[|vars| - 1].None? then 1 else 0) + WaitingCount(vars[..|vars| - 1])
  }

  predicate IsSysVar(cx: Context, name: string) {
    name in cx.sysVars || "loop_" <= name
  }

  /** The name of a contract carries the number of its ecosystem. */
  function StateName(state: string, name: string): string {
    if name == [] || name[0] != '@' then "@" + state + name
    else if |name| > 1 && (name[1] < '0' || name[1] > '9') then "@1" + name[1..]
    else name
  }

  predicate Numeric(s: string) {
    s != "" && forall k :: 0 <= k < |s| ==> '0' <= s[k] <= '9'
  }

  /** A plain name: it starts neither with a digit nor with the sign of a full name. */
  predicate PlainName(name: string) {
    name != "" && name[0] != '@' && !('0' <= name[0] <= '9')
  }

  /** Plain names of different ecosystems, and different ones of one ecosystem, never meet. */
  lemma {:induction false} StateNameIsInjective(state: string, name: string, state': string, name': string)
    requires Numeric(state) && PlainName(name) && Numeric(state') && PlainName(name')
    requires StateName(state, name) == StateName(state', name')
    ensures state == state' && name == name'
  {
    var full := StateName(state, name);
    assert full == ['@'] + (state + name) && full == ['@'] + (state' + name');
    assert full[1..] == state + name && full[1..] == state' + name';
    var s := full[1..];
    assert s[|state|] == name[0] && s[|state'|] == name'[0];
    assert forall k :: 0 <= k < |state| ==> '0' <= s[k] <= '9';
    assert forall k :: 0 <= k < |state'| ==> '0' <= s[k] <= '9';
    assert s[..|state|] == state && s[|state|..] == name && s[..|state'|] == state' && s[|state'|..] == name';
  }

  /** A plain name gets the sign and the number; a full name of the first ecosystem may
      leave out its number; other full names stay. Naming twice changes nothing. */
  lemma {:induction false} StateNameForms(state: string, name: string)
    requires Numeric(state)
    ensures PlainName(name) ==> StateName(state, name) == "@" + state + name && StateName(state, "@" + name) == "@1" + name
    ensures forall s :: Numeric(s) ==> StateName(state, "@" + s + name) == "@" + s + name
    ensures StateName(state, StateName(state, name)) == StateName(state, name) || name == "@"
  {
    assert ("@" + name)[1..] == name;
    var full := "@" + state + name;
    assert full[0] == '@' && full[1] == state[0];
    forall s | Numeric(s) ensures StateName(state, "@" + s + name) == "@" + s + name {
      assert ("@" + s + name)[1] == s[0];
    }
  }

  function LastField(fs: seq<DataField>): DataField
    requires fs != []
  {
    fs[|fs| - 1]
  }

  function FieldAct(act: Act, fs: seq<DataField>, l: Lexeme): Outcome<seq<DataField>> {
    match act
    case DoField =>
      if !l.Ident? then Panic
      else if fs != [] && LastField(fs).typ.None? && LastField(fs).tags != "_" then Bad(ErrDataType)
      else Good(fs + [DataField(l.name, None, "")])
    case DoFieldComma =>
      if fs == [] || LastField(fs).typ.Some? then Bad(ErrDataName)
      else Good(fs[|fs| - 1 := LastField(fs).(tags := "_")])
    case DoFieldType =>
      if !l.TypeName? then Panic
      else if fs == [] || LastField(fs).typ.Some? then Bad(ErrDataName)
      else Good(seq(|fs|, k requires 0 <= k < |fs| => if fs[k].typ.None? then DataField(fs[k].name, Some(l.t), "") else fs[k]))
    case DoFieldTag =>
      if !l.Str? || fs == [] then Panic
      else if LastField(fs).typ.None? || (LastField(fs).tags != "_" && LastField(fs).tags != "") then Bad(ErrDataTag)
      else Good(fs[|fs| - 1 := LastField(fs).(tags := l.s)])
    case _ =>
      if fs != [] && LastField(fs).typ.None? then Bad(ErrDataType) else Good(fs)
  }

  function DataAct(act: Act, b: Block, l: Lexeme): Outcome<Block> {
    if !b.info.ContractInfo? || b.info.tx.None? then Panic
    else
      match FieldAct(act, b.info.tx.value, l)
      case Good(fs) => Good(b.(info := b.info.(tx := Some(fs))))
      case Bad(e) => Bad(e)
      case Panic => Panic
  }

  function ConstAct(b: Block, l: Lexeme): Outcome<Block> {
    if !b.info.ContractInfo? || b.info.settings.None? then Panic
    else
      var sets := b.info.settings.value;
      match l
      case Ident(n) => Good(b.(info := b.info.(settings := Some(sets[n := None]), pending := n)))
      case Number(c) => Good(b.(info := b.info.(settings := Some(sets[b.info.pending := if c == Nil then None else Some(c)]))))
      case Str(t) => Good(b.(info := b.info.(settings := Some(sets[b.info.pending := Some(Text(t))]))))
      case _ => Panic
  }

  predicate CodeAct(act: Act) {
    act.DoReturn? || act.DoError? || act.DoAssign? || act.DoContinue? || act.DoBreak?
  }

  predicate FieldAction(act: Act) {
    act.DoField? || act.DoFieldType? || act.DoFieldTag? || act.DoFieldComma? || act.DoFieldLine? || act.DoFieldsEnd?
  }

  /** Handlers that append one command. */
  function CommandAct(act: Act, b: Block, l: Lexeme): Outcome<Block> {
    if act.DoError? && !l.Key? then Panic
    else
      Good(b.(code := b.code + [if act.DoReturn? then Return else if act.DoAssign? then Assign
                                else if act.DoContinue? then Continue else if act.DoBreak? || !l.Key? then Break else ErrorCmd(l.k)]))
  }

  function ParamAct(next: State, b: Block, l: Lexeme): Outcome<Block> {
    if !l.Ident? then Panic
    else
      var info := if b.info.FuncInfo? && next.InParamType? then b.info.(params := b.info.params + [None]) else b.info;
      Good(b.(info := info, objects := b.objects[l.name := VarEntry(|b.vars|)], vars := b.vars + [None]))
  }

  function TypeAct(next: State, b: Block, l: Lexeme): Outcome<Block> {
    if !l.TypeName? then Panic
    else
      var info := if b.info.FuncInfo? && next.InParam? then b.info.(params := Typed(b.info.params, l.t)) else b.info;
      Good(b.(info := info, vars := Typed(b.vars, l.t)))
  }

  function TailAct(b: Block): Outcome<Block> {
    if !b.info.FuncInfo? then Panic
    else if WaitingCount(b.info.params) > 1 then Bad(ErrTail)
    else Good(b.(info := b.info.(params := Typed(b.info.params, ARRAY_TYPE), variadic := true), vars := Typed(b.vars, ARRAY_TYPE)))
  }

  function InfoAct(act: Act, b: Block, l: Lexeme): Outcome<Block> {
    if act.DoResult? then
      if !b.info.FuncInfo? || !l.TypeName? then Panic
      else Good(b.(info := b.info.(results := b.info.results + [l.t])))
    else if act.DoDotName? then Bad(ErrNamedTail)
    else if !b.info.ContractInfo? then Bad(ErrDataPlace)
    else if act.DoTx? then Good(b.(info := b.info.(tx := Some([]))))
    else Good(b.(info := b.info.(settings := Some(map[]))))
  }

  /** Handlers of variables and their types. */
  function VarAct(act: Act, next: State, b: Block, l: Lexeme): Outcome<Block> {
    if act.DoParam? then ParamAct(next, b, l) else if act.DoType? then TypeAct(next, b, l) else TailAct(b)
  }

  /** Handlers of results and of the sections of a contract. */
  function SectionAct(act: Act, b: Block, l: Lexeme): Outcome<Block> {
    if FieldAction(act) then DataAct(act, b, l)
    else if act.DoConstName? || act.DoConstValue? then ConstAct(b, l)
    else InfoAct(act, b, l)
  }

  /** Handlers that work on the block on top alone. `next` is the state to come. */
  function TopAct(cx: Context, act: Act, next: State, b: Block, l: Lexeme): Outcome<Block> {
    if CodeAct(act) then CommandAct(act, b, l)
    else if act.DoParam? || act.DoType? || act.DoTail? then VarAct(act, next, b, l)
    else SectionAct(act, b, l)
  }

  /** Variables on the left of an assignment are collected in one command. */
  function AddTarget(code: seq<Code>, t: Target): seq<Code> {
    if code != [] && Last(code).AssignVar? then Front(code) + [AssignVar(Last(code).targets + [t])]
    else code + [AssignVar([t])]
  }

  function TargetAct(cx: Context, blocks: seq<Block>, bstack: seq<nat>, l: Lexeme): Outcome<Target>
    requires Nested(blocks, bstack)
  {
    match l
    case Extend(n) => if IsSysVar(cx, n) then Bad(ErrSysVar(n)) else Good(ToExtend(n))
    case Ident(n) =>
      var env := Local(blocks, bstack);
      if n in env && env[n].ObjVar? then Good(ToVar(env[n].v)) else Bad(ErrUnknownVar(n))
    case _ => Panic
  }

  /** The name of a function or a contract is entered in the block below. */
  function NameAct(cx: Context, blocks: seq<Block>, top: nat, below: nat, next: State, name: string): seq<Block>
    requires top < |blocks| && below < |blocks|
  {
    if next.InBlock? then
      var full := StateName(cx.state, name);
      var id := if blocks[below].children == [] then 0 else |blocks[below].children| - 1;
      var bs := SetInfo(blocks, top, ContractInfo(name, full, id, None, None, ""));
      bs[below := bs[below].(objects := bs[below].objects[full := ContractEntry(top)])]
    else
      var bs := SetInfo(blocks, top, FuncInfo(name, [], [], false));
      bs[below := bs[below].(objects := bs[below].objects[name := FuncEntry(top)])]
  }

  /** The handler of a transition; `m` already stands in the new state. */
  function Handle(cx: Context, act: Act, m: Machine, l: Lexeme): Outcome<Machine>
    requires Nested(m.blocks, m.bstack)
  {
    var top := Top(m.bstack);
    if act.DoNothing? then Good(m)
    else if act.DoTarget? then
      (match TargetAct(cx, m.blocks, m.bstack, l)
       case Good(t) => Good(m.(blocks := m.blocks[top := m.blocks[top].(code := AddTarget(m.blocks[top].code, t))]))
       case Bad(e) => Bad(e)
       case Panic => Panic)
    else if act.DoName? then
      if |m.bstack| < 2 || !l.Ident? then Panic
      else (NestedBelow(m.blocks, m.bstack); Good(m.(blocks := NameAct(cx, m.blocks, top, Below(m.bstack), m.cur, l.name))))
    else if act.DoIf? then
      if |m.bstack| < 2 then Panic
      else (NestedBelow(m.blocks, m.bstack); Good(m.(blocks := Emit(m.blocks, Below(m.bstack), [If(top)]))))
    else if act.DoWhile? then
      if |m.bstack| < 2 then Panic
      else (NestedBelow(m.blocks, m.bstack); Good(m.(blocks := Emit(m.blocks, Below(m.bstack), [While(top), Continue]))))
    else if act.DoElse? then
      if |m.bstack| < 2 then Panic
      else
        NestedBelow(m.blocks, m.bstack);
        var code := m.blocks[Below(m.bstack)].code;
        if code == [] then Panic
        else if !Last(code).If? then Bad(ErrElse)
        else Good(m.(blocks := Emit(m.blocks, Below(m.bstack), [Else(top)])))
    else
      (match TopAct(cx, act, m.cur, m.blocks[top], l)
       case Good(b) => Good(m.(blocks := m.blocks[top := b]))
       case Bad(e) => Bad(e)
       case Panic => Panic)
  }

  lemma NestedBelow(blocks: seq<Block>, bstack: seq<nat>)
    requires Nested(blocks, bstack) && |bstack| >= 2
    ensures Below(bstack) < |blocks| && Below(bstack) < Top(bstack)
  {
  }

  // ----- one turn of the loop -----

  function AddChild(blocks: seq<Block>, top: nat): seq<Block>
    requires top < |blocks|
  {
    blocks[top := blocks[top].(children := blocks[top].children + [|blocks|])] + [EmptyBlock(Some(top))]
  }

  function PushBlock(m: Machine): Machine
    requires Nested(m.blocks, m.bstack)
  {
    m.(stack := m.stack + [m.cur], bstack := m.bstack + [|m.blocks|], blocks := AddChild(m.blocks, Top(m.bstack)))
  }

  /** A `continue` at the end of the block below moves to the end of the block
      that is left. */
  function MoveContinue(blocks: seq<Block>, top: nat, below: nat): seq<Block>
    requires below < top < |blocks|
  {
    var code := blocks[below].code;
    if code != [] && Last(code) == Continue then
      Emit(blocks[below := blocks[below].(code := Front(code))], top, [Continue])
    else blocks
  }

  function PopBlock(m: Machine): Machine
    requires Nested(m.blocks, m.bstack) && |m.stack| >= 1 && |m.bstack| >= 2
  {
    NestedBelow(m.blocks, m.bstack);
    m.(cur := m.stack[|m.stack| - 1], stack := m.stack[..|m.stack| - 1], bstack := m.bstack[..|m.bstack| - 1],
       blocks := MoveContinue(m.blocks, Top(m.bstack), Below(m.bstack)))
  }

  /** The expression at `i`; its code goes to the block on top and the loop goes on behind it. */
  function Evaluate(lex: seq<Lexeme>, cx: Context, m: Machine, i: nat, labelled: bool, must: bool): Outcome<Machine>
    requires Nested(m.blocks, m.bstack)
  {
    var top := Top(m.bstack);
    match EvalAt(lex, i, Scope(cx, m))
    case Good((j, code)) =>
      if must && code == [] then Bad(ErrNoEval)
      else Good(m.(i := if j + 1 < 0 then 0 else j + 1, blocks := Emit(m.blocks, top, (if labelled then [Label] else []) + code)))
    case Bad(e) => Bad(e)
    case Panic => Panic
  }

  function Turn(lex: seq<Lexeme>, cx: Context, m: Machine): Outcome<Machine>
    requires Nested(m.blocks, m.bstack) && |m.bstack| == |m.stack| + 1 && m.i < |lex|
  {
    match Table(m.cur, lex[m.i])
    case Fail(code) => Bad(ErrState(code))
    case Stay(next) => Good(m.(cur := next))
    case Fork => Good(m.(i := m.i + 1, cur := InAssignEval, fork := m.i))
    case BackToAssign => Good(m.(i := m.fork, cur := InAssign, fork := 0))
    case BackToEval => Evaluate(lex, cx, m.(cur := InBody, fork := 0), m.fork, false, false)
    case Goto(next, act) => Handle(cx, act, m.(i := m.i + 1, cur := next), lex[m.i])
    case Enter(next, act) =>
      NestedPush(m);
      Handle(cx, act, PushBlock(m).(i := m.i + 1, cur := next), lex[m.i])
    case Leave => if m.stack == [] then Bad(ErrState(3)) else Good(PopBlock(m.(i := m.i + 1)))
    case EvalThen(next, act) =>
      (match Evaluate(lex, cx, m, m.i, false, false)
       case Good(m1) => NestedEmit(m.blocks, m1.blocks, m.bstack); Handle(cx, act, m1.(cur := next), lex[m.i])
       case Bad(e) => Bad(e)
       case Panic => Panic)
    case EvalEnter(labelled, act) =>
      (match Evaluate(lex, cx, m, m.i, labelled, true)
       case Good(m1) =>
         NestedEmit(m.blocks, m1.blocks, m.bstack);
         NestedPush(m1);
         Handle(cx, act, PushBlock(m1).(cur := InBlock), lex[m.i])
       case Bad(e) => Bad(e)
       case Panic => Panic)
  }

  /** Links are kept. */
  predicate SameLinks(a: seq<Block>, b: seq<Block>) {
    |a| <= |b| && forall k :: 0 <= k < |a| ==> a[k].parent == b[k].parent
  }

  lemma {:induction false} NestedEmit(a: seq<Block>, b: seq<Block>, bstack: seq<nat>)
    requires Nested(a, bstack) && SameLinks(a, b)
    ensures Nested(b, bstack)
    decreases |bstack|
  {
    if |bstack| > 1 {
      NestedEmit(a, b, bstack[..|bstack| - 1]);
    }
  }

  lemma {:induction false} NestedPush(m: Machine)
    requires Nested(m.blocks, m.bstack)
    ensures Nested(PushBlock(m).blocks, PushBlock(m).bstack)
  {
    NestedEmit(m.blocks, PushBlock(m).blocks, m.bstack);
    assert PushBlock(m).bstack[..|m.bstack|] == m.bstack;
  }

  // ----- termination and the invariant -----

  /** States that hand the same lexeme on rank above those they hand it to, and
      the state that goes back one lexeme outweighs that lexeme. */
  function Rank(st: State): nat {
    match st
    case InAssign => 0 case InBlock => 1 case InBody => 2 case InResult => 2 case InVar => 3 case InParams => 3
    case InAssignEval => 21
    case _ => 0
  }

  function Measure(lex: seq<Lexeme>, m: Machine): nat {
    if m.i >= |lex| then 0 else 20 * (|lex| - m.i) + Rank(m.cur) + 1
  }

  lemma {:induction false} RunForward(lex: seq<Lexeme>, s: EvalState, env: Env)
    ensures Run(lex, s, env).Good? ==> Run(lex, s, env).value.0 >= s.i - 1
    decreases |lex| - s.i
  {
    hide EvalStep;
    if s.i < |lex| {
      var t := EvalStep(lex, s, env);
      if t.Next? { RunForward(lex, t.s, env); }
    }
  }

  /** The translator of expressions never returns a position in front of its start. */
  lemma {:induction false} EvalForward(lex: seq<Lexeme>, i: nat, env: Env)
    requires i < |lex| && (lex[i].Key? || lex[i].Ident? || lex[i].Extend? || lex[i] == Equals)
    ensures EvalAt(lex, i, env).Good? ==> EvalAt(lex, i, env).value.0 >= i
  {
    hide MapFrom, ArrayFrom, StepRPar, StepRBrack, StepOper, StepComma;
    var t := EvalStep(lex, Start(i), env);
    if t.Next? { RunForward(lex, t.s, env); }
  }

  predicate SameFamily(a: seq<Block>, b: seq<Block>) {
    |a| == |b| && forall k :: 0 <= k < |a| ==> a[k].parent == b[k].parent && a[k].children == b[k].children
  }

  lemma {:induction false} KidsKept(a: seq<Block>, b: seq<Block>, p: nat, n: nat)
    requires n <= |a| && SameLinks(a, b)
    ensures KidsOf(a, p, n) == KidsOf(b, p, n)
    decreases n
  {
    if n > 0 { KidsKept(a, b, p, n - 1); }
  }

  lemma {:induction false} FamilyKept(a: seq<Block>, b: seq<Block>)
    requires Family(a) && SameFamily(a, b)
    ensures Family(b)
  {
    hide KidsOf;
    forall p | 0 <= p < |b| ensures b[p].children == KidsOf(b, p, |b|) { KidsKept(a, b, p, |a|); }
    forall c | 0 < c < |b| ensures HasParent(b, c) { assert HasParent(a, c); }
  }

  lemma {:induction false} KidsPush(blocks: seq<Block>, top: nat, p: nat)
    requires top < |blocks| && Family(blocks) && p <= |blocks|
    ensures AddChild(blocks, top)[p].children == KidsOf(AddChild(blocks, top), p, |blocks| + 1)
  {
    var bs, n := AddChild(blocks, top), |blocks|;
    assert KidsOf(bs, p, n + 1) == KidsOf(bs, p, n) + if p == top then [n] else [];
    hide KidsOf;
    KidsKept(blocks, bs, p, n);
    if p == n { NoKids(blocks, n, n); }
  }

  lemma {:induction false} FamilyPush(blocks: seq<Block>, top: nat)
    requires top < |blocks| && Family(blocks)
    ensures Family(AddChild(blocks, top))
  {
    hide KidsOf;
    var bs, n := AddChild(blocks, top), |blocks|;
    forall p | 0 <= p <= n ensures bs[p].children == KidsOf(bs, p, n + 1) { KidsPush(blocks, top, p); }
    forall c | 0 < c <= n ensures HasParent(bs, c) { assert c < n ==> HasParent(blocks, c); }
  }

  lemma {:induction false} NoKids(blocks: seq<Block>, p: nat, n: nat)
    requires n <= |blocks| <= p && Family(blocks)
    ensures KidsOf(blocks, p, n) == []
    decreases n
  {
    if n > 0 {
      NoKids(blocks, p, n - 1);
      assert n > 1 ==> HasParent(blocks, n - 1);
    }
  }

  lemma TypedAll(vars: seq<Option<string>>, t: string)
    ensures AllTyped(Typed(vars, t)) && |Typed(vars, t)| == |vars|
    ensures AllTyped(vars) ==> Typed(vars, t) == vars
  {
  }

  lemma TypedPrefix(vars: seq<Option<string>>, n: nat, t: string)
    requires n <= |vars|
    ensures Typed(vars[..n], t) == Typed(vars, t)[..n]
  {
  }

  predicate SameFrame(a: Block, b: Block) {
    a.parent == b.parent && a.children == b.children
  }

  /** Which plain transitions there are. */
  predicate Planned(st: State, act: Act, next: State) {
    && (act.DoNothing? ==> Waiting(st) == Waiting(next))
    && (act.DoName? ==> (st.InContract? && next.InBlock?) || (st.InFunc? && next.InParams?))
    && (act.DoParam? ==> (next.InParamType? && (st.InParam? || st.InParamType?)) ||
                           (next.InVarType? && (st.InVar? || st.InVarType?)))
    && (act.DoType? ==> (st.InParamType? && next.InParam?) || (st.InVarType? && next.InVar?))
    && (act.DoTail? ==> st.InParamType? && next.InTail?)
    && (act.DoResult? ==> st.InResult? && next.InResult?)
    && (act.DoDotName? ==> st.InDot?)
    && (act.DoTarget? ==> st.InAssign? && next.InAssign?)
    && (act.DoTx? ==> st.InBody? && next.InTx?)
    && (act.DoSettings? ==> st.InBody? && next.InSettings?)
    && (act.DoContinue? || act.DoBreak? ==> st.InBody? && next.InBody?)
    && (act.DoConstName? || act.DoConstValue? ==>
          (st.InConsts? && next.InConstsAssign?) || (st.InConstsValue? && next.InConsts?))
    && (FieldAction(act) ==> st.InFields? && (next.InFields? || next.InBody?))
    && !act.DoIf? && !act.DoElse? && !act.DoWhile? && !act.DoReturn? && !act.DoError? && !act.DoAssign?
  }

  /** What a plain transition from `st` may look like. */
  predicate PlanFor(st: State, mv: Move, b: Block) {
    mv.Goto? ==>
      Planned(st, mv.act, mv.next) && (mv.next.InRoot? <==> st.InRoot?) && !mv.next.InAssignEval? &&
      (mv.act.DoNothing? && KindFits(st, b) ==> KindFits(mv.next, b))
  }

  lemma BodyPlan(l: Lexeme, b: Block)
    ensures PlanFor(InRoot, RootMove(l), b) && PlanFor(InBody, BodyMove(l), b)
  {
  }

  lemma HeaderPlan(st: State, l: Lexeme, b: Block)
    requires InHeader(st)
    ensures PlanFor(st, HeaderMove(st, l), b)
  {
  }

  lemma VarPlan(st: State, l: Lexeme, b: Block)
    requires InVars(st)
    ensures PlanFor(st, VarMove(st, l), b)
  {
  }

  lemma DataPlan(st: State, l: Lexeme, b: Block)
    requires !st.InRoot? && !st.InBody? && !InHeader(st) && !InVars(st)
    ensures PlanFor(st, DataMove(st, l), b)
  {
  }

  lemma TablePlan(st: State, l: Lexeme, b: Block)
    ensures PlanFor(st, Table(st, l), b)
  {
    hide PlanFor, RootMove, BodyMove, HeaderMove, VarMove, DataMove;
    if st.InRoot? || st.InBody? { BodyPlan(l, b); }
    else if InHeader(st) { HeaderPlan(st, l, b); }
    else if InVars(st) { VarPlan(st, l, b); }
    else { DataPlan(st, l, b); }
  }

  lemma {:induction false} TypeActKeeps(cx: Context, st: State, act: Act, next: State, l: Lexeme, b: Block)
    requires act.DoType? && Planned(st, act, next) && ParamsFirst(b) && KindFits(st, b)
    ensures var r := TopAct(cx, act, next, b, l);
            r.Good? ==> SameFrame(b, r.value) && Fine(r.value, Waiting(next)) && KindFits(next, r.value)
  {
    if l.TypeName? {
      TypedAll(b.vars, l.t);
      if b.info.FuncInfo? {
        TypedPrefix(b.vars, |b.info.params|, l.t);
        assert AllTyped(b.info.params) ==> Typed(b.info.params, l.t) == b.info.params;
      }
    }
  }

  lemma {:induction false} ParamActKeeps(cx: Context, st: State, act: Act, next: State, l: Lexeme, b: Block)
    requires act.DoParam? && Planned(st, act, next) && Fine(b, Waiting(st)) && KindFits(st, b)
    ensures var r := TopAct(cx, act, next, b, l);
            r.Good? ==> SameFrame(b, r.value) && Fine(r.value, Waiting(next)) && KindFits(next, r.value)
  {
    if b.info.FuncInfo? && next.InVarType? {
      assert (b.vars + [None])[..|b.info.params|] == b.info.params;
      assert st.InVar? ==> AllTyped(b.info.params);
    }
  }

  lemma {:induction false} TailActKeeps(cx: Context, act: Act, l: Lexeme, b: Block)
    requires act.DoTail? && ParamsFirst(b)
    ensures var r := TopAct(cx, act, InTail, b, l); r.Good? ==> SameFrame(b, r.value) && Fine(r.value, false) && KindFits(InTail, r.value)
  {
    TypedAll(b.vars, ARRAY_TYPE);
    if b.info.FuncInfo? { TypedPrefix(b.vars, |b.info.params|, ARRAY_TYPE); }
  }

  lemma {:induction false} CodeActKeeps(cx: Context, act: Act, l: Lexeme, b: Block)
    requires CodeAct(act) && Fine(b, false)
    ensures var r := TopAct(cx, act, InBody, b, l); r.Good? ==> SameFrame(b, r.value) && Fine(r.value, false)
  {
  }

  lemma {:induction false} InfoActKeeps(cx: Context, st: State, act: Act, next: State, l: Lexeme, b: Block)
    requires act.DoResult? || act.DoDotName? || act.DoTx? || act.DoSettings?
    requires Planned(st, act, next) && Fine(b, false)
    ensures var r := TopAct(cx, act, next, b, l);
            r.Good? ==> SameFrame(b, r.value) && Fine(r.value, Waiting(next)) && KindFits(next, r.value)
  {
  }

  lemma {:induction false} ConstActKeeps(b: Block, l: Lexeme)
    requires Fine(b, false)
    ensures var r := ConstAct(b, l);
            r.Good? ==> SameFrame(b, r.value) && Fine(r.value, false) && r.value.info.ContractInfo? && r.value.info.settings.Some?
  {
  }

  lemma {:induction false} DataActKeeps(act: Act, b: Block, l: Lexeme)
    requires Fine(b, false)
    ensures var r := DataAct(act, b, l);
            r.Good? ==> SameFrame(b, r.value) && Fine(r.value, false) && r.value.info.ContractInfo? && r.value.info.tx.Some?
  {
    hide FieldAct;
  }

  lemma {:induction false} SectionActKeeps(cx: Context, st: State, act: Act, next: State, l: Lexeme, b: Block)
    requires (act.DoConstName? || act.DoConstValue? || FieldAction(act)) && Planned(st, act, next) && Fine(b, false)
    ensures var r := TopAct(cx, act, next, b, l);
            r.Good? ==> SameFrame(b, r.value) && Fine(r.value, Waiting(next)) && KindFits(next, r.value)
  {
    hide ConstAct, DataAct, Fine;
    ConstActKeeps(b, l);
    DataActKeeps(act, b, l);
  }

  // ----- every turn keeps the invariant and makes progress -----

  lemma {:induction false} UpdateKeeps(blocks: seq<Block>, bstack: seq<nat>, k: nat, b: Block, w: bool, w': bool)
    requires Sound(blocks, bstack, w) && k < |blocks| && SameFrame(blocks[k], b)
    requires (k == Top(bstack) && Fine(b, w')) || (w == w' && Fine(b, false))
    ensures Sound(blocks[k := b], bstack, w')
  {
    hide Nested, Family, Fine;
    var bs := blocks[k := b];
    NestedEmit(blocks, bs, bstack);
    FamilyKept(blocks, bs);
    forall c | 0 <= c < |bs| ensures Fine(bs[c], c == Top(bstack) && w') {
      assert Fine(blocks[c], c == Top(bstack) && w);
      FineMore(bs[c], c == Top(bstack) && w');
    }
  }

  lemma FineMore(b: Block, w: bool)
    ensures Fine(b, false) ==> Fine(b, w)
  {
  }

  lemma {:induction false} EmitKeeps(blocks: seq<Block>, bstack: seq<nat>, k: nat, c: seq<Code>)
    requires Sound(blocks, bstack, false) && k < |blocks|
    ensures Sound(Emit(blocks, k, c), bstack, false)
  {
    hide Family;
    assert Fine(blocks[k], k == Top(bstack) && false);
    UpdateKeeps(blocks, bstack, k, blocks[k].(code := blocks[k].code + c), false, false);
  }

  lemma {:induction false} PushKeeps(m: Machine)
    requires Sound(m.blocks, m.bstack, false)
    ensures Sound(PushBlock(m).blocks, PushBlock(m).bstack, false)
    ensures PushBlock(m).blocks[Top(PushBlock(m).bstack)] == EmptyBlock(Some(Top(m.bstack)))
  {
    NestedPush(m);
    FamilyPush(m.blocks, Top(m.bstack));
    hide Nested, Family, ParamsFirst;
    var bs := PushBlock(m).blocks;
    forall c | 0 <= c < |bs| ensures Fine(bs[c], false) {
      if c < |m.blocks| {
        assert Fine(m.blocks[c], c == Top(m.bstack) && false);
        FineFrame(m.blocks[c], bs[c]);
      } else {
        FineEmpty(Top(m.bstack));
      }
    }
  }

  lemma FineFrame(a: Block, b: Block)
    requires Fine(a, false) && b.info == a.info && b.vars == a.vars
    ensures Fine(b, false)
  {
  }

  lemma FineEmpty(p: nat)
    ensures Fine(EmptyBlock(Some(p)), false)
  {
  }

  lemma {:induction false} PopKeeps(m: Machine)
    requires Sound(m.blocks, m.bstack, false) && |m.stack| >= 1 && |m.bstack| >= 2
    ensures Sound(PopBlock(m).blocks, PopBlock(m).bstack, false)
  {
    var top, below, front := Top(m.bstack), Below(m.bstack), m.bstack[..|m.bstack| - 1];
    NestedBelow(m.blocks, m.bstack);
    assert Nested(m.blocks, front);
    hide Nested, Family;
    forall c | 0 <= c < |m.blocks| ensures Fine(m.blocks[c], false) { assert Fine(m.blocks[c], c == top && false); }
    var code := m.blocks[below].code;
    if code != [] && Last(code) == Continue {
      var bs := m.blocks[below := m.blocks[below].(code := Front(code))];
      UpdateKeeps(m.blocks, front, below, m.blocks[below].(code := Front(code)), false, false);
      EmitKeeps(bs, front, top, [Continue]);
    }
  }

  ghost predicate Progress(lex: seq<Lexeme>, m: Machine, r: Outcome<Machine>) {
    r.Good? ==> Valid(lex, r.value) && Measure(lex, r.value) < Measure(lex, m)
  }

  lemma {:induction false} HandledTop(cx: Context, m: Machine, act: Act, next: State, l: Lexeme)
    requires |m.bstack| == |m.stack| + 1 && Sound(m.blocks, m.bstack, Waiting(m.cur))
    requires KindFits(m.cur, m.blocks[Top(m.bstack)]) && Planned(m.cur, act, next)
    requires !act.DoNothing? && !act.DoTarget? && !act.DoName?
    ensures var r := TopAct(cx, act, next, m.blocks[Top(m.bstack)], l);
            r.Good? ==> Sound(m.blocks[Top(m.bstack) := r.value], m.bstack, Waiting(next)) && KindFits(next, r.value)
  {
    hide Family, KindFits, TopAct, ParamsFirst;
    var top := m.bstack[|m.bstack| - 1];
    var b := m.blocks[top];
    assert Fine(b, top == top && Waiting(m.cur));
    if act.DoType? { TypeActKeeps(cx, m.cur, act, next, l, b); }
    else if act.DoParam? { ParamActKeeps(cx, m.cur, act, next, l, b); }
    else if act.DoTail? { TailActKeeps(cx, act, l, b); }
    else if act.DoContinue? || act.DoBreak? { CodeActKeeps(cx, act, l, b); BodyKind(b, TopAct(cx, act, next, b, l)); }
    else if act.DoResult? || act.DoDotName? || act.DoTx? || act.DoSettings? { InfoActKeeps(cx, m.cur, act, next, l, b); }
    else { SectionActKeeps(cx, m.cur, act, next, l, b); }
    var r := TopAct(cx, act, next, b, l);
    if r.Good? { UpdateKeeps(m.blocks, m.bstack, top, r.value, Waiting(m.cur), Waiting(next)); }
  }

  lemma BodyKind(b: Block, r: Outcome<Block>)
    ensures r.Good? ==> KindFits(InBody, r.value)
  {
  }

  lemma {:induction false} NameKeeps(cx: Context, blocks: seq<Block>, bstack: seq<nat>, next: State, name: string)
    requires Sound(blocks, bstack, false) && |bstack| >= 2 && blocks[Top(bstack)] == EmptyBlock(blocks[Top(bstack)].parent)
    requires next.InBlock? || next.InParams?
    ensures Below(bstack) < |blocks|
    ensures var bs := NameAct(cx, blocks, Top(bstack), Below(bstack), next, name);
            Sound(bs, bstack, false) && KindFits(next, bs[Top(bstack)])
  {
    hide Family;
    NestedBelow(blocks, bstack);
    var top, below := Top(bstack), Below(bstack);
    assert Fine(blocks[below], below == top && false);
    var info := NameAct(cx, blocks, top, below, next, name)[top].info;
    UpdateKeeps(blocks, bstack, top, blocks[top].(info := info), false, false);
    var bs := SetInfo(blocks, top, info);
    UpdateKeeps(bs, bstack, below, NameAct(cx, blocks, top, below, next, name)[below], false, false);
  }

  lemma {:induction false} GotoKeeps(lex: seq<Lexeme>, cx: Context, m: Machine)
    requires m.i < |lex| && Valid(lex, m) && Table(m.cur, lex[m.i]).Goto?
    ensures Progress(lex, m, Turn(lex, cx, m))
  {
    hide Family, KindFits, TopAct, Table, NameAct, Planned, TargetAct, Fine;
    var mv, l := Table(m.cur, lex[m.i]), lex[m.i];
    var top := Top(m.bstack);
    var b := m.blocks[top];
    TablePlan(m.cur, l, b);
    NextStacked(m.cur, m.stack, mv.next);
    if mv.act.DoNothing? {
      PlannedNothing(m.cur, mv.next);
    } else if mv.act.DoTarget? {
      PlannedTarget(m.cur, mv.next, b, m);
      var t := TargetAct(cx, m.blocks, m.bstack, l);
      if t.Good? { UpdateKeeps(m.blocks, m.bstack, top, b.(code := AddTarget(b.code, t.value)), false, false); }
    } else if mv.act.DoName? {
      PlannedName(m.cur, mv.next, b);
      if l.Ident? { NameKeeps(cx, m.blocks, m.bstack, mv.next, l.name); }
    } else {
      PlannedOther(m.cur, mv.act, mv.next);
      HandledTop(cx, m, mv.act, mv.next, l);
    }
  }

  lemma NextStacked(cur: State, stack: seq<State>, next: State)
    requires Stacked(cur, stack) && (cur.InRoot? <==> next.InRoot?)
    ensures Stacked(next, stack)
  {
  }

  lemma PlannedNothing(st: State, next: State)
    requires Planned(st, DoNothing, next)
    ensures Waiting(st) == Waiting(next)
  {
  }

  lemma PlannedTarget(st: State, next: State, b: Block, m: Machine)
    requires Planned(st, DoTarget, next)
    ensures st.InAssign? && next.InAssign?
    ensures Fine(b, false) ==> forall c :: Fine(b.(code := c), false) && KindFits(next, b.(code := c))
  {
  }

  lemma PlannedName(st: State, next: State, b: Block)
    requires Planned(st, DoName, next) && KindFits(st, b)
    ensures b == EmptyBlock(b.parent) && (next.InBlock? || next.InParams?) && !st.InRoot? && !Waiting(st)
  {
  }

  lemma PlannedOther(st: State, act: Act, next: State)
    requires Planned(st, act, next)
    ensures !act.DoIf? && !act.DoElse? && !act.DoWhile?
  {
  }

  /** The other transitions of the table. */
  predicate MovePlan(st: State, l: Lexeme, mv: Move) {
    match mv
    case Enter(next, act) =>
      (st.InRoot? || st.InBody?) && ((act.DoNothing? && (next.InContract? || next.InFunc?)) || (act.DoElse? && next.InBlock?))
    case Leave => st.InBody?
    case Stay(next) =>
      (st.InParams? && next.InResult?) || (st.InResult? && next.InBlock?) || (st.InVar? && next.InBody?)
    case Fork => st.InBody? && (l.Ident? || l.Extend?)
    case BackToAssign => st.InAssignEval?
    case BackToEval => st.InAssignEval?
    case EvalThen(next, act) =>
      next.InBody? && (st.InBody? || st.InAssign?) && (l.Key? || l.Equals?) && (act.DoReturn? || act.DoError? || act.DoAssign?)
    case EvalEnter(_, act) => st.InBody? && l.Key? && (act.DoIf? || act.DoWhile?)
    case _ => true
  }

  lemma BodyMoves(l: Lexeme)
    ensures MovePlan(InRoot, l, RootMove(l)) && MovePlan(InBody, l, BodyMove(l))
  {
  }

  lemma OtherMoves(st: State, l: Lexeme)
    requires !st.InRoot? && !st.InBody?
    ensures InHeader(st) ==> MovePlan(st, l, HeaderMove(st, l))
    ensures InVars(st) ==> MovePlan(st, l, VarMove(st, l))
    ensures !InHeader(st) && !InVars(st) ==> MovePlan(st, l, DataMove(st, l))
  {
  }

  lemma TableMoves(st: State, l: Lexeme)
    ensures MovePlan(st, l, Table(st, l))
  {
    hide MovePlan, RootMove, BodyMove, HeaderMove, VarMove, DataMove;
    BodyMoves(l);
    if !st.InRoot? && !st.InBody? { OtherMoves(st, l); }
  }

  lemma {:induction false} EvaluateKeeps(lex: seq<Lexeme>, cx: Context, m: Machine, i: nat, labelled: bool, must: bool)
    requires Sound(m.blocks, m.bstack, false)
    requires i < |lex| && (lex[i].Key? || lex[i].Ident? || lex[i].Extend? || lex[i].Equals?)
    ensures var r := Evaluate(lex, cx, m, i, labelled, must);
            r.Good? ==> r.value == m.(i := r.value.i, blocks := r.value.blocks) && r.value.i > i &&
                        Sound(r.value.blocks, m.bstack, false)
  {
    hide Family, EvalAt, Scope, Emit;
    EvalForward(lex, i, Scope(cx, m));
    var e := EvalAt(lex, i, Scope(cx, m));
    if e.Good? { EmitKeeps(m.blocks, m.bstack, Top(m.bstack), (if labelled then [Label] else []) + e.value.1); }
  }

  lemma PushStacked(cur: State, stack: seq<State>, next: State)
    requires Stacked(cur, stack) && (cur.InRoot? || cur.InBody?) && !next.InRoot?
    ensures Stacked(next, stack + [cur])
  {
  }

  lemma {:induction false} EnterKeeps(lex: seq<Lexeme>, cx: Context, m: Machine)
    requires m.i < |lex| && Valid(lex, m) && Table(m.cur, lex[m.i]).Enter?
    ensures Progress(lex, m, Turn(lex, cx, m))
  {
    hide Family, Table, TopAct, NameAct, TargetAct, Fine, PushBlock, Emit, BlocksFine;
    var mv := Table(m.cur, lex[m.i]);
    TableMoves(m.cur, lex[m.i]);
    PushKeeps(m);
    PushStacked(m.cur, m.stack, mv.next);
    var m1 := Pushed(m);
    if mv.act.DoElse? {
      NestedBelow(m1.blocks, m1.bstack);
      EmitKeeps(m1.blocks, m1.bstack, Below(m1.bstack), [Else(Top(m1.bstack))]);
    }
  }

  lemma Pushed(m: Machine) returns (m1: Machine)
    requires Nested(m.blocks, m.bstack)
    ensures m1 == PushBlock(m) && m1 == m.(stack := m.stack + [m.cur], bstack := m1.bstack, blocks := m1.blocks)
    ensures |m1.bstack| == |m.bstack| + 1
  {
    m1 := PushBlock(m);
  }

  lemma {:induction false} LeaveKeeps(lex: seq<Lexeme>, cx: Context, m: Machine)
    requires m.i < |lex| && Valid(lex, m) && Table(m.cur, lex[m.i]).Leave?
    ensures Progress(lex, m, Turn(lex, cx, m))
  {
    hide Family, Table, Fine, BlocksFine, MoveContinue;
    TableMoves(m.cur, lex[m.i]);
    PopKeeps(m.(i := m.i + 1));
  }

  lemma {:induction false} EvalThenKeeps(lex: seq<Lexeme>, cx: Context, m: Machine)
    requires m.i < |lex| && Valid(lex, m) && Table(m.cur, lex[m.i]).EvalThen?
    ensures Progress(lex, m, Turn(lex, cx, m))
  {
    hide Family, Table, TopAct, Fine, Evaluate, ParamsFirst;
    var mv, l := Table(m.cur, lex[m.i]), lex[m.i];
    TableMoves(m.cur, l);
    EvaluateKeeps(lex, cx, m, m.i, false, false);
    var e := Evaluate(lex, cx, m, m.i, false, false);
    if e.Good? {
      var m1 := e.value;
      var top := Top(m.bstack);
      var b := m1.blocks[top];
      assert Fine(b, top == top && false);
      CodeActKeeps(cx, mv.act, l, b);
      var r := TopAct(cx, mv.act, InBody, b, l);
      if r.Good? { UpdateKeeps(m1.blocks, m.bstack, top, r.value, false, false); BodyKind(b, r); }
    }
  }

  lemma {:induction false} EvalEnterKeeps(lex: seq<Lexeme>, cx: Context, m: Machine)
    requires m.i < |lex| && Valid(lex, m) && Table(m.cur, lex[m.i]).EvalEnter?
    ensures Progress(lex, m, Turn(lex, cx, m))
  {
    hide Family, Table, TopAct, Fine, Evaluate, PushBlock, Emit, BlocksFine;
    var mv, l := Table(m.cur, lex[m.i]), lex[m.i];
    TableMoves(m.cur, l);
    EvaluateKeeps(lex, cx, m, m.i, mv.labelled, true);
    var e := Evaluate(lex, cx, m, m.i, mv.labelled, true);
    if e.Good? {
      PushKeeps(e.value);
      PushStacked(m.cur, m.stack, InBlock);
      var m1 := Pushed(e.value);
      NestedBelow(m1.blocks, m1.bstack);
      var top := Top(m1.bstack);
      EmitKeeps(m1.blocks, m1.bstack, Below(m1.bstack), [If(top)]);
      EmitKeeps(m1.blocks, m1.bstack, Below(m1.bstack), [While(top), Continue]);
    }
  }

  lemma {:induction false} BackKeeps(lex: seq<Lexeme>, cx: Context, m: Machine)
    requires m.i < |lex| && Valid(lex, m)
    requires Table(m.cur, lex[m.i]).BackToAssign? || Table(m.cur, lex[m.i]).BackToEval?
    ensures Progress(lex, m, Turn(lex, cx, m))
  {
    hide Family, Table, Evaluate, BlocksFine, Nested;
    TableMoves(m.cur, lex[m.i]);
    if Table(m.cur, lex[m.i]).BackToEval? {
      EvaluateKeeps(lex, cx, m.(cur := InBody, fork := 0), m.fork, false, false);
    }
  }

  lemma {:induction false} StayKeeps(lex: seq<Lexeme>, cx: Context, m: Machine)
    requires m.i < |lex| && Valid(lex, m)
    requires Table(m.cur, lex[m.i]).Fork? || Table(m.cur, lex[m.i]).Stay?
    ensures Progress(lex, m, Turn(lex, cx, m))
  {
    hide Family, Table, BlocksFine, Nested;
    TableMoves(m.cur, lex[m.i]);
  }

  /** Every turn of the loop keeps the invariant and comes closer to the end,
      although some turns move the cursor back. */
  lemma {:induction false} StepKeeps(lex: seq<Lexeme>, cx: Context, m: Machine)
    requires m.i < |lex| && Valid(lex, m)
    ensures Progress(lex, m, Turn(lex, cx, m))
  {
    hide Valid, Table, Nested, Measure;
    match Table(m.cur, lex[m.i]) {
      case Goto(_, _) => GotoKeeps(lex, cx, m);
      case Enter(_, _) => EnterKeeps(lex, cx, m);
      case Leave => LeaveKeeps(lex, cx, m);
      case EvalThen(_, _) => EvalThenKeeps(lex, cx, m);
      case EvalEnter(_, _) => EvalEnterKeeps(lex, cx, m);
      case Fail(_) =>
      case Fork => StayKeeps(lex, cx, m);
      case Stay(_) => StayKeeps(lex, cx, m);
      case _ => BackKeeps(lex, cx, m);
    }
  }

  /** The loop: it ends on every list of lexemes. */
  function Compile(lex: seq<Lexeme>, cx: Context, m: Machine): Outcome<seq<Block>>
    requires Valid(lex, m)
    decreases Measure(lex, m)
  {
    if m.i >= |lex| then
      if m.stack == [] then Good(m.blocks) else Bad(ErrState(4))
    else
      StepKeeps(lex, cx, m);
      match Turn(lex, cx, m)
      case Good(m') => Compile(lex, cx, m')
      case Bad(e) => Bad(e)
      case Panic => Panic
  }

  /** What is known of every tree of blocks that the compiler returns: it is a
      tree, every variable has a type and parameters are the first variables. */
  predicate SoundTree(blocks: seq<Block>) {
    Family(blocks) && forall b :: 0 <= b < |blocks| ==> Fine(blocks[b], false)
  }

  lemma {:induction false} CompiledIsSound(lex: seq<Lexeme>, cx: Context, m: Machine)
    requires Valid(lex, m)
    ensures Compile(lex, cx, m).Good? ==> SoundTree(Compile(lex, cx, m).value)
    decreases Measure(lex, m)
  {
    if m.i < |lex| {
      hide Valid, Turn, SoundTree;
      StepKeeps(lex, cx, m);
      if Turn(lex, cx, m).Good? { CompiledIsSound(lex, cx, Turn(lex, cx, m).value); }
    } else if m.stack == [] {
      forall b | 0 <= b < |m.blocks| ensures Fine(m.blocks[b], false) {
        assert Fine(m.blocks[b], b == Top(m.bstack) && Waiting(m.cur));
      }
    }
  }

  lemma InitialValid(lex: seq<Lexeme>)
    ensures Valid(lex, Initial())
  {
    var blocks := [EmptyBlock(None)];
    assert KidsOf(blocks, 0, 0) == [];
    assert KidsOf(blocks, 0, 1) == [];
  }

  // ----- the loops as the program runs them -----

  /** The loop of fFtype over parameters or variables. */
  method TypeLoop(vars: seq<Option<string>>, t: string) returns (r: seq<Option<string>>)
    ensures r == Typed(vars, t)
  {
    r := vars;
    for k := 0 to |vars|
      invariant |r| == |vars| && forall x :: 0 <= x < |vars| ==> r[x] == if x < k then Typed(vars, t)[x] else vars[x]
    {
      if r[k].None? { r := r[k := Some(t)]; }
    }
  }

  /** The loop of fFtail: a second waiting parameter is an error. */
  method TailLoop(params: seq<Option<string>>) returns (r: Option<seq<Option<string>>>)
    ensures r == if WaitingCount(params) > 1 then None else Some(Typed(params, ARRAY_TYPE))
  {
    var used, ps := false, params;
    assert params[..|params|] == params;
    for k := 0 to |params|
      invariant |ps| == |params|
      invariant forall x :: 0 <= x < |params| ==> ps[x] == if x < k then Typed(params, ARRAY_TYPE)[x] else params[x]
      invariant WaitingCount(params[..k]) == if used then 1 else 0
    {
      assert params[..k + 1][..k] == params[..k];
      if ps[k].None? {
        if used {
          WaitingGrows(params, k + 1);
          return None;
        }
        ps, used := ps[k := Some(ARRAY_TYPE)], true;
      }
    }
    assert ps == Typed(params, ARRAY_TYPE);
    return Some(ps);
  }

  lemma {:induction false} WaitingGrows(params: seq<Option<string>>, k: nat)
    requires k <= |params|
    ensures WaitingCount(params[..k]) <= WaitingCount(params)
    decreases |params| - k
  {
    if k < |params| {
      assert params[..k + 1][..k] == params[..k];
      WaitingGrows(params, k + 1);
    } else {
      assert params[..k] == params;
    }
  }

  /** findVar: the innermost block that knows the name. */
  method FindVar(blocks: seq<Block>, bstack: seq<nat>, name: string) returns (r: Option<Object>)
    requires Nested(blocks, bstack)
    ensures r == if name in Local(blocks, bstack) then Some(Local(blocks, bstack)[name]) else None
  {
    var k := |bstack|;
    assert bstack[..k] == bstack;
    while k > 0
      invariant 0 <= k <= |bstack|
      invariant k > 0 ==> Nested(blocks, bstack[..k])
      invariant k > 0 ==> (name in Local(blocks, bstack) <==> name in Local(blocks, bstack[..k]))
      invariant k > 0 && name in Local(blocks, bstack) ==> Local(blocks, bstack)[name] == Local(blocks, bstack[..k])[name]
      invariant k == 0 ==> name !in Local(blocks, bstack)
    {
      assert Top(bstack[..k]) == bstack[k - 1];
      assert k > 1 ==> bstack[..k][..k - 1] == bstack[..k - 1];
      var b := bstack[k - 1];
      if name in blocks[b].objects { return Some(ObjectOf(blocks, b, name, blocks[b].objects[name])); }
      k := k - 1;
    }
    return None;
  }

  /** fAssignVar: the place is looked up and joined to the places before it. */
  method AddPlace(cx: Context, m: Machine, l: Lexeme) returns (r: Outcome<Machine>)
    requires Nested(m.blocks, m.bstack)
    ensures r == Handle(cx, DoTarget, m, l)
  {
    hide Local;
    var top := Top(m.bstack);
    var t := ToExtend("");
    if l.Extend? {
      if IsSysVar(cx, l.name) { return Bad(ErrSysVar(l.name)); }
      t := ToExtend(l.name);
    } else if l.Ident? {
      var v := FindVar(m.blocks, m.bstack, l.name);
      if v.None? || !v.value.ObjVar? { return Bad(ErrUnknownVar(l.name)); }
      t := ToVar(v.value.v);
    } else {
      return Panic;
    }
    var code := m.blocks[top].code;
    if code != [] && Last(code).AssignVar? {
      code := code[|code| - 1 := AssignVar(Last(code).targets + [t])];
      assert code == AddTarget(m.blocks[top].code, t);
    } else {
      code := code + [AssignVar([t])];
    }
    return Good(m.(blocks := m.blocks[top := m.blocks[top].(code := code)]));
  }

  /** The loop of fFieldType: every field that waits for a type gets it. */
  method FieldTypeLoop(fields: seq<DataField>, l: Lexeme) returns (r: Outcome<seq<DataField>>)
    ensures r == FieldAct(DoFieldType, fields, l)
  {
    if !l.TypeName? { return Panic; }
    if fields == [] || LastField(fields).typ.Some? { return Bad(ErrDataName); }
    var fs := fields;
    ghost var goal := FieldAct(DoFieldType, fields, l).value;
    for k := 0 to |fields|
      invariant |fs| == |fields| == |goal| && forall x :: 0 <= x < |fs| ==> fs[x] == if x < k then goal[x] else fields[x]
    {
      if fs[k].typ.None? { fs := fs[k := DataField(fs[k].name, Some(l.t), "")]; }
    }
    assert fs == goal;
    return Good(fs);
  }

  /** fFieldTag: the search from the last field back for one without a tag ends at
      the last field, which has just been found to have none. */
  method SetTag(fields: seq<DataField>, l: Lexeme) returns (r: Outcome<seq<DataField>>)
    ensures r == FieldAct(DoFieldTag, fields, l)
  {
    if !l.Str? || fields == [] { return Panic; }
    var fs, last := fields, |fields| - 1;
    if fs[last].tags == "_" { fs := fs[last := fs[last].(tags := "")]; }
    if fs[last].typ.None? || fs[last].tags != "" { return Bad(ErrDataTag); }
    assert fs[last := fs[last].(tags := l.s)] == fields[last := LastField(fields).(tags := l.s)];
    return Good(fs[last := fs[last].(tags := l.s)]);
  }

  /** The handlers of the data section. */
  method FieldHandler(act: Act, b: Block, l: Lexeme) returns (r: Outcome<Block>)
    requires FieldAction(act)
    ensures r == DataAct(act, b, l)
  {
    if !b.info.ContractInfo? || b.info.tx.None? { return Panic; }
    var fs := b.info.tx.value;
    var t: Outcome<seq<DataField>>;
    if act.DoFieldType? {
      t := FieldTypeLoop(fs, l);
    } else if act.DoFieldTag? {
      t := SetTag(fs, l);
    } else if act.DoField? {
      if !l.Ident? { return Panic; }
      if fs != [] && LastField(fs).typ.None? && LastField(fs).tags != "_" { return Bad(ErrDataType); }
      t := Good(fs + [DataField(l.name, None, "")]);
    } else if act.DoFieldComma? {
      if fs == [] || LastField(fs).typ.Some? { return Bad(ErrDataName); }
      t := Good(fs[|fs| - 1 := LastField(fs).(tags := "_")]);
    } else {
      if fs != [] && LastField(fs).typ.None? { return Bad(ErrDataType); }
      t := Good(fs);
    }
    match t
    case Good(done) => return Good(b.(info := b.info.(tx := Some(done))));
    case Bad(e) => return Bad(e);
    case Panic => return Panic;
  }

  /** fFtype on the block on top. */
  method TypeHandler(next: State, block: Block, l: Lexeme) returns (r: Outcome<Block>)
    ensures r == TypeAct(next, block, l)
  {
    hide Typed;
    var b := block;
    if !l.TypeName? { return Panic; }
    if b.info.FuncInfo? && next.InParam? {
      var ps := TypeLoop(b.info.params, l.t);
      b := b.(info := b.info.(params := ps));
    }
    var vs := TypeLoop(b.vars, l.t);
    return Good(b.(vars := vs));
  }

  /** fFtail on the block on top. */
  method TailHandler(b: Block) returns (r: Outcome<Block>)
    ensures r == TailAct(b)
  {
    hide Typed, WaitingCount;
    if !b.info.FuncInfo? { return Panic; }
    var ps := TailLoop(b.info.params);
    if ps.None? { return Bad(ErrTail); }
    var vs := TypeLoop(b.vars, ARRAY_TYPE);
    return Good(b.(info := b.info.(params := ps.value, variadic := true), vars := vs));
  }

  /** The handlers that refer from the block below to the block on top. */
  method ReferHandler(cx: Context, act: Act, m: Machine, l: Lexeme) returns (r: Outcome<Machine>)
    requires Nested(m.blocks, m.bstack) && (act.DoName? || act.DoIf? || act.DoWhile? || act.DoElse?)
    ensures r == Handle(cx, act, m, l)
  {
    if |m.bstack| < 2 { return Panic; }
    NestedBelow(m.blocks, m.bstack);
    var top, below, bs := Top(m.bstack), Below(m.bstack), m.blocks;
    if act.DoName? {
      if !l.Ident? { return Panic; }
      bs := NameAct(cx, bs, top, below, m.cur, l.name);
    } else {
      var code := bs[below].code;
      if act.DoIf? {
        code := code + [If(top)];
      } else if act.DoWhile? {
        code := code + [While(top), Continue];
      } else {
        if code == [] { return Panic; }
        if !Last(code).If? { return Bad(ErrElse); }
        code := code + [Else(top)];
      }
      bs := bs[below := bs[below].(code := code)];
    }
    return Good(m.(blocks := bs));
  }

  method RunHandler(cx: Context, act: Act, m: Machine, l: Lexeme) returns (r: Outcome<Machine>)
    requires Nested(m.blocks, m.bstack)
    ensures r == Handle(cx, act, m, l)
  {
    hide Handle, Nested;
    if act.DoNothing? {
      NothingHandled(cx, m, l);
      r := Good(m);
    } else if act.DoTarget? {
      r := AddPlace(cx, m, l);
    } else if act.DoName? || act.DoIf? || act.DoWhile? || act.DoElse? {
      r := ReferHandler(cx, act, m, l);
    } else {
      r := ChangeTop(cx, act, m, l);
    }
  }

  lemma NothingHandled(cx: Context, m: Machine, l: Lexeme)
    requires Nested(m.blocks, m.bstack)
    ensures Handle(cx, DoNothing, m, l) == Good(m)
  {
  }

  method ChangeTop(cx: Context, act: Act, m: Machine, l: Lexeme) returns (r: Outcome<Machine>)
    requires Nested(m.blocks, m.bstack)
    requires !act.DoNothing? && !act.DoTarget? && !act.DoName? && !act.DoIf? && !act.DoWhile? && !act.DoElse?
    ensures r == Handle(cx, act, m, l)
  {
    hide NameAct, Local, TopAct, TargetAct, AddTarget, Emit, Nested;
    TopIn(m.blocks, m.bstack);
    var top := Top(m.bstack);
    var t := TopHandler(cx, act, m.cur, m.blocks[top], l);
    match t
    case Good(done) => return Good(m.(blocks := m.blocks[top := done]));
    case Bad(e) => return Bad(e);
    case Panic => return Panic;
  }

  /** The handlers that work on the block on top. */
  method TopHandler(cx: Context, act: Act, next: State, b: Block, l: Lexeme) returns (r: Outcome<Block>)
    ensures r == TopAct(cx, act, next, b, l)
  {
    hide VarAct, SectionAct, CommandAct, CodeAct;
    if CodeAct(act) { r := CommandHandler(act, b, l); }
    else if act.DoParam? || act.DoType? || act.DoTail? { r := VarHandler(act, next, b, l); }
    else { r := SectionHandler(act, b, l); }
  }

  method VarHandler(act: Act, next: State, b: Block, l: Lexeme) returns (r: Outcome<Block>)
    ensures r == VarAct(act, next, b, l)
  {
    hide TailAct, TypeAct, ParamAct;
    if act.DoParam? { r := ParamHandler(next, b, l); }
    else if act.DoType? { r := TypeHandler(next, b, l); }
    else { r := TailHandler(b); }
  }

  method SectionHandler(act: Act, b: Block, l: Lexeme) returns (r: Outcome<Block>)
    ensures r == SectionAct(act, b, l)
  {
    hide InfoAct, ConstAct, DataAct, FieldAction;
    if FieldAction(act) { r := FieldHandler(act, b, l); }
    else if act.DoConstName? || act.DoConstValue? { r := ConstHandler(b, l); }
    else { r := InfoHandler(act, b, l); }
  }

  method CommandHandler(act: Act, b: Block, l: Lexeme) returns (r: Outcome<Block>)
    requires CodeAct(act)
    ensures r == CommandAct(act, b, l)
  {
    var c := Break;
    if act.DoReturn? { c := Return; }
    else if act.DoAssign? { c := Assign; }
    else if act.DoContinue? { c := Continue; }
    else if act.DoError? {
      if !l.Key? { return Panic; }
      c := ErrorCmd(l.k);
    }
    return Good(b.(code := b.code + [c]));
  }

  method ParamHandler(next: State, b: Block, l: Lexeme) returns (r: Outcome<Block>)
    ensures r == ParamAct(next, b, l)
  {
    if !l.Ident? { return Panic; }
    var info := b.info;
    if info.FuncInfo? && next.InParamType? { info := info.(params := info.params + [None]); }
    return Good(b.(info := info, objects := b.objects[l.name := VarEntry(|b.vars|)], vars := b.vars + [None]));
  }

  method ConstHandler(b: Block, l: Lexeme) returns (r: Outcome<Block>)
    ensures r == ConstAct(b, l)
  {
    if !b.info.ContractInfo? || b.info.settings.None? { return Panic; }
    var sets, pending := b.info.settings.value, b.info.pending;
    match l {
      case Ident(n) => sets, pending := sets[n := None], n;
      case Number(c) => sets := sets[pending := if c == Nil then None else Some(c)];
      case Str(t) => sets := sets[pending := Some(Text(t))];
      case _ => return Panic;
    }
    return Good(b.(info := b.info.(settings := Some(sets), pending := pending)));
  }

  method InfoHandler(act: Act, b: Block, l: Lexeme) returns (r: Outcome<Block>)
    ensures r == InfoAct(act, b, l)
  {
    var info := b.info;
    if act.DoResult? {
      if !info.FuncInfo? || !l.TypeName? { return Panic; }
      info := info.(results := info.results + [l.t]);
    } else {
      if act.DoDotName? { return Bad(ErrNamedTail); }
      if !info.ContractInfo? { return Bad(ErrDataPlace); }
      if act.DoTx? { info := info.(tx := Some([])); } else { info := info.(settings := Some(map[])); }
    }
    return Good(b.(info := info));
  }

  lemma TopIn(blocks: seq<Block>, bstack: seq<nat>)
    requires Nested(blocks, bstack)
    ensures bstack != [] && Top(bstack) < |blocks|
  {
  }

  /** CompileBlock: the loop over the lexemes. */
  method CompileBlock(lex: seq<Lexeme>, cx: Context) returns (r: Outcome<seq<Block>>)
    ensures Valid(lex, Initial()) && r == Compile(lex, cx, Initial())
    ensures r.Good? ==> SoundTree(r.value)
  {
    hide Valid, Nested, Handle, Measure, Scope, Table, SoundTree, EvalAt;
    InitialValid(lex);
    CompiledIsSound(lex, cx, Initial());
    var m := Initial();
    while m.i < |lex|
      invariant Valid(lex, m) && Compile(lex, cx, m) == Compile(lex, cx, Initial())
      decreases Measure(lex, m)
    {
      StepKeeps(lex, cx, m);
      ValidNested(lex, m);
      var t := OneTurn(lex, cx, m);
      match t
      case Bad(e) => return Bad(e);
      case Panic => return Panic;
      case Good(m') => m := m';
    }
    if m.stack != [] { return Bad(ErrState(4)); }
    return Good(m.blocks);
  }

  lemma ValidNested(lex: seq<Lexeme>, m: Machine)
    requires Valid(lex, m)
    ensures Nested(m.blocks, m.bstack) && |m.bstack| == |m.stack| + 1
  {
  }

  /** One turn of the loop. */
  method OneTurn(lex: seq<Lexeme>, cx: Context, m: Machine) returns (r: Outcome<Machine>)
    requires Nested(m.blocks, m.bstack) && |m.bstack| == |m.stack| + 1 && m.i < |lex|
    ensures r == Turn(lex, cx, m)
  {
    hide Nested, Handle, Scope, Table, EvalAt, PushBlock, PopBlock, Emit;
    var mv, l := Table(m.cur, lex[m.i]), lex[m.i];
    match mv {
      case Goto(next, act) => r := RunHandler(cx, act, m.(i := m.i + 1, cur := next), l);
      case Enter(next, act) =>
        NestedPush(m);
        r := RunHandler(cx, act, PushBlock(m).(i := m.i + 1, cur := next), l);
      case EvalThen(next, act) =>
        r := EvalTurn(lex, cx, m, m.i, false, false);
        if r.Good? {
          NestedEmit(m.blocks, r.value.blocks, m.bstack);
          r := RunHandler(cx, act, r.value.(cur := next), l);
        }
      case EvalEnter(labelled, act) =>
        r := EvalTurn(lex, cx, m, m.i, labelled, true);
        if r.Good? {
          NestedEmit(m.blocks, r.value.blocks, m.bstack);
          NestedPush(r.value);
          r := RunHandler(cx, act, PushBlock(r.value).(cur := InBlock), l);
        }
      case BackToEval => r := EvalTurn(lex, cx, m.(cur := InBody, fork := 0), m.fork, false, false);
      case Fail(code) => r := Bad(ErrState(code));
      case Stay(next) => r := Good(m.(cur := next));
      case Fork => r := Good(m.(i := m.i + 1, cur := InAssignEval, fork := m.i));
      case BackToAssign => r := Good(m.(i := m.fork, cur := InAssign, fork := 0));
      case Leave => if m.stack == [] { r := Bad(ErrState(3)); } else { r := Good(PopBlock(m.(i := m.i + 1))); }
    }
  }

  method EvalTurn(lex: seq<Lexeme>, cx: Context, m: Machine, i: nat, labelled: bool, must: bool) returns (r: Outcome<Machine>)
    requires Nested(m.blocks, m.bstack)
    ensures r == Evaluate(lex, cx, m, i, labelled, must)
    ensures r.Good? ==> SameLinks(m.blocks, r.value.blocks) && r.value.bstack == m.bstack
  {
    hide Scope, EvalAt;
    var e := CompileEval(lex, i, Scope(cx, m));
    if e.Bad? { return Bad(e.error); }
    if e.Panic? { return Panic; }
    var (j, code) := e.value;
    if must && code == [] { return Bad(ErrNoEval); }
    if labelled { code := [Label] + code; } else { assert [] + code == code; }
    return Good(m.(i := if j + 1 < 0 then 0 else j + 1, blocks := Emit(m.blocks, Top(m.bstack), code)));
  }
}

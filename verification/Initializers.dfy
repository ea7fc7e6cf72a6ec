/**
 Map and array initializers: the mutually recursive parser of
 packages/script/compile.go, and the round trip from a printed initializer,
 with line breaks anywhere between its tokens, back to its value.
 */
module Initializers {
  import opened Wrappers
  import opened Lexemes

  datatype Expect = MustKey | MustColon | MustComma | MustValue

  type Entries = seq<(string, Item)>

  /** Assignment in the insertion-ordered map: an existing key keeps its place. */
  function SetEntry(m: Entries, key: string, v: Item): Entries {
    if m == [] then [(key, v)]
    else if m[0].0 == key then [(key, v)] + m[1..]
    else [m[0]] + SetEntry(m[1..], key, v)
  }

  function Lookup(m: Entries, key: string): Option<Item> {
    if m == [] then None
    else if m[0].0 == key then Some(m[0].1)
    else Lookup(m[1..], key)
  }

  /** The keys in the order in which they were first set. */
  function Keys(m: Entries): seq<string> {
    if m == [] then [] else [m[0].0] + Keys(m[1..])
  }

  /** Setting a key changes what that key finds and nothing else; a new key goes
      to the end and a known one keeps its place. */
  lemma {:induction false} SetEntryLookup(m: Entries, key: string, v: Item, k: string)
    ensures Lookup(SetEntry(m, key, v), k) == if k == key then Some(v) else Lookup(m, k)
    ensures Keys(SetEntry(m, key, v)) == if Lookup(m, key).Some? then Keys(m) else Keys(m) + [key]
  {
    if m != [] && m[0].0 != key {
      SetEntryLookup(m[1..], key, v, k);
    }
  }

  // ----- the parser, as functions -----

  /** The value that starts at `i`, and the position of its last lexeme. */
  function ValueAt(lex: seq<Lexeme>, i: nat, env: Env): (r: Outcome<(Item, nat)>)
    requires i < |lex|
    ensures r.Good? ==> i <= r.value.1 < |lex|
    decreases |lex| - i, 1
  {
    match lex[i]
    case LBrack =>
      (match ArrayFrom(lex, i + 1, [], MustValue, env)
       case Good((items, j)) => Good((ItemArray(items), j))
       case Bad(e) => Bad(e)
       case Panic => Panic)
    case LCurly =>
      (match MapFrom(lex, i + 1, "", [], MustKey, env)
       case Good((m, j)) => Good((ItemMap(m), j))
       case Bad(e) => Bad(e)
       case Panic => Panic)
    case Extend(name) => Good((ItemExtend(name), i))
    case Ident(name) =>
      if name in env then Good((ItemVar(env[name]), i)) else Bad(ErrUnknownIdent(name))
    case Number(c) => Good((ItemConst(c), i))
    case Str(s) => Good((ItemConst(Text(s)), i))
    case _ => Bad(ErrUnexpValue)
  }

  /** The loop of getInitMap from position `i`. */
  function MapFrom(lex: seq<Lexeme>, i: nat, key: string, acc: Entries, st: Expect, env: Env)
    : (r: Outcome<(Entries, nat)>)
    requires i <= |lex|
    ensures r.Good? ==> i <= r.value.1 < |lex| && lex[r.value.1] == RCurly
    decreases |lex| - i, 2
  {
    if i == |lex| then Bad(ErrUnclosedMap)
    else if lex[i] == NewLine then MapFrom(lex, i + 1, key, acc, st, env)
    else if lex[i] == RCurly then Good((acc, i))
    else
      match st
      case MustComma =>
        if lex[i] != Comma then Bad(ErrUnexpComma) else MapFrom(lex, i + 1, key, acc, MustKey, env)
      case MustColon =>
        if lex[i] != Colon then Bad(ErrUnexpColon) else MapFrom(lex, i + 1, key, acc, MustValue, env)
      case MustKey =>
        (match lex[i]
         case Ident(name) => MapFrom(lex, i + 1, name, acc, MustColon, env)
         case Str(s) => MapFrom(lex, i + 1, s, acc, MustColon, env)
         case Key(k) =>
           var st' := if k == KwFunc && i + 1 < |lex| && lex[i + 1].Ident? then MustKey else MustColon;
           MapFrom(lex, i + 1, KeywordText(k), acc, st', env)
         case _ => Bad(ErrUnexpKey))
      case MustValue =>
        (match ValueAt(lex, i, env)
         case Good((v, j)) => MapFrom(lex, j + 1, key, SetEntry(acc, key, v), MustComma, env)
         case Bad(e) => Bad(e)
         case Panic => Panic)
  }

  /** The loop of getInitArray from position `i`. */
  function ArrayFrom(lex: seq<Lexeme>, i: nat, acc: seq<Item>, st: Expect, env: Env)
    : (r: Outcome<(seq<Item>, nat)>)
    requires i <= |lex|
    ensures r.Good? ==> i <= r.value.1 < |lex| && lex[r.value.1] == RBrack
    decreases |lex| - i, 2
  {
    if i == |lex| then Bad(ErrUnclosedArray)
    else if lex[i] == NewLine then ArrayFrom(lex, i + 1, acc, st, env)
    else if lex[i] == RBrack then Good((acc, i))
    else if st == MustComma then
      if lex[i] != Comma then Bad(ErrUnexpComma) else ArrayFrom(lex, i + 1, acc, MustValue, env)
    else
      match ValueAt(lex, i, env)
      case Good((v, j)) => ArrayFrom(lex, j + 1, acc + [v], MustComma, env)
      case Bad(e) => Bad(e)
      case Panic => Panic
  }

  // ----- the parser, as the program runs it -----

  method GetInitValue(lex: seq<Lexeme>, i: nat, env: Env) returns (r: Outcome<(Item, nat)>)
    requires i < |lex|
    ensures r == ValueAt(lex, i, env)
    decreases |lex| - i, 1
  {
    match lex[i]
    case LBrack =>
      var a := GetInitArray(lex, i, env);
      r := match a case Good((items, j)) => Good((ItemArray(items), j)) case Bad(e) => Bad(e) case Panic => Panic;
    case LCurly =>
      var m := GetInitMap(lex, i, env);
      r := match m case Good((es, j)) => Good((ItemMap(es), j)) case Bad(e) => Bad(e) case Panic => Panic;
    case Extend(name) => r := Good((ItemExtend(name), i));
    case Ident(name) =>
      r := if name in env then Good((ItemVar(env[name]), i)) else Bad(ErrUnknownIdent(name));
    case Number(c) => r := Good((ItemConst(c), i));
    case Str(s) => r := Good((ItemConst(Text(s)), i));
    case _ => r := Bad(ErrUnexpValue);
  }

  method GetInitMap(lex: seq<Lexeme>, ind: nat, env: Env) returns (r: Outcome<(Entries, nat)>)
    requires ind < |lex|
    ensures r == MapFrom(lex, ind + 1, "", [], MustKey, env)
    decreases |lex| - ind, 0
  {
    hide ValueAt, ArrayFrom, SetEntry;
    var i, key, ret, st := ind + 1, "", [], MustKey;
    while i < |lex| && lex[i] != RCurly
      invariant ind < i <= |lex|
      invariant MapFrom(lex, i, key, ret, st, env) == MapFrom(lex, ind + 1, "", [], MustKey, env)
      decreases |lex| - i
    {
      if lex[i] == NewLine {
      } else if st == MustComma {
        if lex[i] != Comma { return Bad(ErrUnexpComma); }
        st := MustKey;
      } else if st == MustColon {
        if lex[i] != Colon { return Bad(ErrUnexpColon); }
        st := MustValue;
      } else if st == MustKey {
        match lex[i]
        case Ident(name) => key, st := name, MustColon;
        case Str(s) => key, st := s, MustColon;
        case Key(k) =>
          key := KeywordText(k);
          if !(k == KwFunc && i + 1 < |lex| && lex[i + 1].Ident?) { st := MustColon; }
        case _ => return Bad(ErrUnexpKey);
      } else {
        var v := GetInitValue(lex, i, env);
        match v
        case Good((item, j)) => i, ret, st := j, SetEntry(ret, key, item), MustComma;
        case Bad(e) => return Bad(e);
        case Panic => return Panic;
      }
      i := i + 1;
    }
    if i == |lex| { return Bad(ErrUnclosedMap); }
    return Good((ret, i));
  }

  method GetInitArray(lex: seq<Lexeme>, ind: nat, env: Env) returns (r: Outcome<(seq<Item>, nat)>)
    requires ind < |lex|
    ensures r == ArrayFrom(lex, ind + 1, [], MustValue, env)
    decreases |lex| - ind, 0
  {
    hide ValueAt, MapFrom;
    var i, ret, st := ind + 1, [], MustValue;
    while i < |lex| && lex[i] != RBrack
      invariant ind < i <= |lex|
      invariant ArrayFrom(lex, i, ret, st, env) == ArrayFrom(lex, ind + 1, [], MustValue, env)
      decreases |lex| - i
    {
      if lex[i] == NewLine {
      } else if st == MustComma {
        if lex[i] != Comma { return Bad(ErrUnexpComma); }
        st := MustValue;
      } else {
        var v := GetInitValue(lex, i, env);
        match v
        case Good((item, j)) => i, ret, st := j, ret + [item], MustComma;
        case Bad(e) => return Bad(e);
        case Panic => return Panic;
      }
      i := i + 1;
    }
    if i == |lex| { return Bad(ErrUnclosedArray); }
    return Good((ret, i));
  }

  // ----- what an initializer means, independently of any parser -----

  datatype MapKey = IdentKey(name: string) | StringKey(s: string)

  /** The initializers a programmer writes. */
  datatype Init =
    | InitConst(c: Const)
    | InitVar(name: string)
    | InitExtend(name: string)
    | InitMap(fields: Fields)
    | InitArray(elems: Elems)

  datatype Fields = NoField | Field(key: MapKey, value: Init, rest: Fields)

  datatype Elems = NoElem | Elem(value: Init, rest: Elems)

  function KeyName(k: MapKey): string {
    match k case IdentKey(n) => n case StringKey(s) => s
  }

  function KeyToken(k: MapKey): Lexeme {
    match k case IdentKey(n) => Ident(n) case StringKey(s) => Str(s)
  }

  function Tokens(v: Init): (t: seq<Lexeme>)
    ensures |t| > 0 && t[0] != NewLine && t[0] != RCurly && t[0] != RBrack
    decreases v
  {
    match v
    case InitConst(c) => [if c.Text? then Str(c.s) else Number(c)]
    case InitVar(name) => [Ident(name)]
    case InitExtend(name) => [Lexeme.Extend(name)]
    case InitMap(fs) => [LCurly] + FieldTokens(fs) + [RCurly]
    case InitArray(es) => [LBrack] + ElemTokens(es) + [RBrack]
  }

  function FieldTokens(fs: Fields): seq<Lexeme>
    decreases fs
  {
    match fs
    case NoField => []
    case Field(k, v, rest) =>
      [KeyToken(k), Colon] + Tokens(v) + (if rest.NoField? then [] else [Comma] + FieldTokens(rest))
  }

  function ElemTokens(es: Elems): seq<Lexeme>
    decreases es
  {
    match es
    case NoElem => []
    case Elem(v, rest) => Tokens(v) + (if rest.NoElem? then [] else [Comma] + ElemTokens(rest))
  }

  /** The value of an initializer, or the first name in it that is unknown. A
      repeated key takes its last value and its first position. */
  function Meaning(v: Init, env: Env): Outcome<Item>
    decreases v
  {
    match v
    case InitConst(c) => Good(ItemConst(c))
    case InitVar(name) => if name in env then Good(ItemVar(env[name])) else Bad(ErrUnknownIdent(name))
    case InitExtend(name) => Good(ItemExtend(name))
    case InitMap(fs) =>
      (match FieldsMeaning([], fs, env)
       case Good(m) => Good(ItemMap(m)) case Bad(e) => Bad(e) case Panic => Panic)
    case InitArray(es) =>
      (match ElemsMeaning([], es, env)
       case Good(a) => Good(ItemArray(a)) case Bad(e) => Bad(e) case Panic => Panic)
  }

  function FieldsMeaning(acc: Entries, fs: Fields, env: Env): Outcome<Entries>
    decreases fs
  {
    match fs
    case NoField => Good(acc)
    case Field(k, v, rest) =>
      match Meaning(v, env)
      case Good(x) => FieldsMeaning(SetEntry(acc, KeyName(k), x), rest, env)
      case Bad(e) => Bad(e)
      case Panic => Panic
  }

  function ElemsMeaning(acc: seq<Item>, es: Elems, env: Env): Outcome<seq<Item>>
    decreases es
  {
    match es
    case NoElem => Good(acc)
    case Elem(v, rest) =>
      match Meaning(v, env)
      case Good(x) => ElemsMeaning(acc + [x], rest, env)
      case Bad(e) => Bad(e)
      case Panic => Panic
  }

  /** The position after the tokens `toks`, read from `i` with any number of line
      breaks in front of each token; None when something else stands there. */
  function After(lex: seq<Lexeme>, i: nat, toks: seq<Lexeme>): (r: Option<nat>)
    requires i <= |lex|
    ensures r.Some? ==> i + |toks| <= r.value <= |lex|
    decreases |lex| - i
  {
    if toks == [] then Some(i)
    else if i == |lex| then None
    else if lex[i] == NewLine then After(lex, i + 1, toks)
    else if lex[i] == toks[0] then After(lex, i + 1, toks[1..])
    else None
  }

  lemma AfterConcat(lex: seq<Lexeme>, i: nat, a: seq<Lexeme>, b: seq<Lexeme>)
    requires i <= |lex|
    requires After(lex, i, a + b).Some?
    ensures After(lex, i, a).Some?
    ensures After(lex, After(lex, i, a).value, b) == After(lex, i, a + b)
    decreases |lex| - i
  {
    if a == [] {
      assert a + b == b;
    } else if lex[i] == NewLine {
      AfterConcat(lex, i + 1, a, b);
    } else {
      assert (a + b)[1..] == a[1..] + b;
      AfterConcat(lex, i + 1, a[1..], b);
    }
  }

  // ----- the round trip -----

  /** In the position of a value, line breaks are skipped and the value is read. */
  lemma {:induction false} ValueRoundTrip(lex: seq<Lexeme>, i: nat, v: Init, env: Env)
    requires i < |lex| && lex[i] != NewLine
    requires After(lex, i, Tokens(v)).Some?
    ensures var j := After(lex, i, Tokens(v)).value;
            ValueAt(lex, i, env) ==
            match Meaning(v, env) case Good(x) => Good((x, j - 1)) case Bad(e) => Bad(e) case Panic => Panic
    decreases v, 0
  {
    hide MapFrom, ArrayFrom, After, FieldTokens, ElemTokens, FieldsMeaning, ElemsMeaning;
    match v
    case InitConst(_) => AfterOne(lex, i, Tokens(v)[0]);
    case InitVar(_) => AfterOne(lex, i, Tokens(v)[0]);
    case InitExtend(_) => AfterOne(lex, i, Tokens(v)[0]);
    case InitMap(fs) =>
      assert Tokens(v) == [LCurly] + (FieldTokens(fs) + [RCurly]);
      AfterFirst(lex, i, LCurly, FieldTokens(fs) + [RCurly]);
      MapRoundTrip(lex, i + 1, "", [], fs, env);
    case InitArray(es) =>
      assert Tokens(v) == [LBrack] + (ElemTokens(es) + [RBrack]);
      AfterFirst(lex, i, LBrack, ElemTokens(es) + [RBrack]);
      ArrayRoundTrip(lex, i + 1, [], es, env);
  }

  lemma AfterOne(lex: seq<Lexeme>, i: nat, t: Lexeme)
    requires i < |lex| && lex[i] != NewLine
    requires After(lex, i, [t]).Some?
    ensures lex[i] == t && After(lex, i, [t]) == Some(i + 1)
  {
    assert [t][1..] == [];
  }

  lemma AfterFirst(lex: seq<Lexeme>, i: nat, t: Lexeme, rest: seq<Lexeme>)
    requires i < |lex| && lex[i] != NewLine
    requires After(lex, i, [t] + rest).Some?
    ensures lex[i] == t && After(lex, i + 1, rest) == After(lex, i, [t] + rest)
  {
    assert ([t] + rest)[1..] == rest;
  }

  /** Line breaks before a value do not matter to the map loop. */
  lemma {:induction false} MapValueStep(lex: seq<Lexeme>, i: nat, key: string, acc: Entries, v: Init, env: Env)
    requires i <= |lex|
    requires After(lex, i, Tokens(v)).Some?
    ensures var j := After(lex, i, Tokens(v)).value;
            MapFrom(lex, i, key, acc, MustValue, env) ==
            match Meaning(v, env)
            case Good(x) => MapFrom(lex, j, key, SetEntry(acc, key, x), MustComma, env)
            case Bad(e) => Bad(e)
            case Panic => Panic
    decreases v, 1, |lex| - i
  {
    hide ValueAt, ArrayFrom, Meaning, Tokens, SetEntry;
    if lex[i] == NewLine {
      MapValueStep(lex, i + 1, key, acc, v, env);
    } else {
      ValueRoundTrip(lex, i, v, env);
    }
  }

  lemma {:induction false} ArrayValueStep(lex: seq<Lexeme>, i: nat, acc: seq<Item>, v: Init, env: Env)
    requires i <= |lex|
    requires After(lex, i, Tokens(v)).Some?
    ensures var j := After(lex, i, Tokens(v)).value;
            ArrayFrom(lex, i, acc, MustValue, env) ==
            match Meaning(v, env)
            case Good(x) => ArrayFrom(lex, j, acc + [x], MustComma, env)
            case Bad(e) => Bad(e)
            case Panic => Panic
    decreases v, 1, |lex| - i
  {
    hide ValueAt, MapFrom, Meaning, Tokens;
    if lex[i] == NewLine {
      ArrayValueStep(lex, i + 1, acc, v, env);
    } else {
      ValueRoundTrip(lex, i, v, env);
    }
  }

  /** One token of punctuation, with the line breaks in front of it. */
  lemma {:induction false} MapTokenStep(lex: seq<Lexeme>, i: nat, key: string, acc: Entries, st: Expect, t: Lexeme, env: Env)
    requires i <= |lex|
    requires t == RCurly || (t == Comma && st == MustComma) || (t == Colon && st == MustColon)
             || (st == MustKey && (t.Ident? || t.Str?))
    requires After(lex, i, [t]).Some?
    ensures var j := After(lex, i, [t]).value;
            MapFrom(lex, i, key, acc, st, env) ==
            if t == RCurly then Good((acc, j - 1))
            else if t == Comma then MapFrom(lex, j, key, acc, MustKey, env)
            else if t == Colon then MapFrom(lex, j, key, acc, MustValue, env)
            else MapFrom(lex, j, if t.Ident? then t.name else t.s, acc, MustColon, env)
    decreases |lex| - i
  {
    hide ValueAt, ArrayFrom, SetEntry;
    if lex[i] == NewLine {
      MapTokenStep(lex, i + 1, key, acc, st, t, env);
    } else {
      assert [t][1..] == [];
    }
  }

  lemma {:induction false} ArrayTokenStep(lex: seq<Lexeme>, i: nat, acc: seq<Item>, st: Expect, t: Lexeme, env: Env)
    requires i <= |lex|
    requires t == RBrack || (t == Comma && st == MustComma)
    requires After(lex, i, [t]).Some?
    ensures var j := After(lex, i, [t]).value;
            ArrayFrom(lex, i, acc, st, env) ==
            if t == RBrack then Good((acc, j - 1)) else ArrayFrom(lex, j, acc, MustValue, env)
    decreases |lex| - i
  {
    hide ValueAt, MapFrom;
    if lex[i] == NewLine {
      ArrayTokenStep(lex, i + 1, acc, st, t, env);
    } else {
      assert [t][1..] == [];
    }
  }

  /** A key, its colon and its value. */
  lemma {:induction false} FieldStep(lex: seq<Lexeme>, i: nat, key: string, acc: Entries, k: MapKey, v: Init, t: seq<Lexeme>, env: Env)
    returns (i3: nat)
    requires i <= |lex|
    requires After(lex, i, [KeyToken(k)] + ([Colon] + (Tokens(v) + t))).Some?
    ensures i3 <= |lex|
    ensures After(lex, i, [KeyToken(k)] + ([Colon] + (Tokens(v) + t))) == After(lex, i3, t)
    ensures MapFrom(lex, i, key, acc, MustKey, env) ==
            match Meaning(v, env)
            case Good(x) => MapFrom(lex, i3, KeyName(k), SetEntry(acc, KeyName(k), x), MustComma, env)
            case Bad(e) => Bad(e)
            case Panic => Panic
    decreases v, 2
  {
    hide ValueAt, MapFrom, ArrayFrom, After, Tokens, SetEntry, Meaning;
    AfterConcat(lex, i, [KeyToken(k)], [Colon] + (Tokens(v) + t));
    MapTokenStep(lex, i, key, acc, MustKey, KeyToken(k), env);
    var i1 := After(lex, i, [KeyToken(k)]).value;
    AfterConcat(lex, i1, [Colon], Tokens(v) + t);
    MapTokenStep(lex, i1, KeyName(k), acc, MustColon, Colon, env);
    var i2 := After(lex, i1, [Colon]).value;
    AfterConcat(lex, i2, Tokens(v), t);
    MapValueStep(lex, i2, KeyName(k), acc, v, env);
    i3 := After(lex, i2, Tokens(v)).value;
  }

  lemma FieldTokensShape(fs: Fields)
    requires fs.Field?
    ensures FieldTokens(fs) + [RCurly] ==
      [KeyToken(fs.key)] + ([Colon] + (Tokens(fs.value) +
        (if fs.rest.NoField? then [RCurly] else [Comma] + (FieldTokens(fs.rest) + [RCurly]))))
  {
  }

  lemma {:induction false} MapRoundTrip(lex: seq<Lexeme>, i: nat, key: string, acc: Entries, fs: Fields, env: Env)
    requires i <= |lex|
    requires After(lex, i, FieldTokens(fs) + [RCurly]).Some?
    ensures var j := After(lex, i, FieldTokens(fs) + [RCurly]).value;
            MapFrom(lex, i, key, acc, MustKey, env) ==
            match FieldsMeaning(acc, fs, env) case Good(m) => Good((m, j - 1)) case Bad(e) => Bad(e) case Panic => Panic
    decreases fs, 0
  {
    hide ValueAt, MapFrom, ArrayFrom, After, Tokens, SetEntry, Lookup, Meaning;
    match fs
    case NoField =>
      assert FieldTokens(fs) + [RCurly] == [RCurly];
      MapTokenStep(lex, i, key, acc, MustKey, RCurly, env);
    case Field(k, v, rest) =>
      var t := if rest.NoField? then [RCurly] else [Comma] + (FieldTokens(rest) + [RCurly]);
      FieldTokensShape(fs);
      var i3 := FieldStep(lex, i, key, acc, k, v, t, env);
      if Meaning(v, env).Good? {
        FieldsTail(lex, i3, KeyName(k), SetEntry(acc, KeyName(k), Meaning(v, env).value), rest, env);
      }
  }

  /** What follows a field: the closing bracket, or a comma and more fields. */
  lemma {:induction false} FieldsTail(lex: seq<Lexeme>, i: nat, key: string, acc: Entries, rest: Fields, env: Env)
    requires i <= |lex|
    requires After(lex, i, if rest.NoField? then [RCurly] else [Comma] + (FieldTokens(rest) + [RCurly])).Some?
    ensures var j := After(lex, i, if rest.NoField? then [RCurly] else [Comma] + (FieldTokens(rest) + [RCurly])).value;
            MapFrom(lex, i, key, acc, MustComma, env) ==
            match FieldsMeaning(acc, rest, env) case Good(m) => Good((m, j - 1)) case Bad(e) => Bad(e) case Panic => Panic
    decreases rest, 1
  {
    hide ValueAt, MapFrom, ArrayFrom, After, Tokens, FieldTokens, ElemTokens, SetEntry, Meaning;
    if rest.NoField? {
      MapTokenStep(lex, i, key, acc, MustComma, RCurly, env);
    } else {
      AfterConcat(lex, i, [Comma], FieldTokens(rest) + [RCurly]);
      MapTokenStep(lex, i, key, acc, MustComma, Comma, env);
      MapRoundTrip(lex, After(lex, i, [Comma]).value, key, acc, rest, env);
    }
  }

  lemma {:induction false} ArrayRoundTrip(lex: seq<Lexeme>, i: nat, acc: seq<Item>, es: Elems, env: Env)
    requires i <= |lex|
    requires After(lex, i, ElemTokens(es) + [RBrack]).Some?
    ensures var j := After(lex, i, ElemTokens(es) + [RBrack]).value;
            ArrayFrom(lex, i, acc, MustValue, env) ==
            match ElemsMeaning(acc, es, env) case Good(a) => Good((a, j - 1)) case Bad(e) => Bad(e) case Panic => Panic
    decreases es, 0
  {
    hide ValueAt, MapFrom, ArrayFrom, After, Tokens, SetEntry, Lookup, Meaning;
    match es
    case NoElem =>
      assert ElemTokens(es) + [RBrack] == [RBrack];
      ArrayTokenStep(lex, i, acc, MustValue, RBrack, env);
    case Elem(v, rest) =>
      var t := if rest.NoElem? then [RBrack] else [Comma] + (ElemTokens(rest) + [RBrack]);
      assert ElemTokens(es) + [RBrack] == Tokens(v) + t;
      AfterConcat(lex, i, Tokens(v), t);
      ArrayValueStep(lex, i, acc, v, env);
      if Meaning(v, env).Good? {
        ElemsTail(lex, After(lex, i, Tokens(v)).value, acc + [Meaning(v, env).value], rest, env);
      }
  }

  lemma {:induction false} ElemsTail(lex: seq<Lexeme>, i: nat, acc: seq<Item>, rest: Elems, env: Env)
    requires i <= |lex|
    requires After(lex, i, if rest.NoElem? then [RBrack] else [Comma] + (ElemTokens(rest) + [RBrack])).Some?
    ensures var j := After(lex, i, if rest.NoElem? then [RBrack] else [Comma] + (ElemTokens(rest) + [RBrack])).value;
            ArrayFrom(lex, i, acc, MustComma, env) ==
            match ElemsMeaning(acc, rest, env) case Good(a) => Good((a, j - 1)) case Bad(e) => Bad(e) case Panic => Panic
    decreases rest, 1
  {
    hide ValueAt, MapFrom, ArrayFrom, After, Tokens, FieldTokens, ElemTokens, SetEntry, Meaning;
    if rest.NoElem? {
      ArrayTokenStep(lex, i, acc, MustComma, RBrack, env);
    } else {
      AfterConcat(lex, i, [Comma], ElemTokens(rest) + [RBrack]);
      ArrayTokenStep(lex, i, acc, MustComma, Comma, env);
      ArrayRoundTrip(lex, After(lex, i, [Comma]).value, acc, rest, env);
    }
  }
}

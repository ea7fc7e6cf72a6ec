/** Map and array initializers that are refused. */
module InitializerErrors {
  import opened Wrappers
  import opened Lexemes
  import opened Initializers

  /** What comes where a comma must stand: nothing more, a closing bracket, a comma, or an error. */
  predicate NoSeparator(lex: seq<Lexeme>, q: nat, close: Lexeme) {
    q < |lex| ==> lex[q] != NewLine && lex[q] != Comma && lex[q] != close
  }

  /** Values without a comma between them are refused, and so is a list that is not closed. */
  lemma {:induction false} ArrayRefused(lex: seq<Lexeme>, i: nat, acc: seq<Item>, es: Elems, env: Env)
    requires i <= |lex| && es.Elem? && After(lex, i, ElemTokens(es)).Some? && ElemsMeaning(acc, es, env).Good?
    requires NoSeparator(lex, After(lex, i, ElemTokens(es)).value, RBrack)
    ensures ArrayFrom(lex, i, acc, MustValue, env) ==
            Bad(if After(lex, i, ElemTokens(es)).value == |lex| then ErrUnclosedArray else ErrUnexpComma)
    decreases es
  {
    hide ValueAt, MapFrom, ArrayFrom, After, Tokens, Meaning, NoSeparator;
    var v, rest := es.value, es.rest;
    var t := if rest.NoElem? then [] else [Comma] + ElemTokens(rest);
    assert ElemTokens(es) == Tokens(v) + t;
    AfterConcat(lex, i, Tokens(v), t);
    ArrayValueStep(lex, i, acc, v, env);
    var j, a := After(lex, i, Tokens(v)).value, acc + [Meaning(v, env).value];
    if rest.NoElem? {
      AfterNothing(lex, j);
      ArrayStops(lex, j, a, env);
    } else {
      AfterConcat(lex, j, [Comma], ElemTokens(rest));
      ArrayTokenStep(lex, j, a, MustComma, Comma, env);
      ArrayRefused(lex, After(lex, j, [Comma]).value, a, rest, env);
    }
  }

  lemma AfterNothing(lex: seq<Lexeme>, j: nat)
    requires j <= |lex|
    ensures After(lex, j, []) == Some(j)
  {
  }

  lemma ArrayStops(lex: seq<Lexeme>, j: nat, a: seq<Item>, env: Env)
    requires j <= |lex| && NoSeparator(lex, j, RBrack)
    ensures ArrayFrom(lex, j, a, MustComma, env) == Bad(if j == |lex| then ErrUnclosedArray else ErrUnexpComma)
  {
  }

  /** The same for the fields of a map. */
  lemma {:induction false} MapRefused(lex: seq<Lexeme>, i: nat, key: string, acc: Entries, fs: Fields, env: Env)
    requires i <= |lex| && fs.Field? && After(lex, i, FieldTokens(fs)).Some? && FieldsMeaning(acc, fs, env).Good?
    requires NoSeparator(lex, After(lex, i, FieldTokens(fs)).value, RCurly)
    ensures MapFrom(lex, i, key, acc, MustKey, env) ==
            Bad(if After(lex, i, FieldTokens(fs)).value == |lex| then ErrUnclosedMap else ErrUnexpComma)
    decreases fs
  {
    hide ValueAt, MapFrom, ArrayFrom, After, Tokens, SetEntry, Meaning, NoSeparator;
    var k, v, rest := fs.key, fs.value, fs.rest;
    var t := if rest.NoField? then [] else [Comma] + FieldTokens(rest);
    assert FieldTokens(fs) == [KeyToken(k)] + ([Colon] + (Tokens(v) + t));
    var j := FieldStep(lex, i, key, acc, k, v, t, env);
    var a := SetEntry(acc, KeyName(k), Meaning(v, env).value);
    if rest.NoField? {
      AfterNothing(lex, j);
      MapStops(lex, j, KeyName(k), a, env);
    } else {
      AfterConcat(lex, j, [Comma], FieldTokens(rest));
      MapTokenStep(lex, j, KeyName(k), a, MustComma, Comma, env);
      MapRefused(lex, After(lex, j, [Comma]).value, KeyName(k), a, rest, env);
    }
  }

  lemma MapStops(lex: seq<Lexeme>, j: nat, key: string, a: Entries, env: Env)
    requires j <= |lex| && NoSeparator(lex, j, RCurly)
    ensures MapFrom(lex, j, key, a, MustComma, env) == Bad(if j == |lex| then ErrUnclosedMap else ErrUnexpComma)
  {
  }

  /** A lexeme that is no key where a key must stand, a key without a colon, and a lexeme
      that is no value. */
  lemma {:induction false} EntryRefused(lex: seq<Lexeme>, i: nat, key: string, acc: Entries, env: Env)
    requires i < |lex| && lex[i] != NewLine && lex[i] != RCurly
    ensures !lex[i].Ident? && !lex[i].Str? && !lex[i].Key? ==> MapFrom(lex, i, key, acc, MustKey, env) == Bad(ErrUnexpKey)
    ensures lex[i] != Colon ==> MapFrom(lex, i, key, acc, MustColon, env) == Bad(ErrUnexpColon)
    ensures lex[i] in {RBrack, RPar, LPar, Comma, Colon, Equals} ==> ValueAt(lex, i, env) == Bad(ErrUnexpValue)
  {
  }
}

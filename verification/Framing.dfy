/**
 The bodies of blocks (packages/block/serialization.go) and the reserve file of
 the chain, which can be read from both ends (packages/daemons/creating_blockchain.go).
 */
module Framing {
  import opened Wrappers
  import opened Hexadecimal
  import opened Codec
  import A = Address

  // ----- block bodies -----

  function Framed(txs: seq<Bytes>): Bytes
    requires forall k :: 0 <= k < |txs| ==> |txs[k]| < TWO63
  {
    if txs == [] then [] else EncodeSize(|txs[0]|) + txs[0] + Framed(txs[1..])
  }

  /** A length code takes at least one byte. */
  lemma SizeShorter(data: Bytes)
    requires data != [] && DecodeSizeBuf(data).Some?
    ensures |DecodeSizeBuf(data).value.1| < |data| && DecodeSizeBuf(data).value.0 >= 0
  {
  }

  /** The loop of UnmarshallBlock; None is an error. */
  function ReadBody(data: Bytes): Option<seq<Bytes>>
    decreases |data|
  {
    if data == [] then Some([])
    else
      match DecodeSizeBuf(data)
      case None => None
      case Some((n, rest)) =>
        SizeShorter(data);
        if |rest| < n || n == 0 then None
        else
          match ReadBody(rest[n..])
          case None => None
          case Some(txs) => Some([rest[..n]] + txs)
  }

  predicate NoneEmpty(txs: seq<Bytes>) {
    forall k :: 0 <= k < |txs| ==> txs[k] != []
  }

  /** The list of transactions comes back exactly when none of them is empty. */
  lemma {:induction false} BodyRoundTrip(txs: seq<Bytes>)
    requires forall k :: 0 <= k < |txs| ==> |txs[k]| < TWO63
    ensures ReadBody(Framed(txs)) == if NoneEmpty(txs) then Some(txs) else None
    decreases |txs|
  {
    hide EncodeSize, DecodeSizeBuf, NoneEmpty;
    if txs == [] {
      EmptyList();
    } else {
      var t, more := txs[0], txs[1..];
      SizeRoundTrip(|t|, t + Framed(more));
      assert Framed(txs) == EncodeSize(|t|) + (t + Framed(more));
      assert (t + Framed(more))[..|t|] == t && (t + Framed(more))[|t|..] == Framed(more);
      BodyRoundTrip(more);
      NoneEmptyRest(txs);
      assert txs == [t] + more;
    }
  }

  lemma EmptyList()
    ensures NoneEmpty([])
  {
  }

  lemma NoneEmptyRest(txs: seq<Bytes>)
    requires txs != []
    ensures NoneEmpty(txs) <==> txs[0] != [] && NoneEmpty(txs[1..])
  {
    if NoneEmpty(txs[1..]) {
      assert forall k :: 0 < k < |txs| ==> txs[k] == txs[1..][k - 1];
    }
  }

  // ----- what is signed -----

  function Leaves(leaf: Bytes -> Bytes, txs: seq<Bytes>): seq<Bytes> {
    if txs == [] then [] else [leaf(txs[0])] + Leaves(leaf, txs[1..])
  }

  /** UnmarshallBlock makes leaves of transactions with data only. */
  function ReadLeaves(leaf: Bytes -> Bytes, txs: seq<Bytes>): seq<Bytes> {
    if txs == [] then [] else (if txs[0] != [] then [leaf(txs[0])] else []) + ReadLeaves(leaf, txs[1..])
  }

  function Root(merkle: seq<Bytes> -> Bytes, leaves: seq<Bytes>): Bytes {
    merkle(if leaves == [] then [[48]] else leaves)
  }

  /** The header fields that are signed. */
  datatype Head = Head(id: Int64, time: Int64, ecosystem: Int64, key: Int64, position: Int64)

  function Chars(bs: Bytes): (s: string)
    ensures |s| == |bs|
  {
    seq(|bs|, k requires 0 <= k < |bs| => bs[k] as char)
  }

  /** The text under the signature. */
  function SignedText(h: Head, prev: Bytes, root: Bytes): string {
    "0," + (A.FormatInt(h.id) + ("," + (Hex(prev) + ("," + (A.FormatInt(h.time) + ("," + (A.FormatInt(h.ecosystem) +
    ("," + (A.FormatInt(h.key) + ("," + (A.FormatInt(h.position) + ("," + Chars(root)))))))))))))
  }

  /** What MarshallBlock signs. */
  function ToSign(leaf: Bytes -> Bytes, merkle: seq<Bytes> -> Bytes, h: Head, prev: Bytes, txs: seq<Bytes>): string {
    SignedText(h, prev, Root(merkle, Leaves(leaf, txs)))
  }

  /** What the verifier checks the signature against after it has read the body; None when the body cannot be read. */
  function ToVerify(leaf: Bytes -> Bytes, merkle: seq<Bytes> -> Bytes, h: Head, prev: Bytes, body: Bytes): Option<string> {
    match ReadBody(body)
    case None => None
    case Some(txs) => Some(SignedText(h, prev, Root(merkle, ReadLeaves(leaf, txs))))
  }

  /** The verifier of a framed body checks exactly the text that was signed, for
      every list without an empty transaction, the empty list included; with an
      empty transaction it reads nothing. */
  lemma {:induction false} VerifierSeesSignedText(leaf: Bytes -> Bytes, merkle: seq<Bytes> -> Bytes, h: Head, prev: Bytes, txs: seq<Bytes>)
    requires forall k :: 0 <= k < |txs| ==> |txs[k]| < TWO63
    ensures ToVerify(leaf, merkle, h, prev, Framed(txs)) ==
            if NoneEmpty(txs) then Some(ToSign(leaf, merkle, h, prev, txs)) else None
  {
    hide SignedText;
    BodyRoundTrip(txs);
    if NoneEmpty(txs) { SameLeaves(leaf, txs); }
  }

  // ----- the text determines what was signed -----

  predicate NoComma(s: string) {
    forall k :: 0 <= k < |s| ==> s[k] != ','
  }

  lemma {:induction false} FirstField(a: string, x: string, b: string, y: string)
    requires NoComma(a) && NoComma(b) && a + ("," + x) == b + ("," + y)
    ensures a == b && x == y
  {
    var s, t := a + ("," + x), b + ("," + y);
    assert s[|a|] == ',' && t[|b|] == ',';
    assert forall k :: 0 <= k < |a| ==> s[k] == a[k];
    assert forall k :: 0 <= k < |b| ==> t[k] == b[k];
    assert |a| == |b|;
    assert a == s[..|a|] && b == t[..|b|];
    assert x == s[|a| + 1..] && y == t[|b| + 1..];
  }

  lemma {:induction false} NumberField(x: Int64, y: Int64)
    ensures NoComma(A.FormatInt(x)) && (A.FormatInt(x) == A.FormatInt(y) ==> x == y)
  {
    hide A.Decimal, A.Number;
    var m, n := if x < 0 then 0 - x else x, if y < 0 then 0 - y else y;
    A.DecimalNumber(m);
    A.DecimalNumber(n);
    var d, e := A.Decimal(m), A.Decimal(n);
    assert "-" + d == ['-'] + d && (['-'] + d)[1..] == d;
    assert "-" + e == ['-'] + e && (['-'] + e)[1..] == e;
    if A.FormatInt(x) == A.FormatInt(y) {
      assert d[0] != '-' && e[0] != '-';
      assert A.FormatInt(x)[0] == '-' <==> x < 0;
      assert A.FormatInt(y)[0] == '-' <==> y < 0;
    }
  }

  lemma {:induction false} HexSize(a: Bytes)
    ensures NoComma(Hex(a)) && |Hex(a)| == 2 * |a|
    decreases |a|
  {
    if a != [] {
      HexSize(a[1..]);
      HexDigits(a[0]);
    }
  }

  lemma {:induction false} HexField(a: Bytes, b: Bytes)
    ensures NoComma(Hex(a)) && (Hex(a) == Hex(b) ==> a == b)
    decreases |a|
  {
    hide HexDigit;
    HexSize(a);
    HexSize(b);
    if a != [] && b != [] && Hex(a) == Hex(b) {
      HexFirst(a, b);
      HexField(a[1..], b[1..]);
      assert a == [a[0]] + a[1..] && b == [b[0]] + b[1..];
    }
  }

  lemma {:induction false} HexFirst(a: Bytes, b: Bytes)
    requires a != [] && b != [] && Hex(a) == Hex(b)
    ensures a[0] == b[0] && Hex(a[1..]) == Hex(b[1..])
  {
    hide HexDigit;
    assert Hex(a)[2..] == Hex(a[1..]) && Hex(b)[2..] == Hex(b[1..]);
    assert Hex(a)[0] == Hex(b)[0] && Hex(a)[1] == Hex(b)[1];
    HexDigits(a[0]);
  }

  lemma HexDigits(x: Byte)
    ensures HexDigit(x / 16) != ',' && HexDigit(x % 16) != ','
    ensures forall y: Byte :: HexDigit(x / 16) == HexDigit(y / 16) && HexDigit(x % 16) == HexDigit(y % 16) ==> x == y
  {
    forall i: nat, j: nat | i < 16 && j < 16 && HexDigit(i) == HexDigit(j) ensures i == j { }
  }

  /** One text, one header, one previous hash and one root: a signature cannot be
      moved to another block. */
  lemma {:induction false} SignedTextIsInjective(h: Head, prev: Bytes, root: Bytes, h': Head, prev': Bytes, root': Bytes)
    requires SignedText(h, prev, root) == SignedText(h', prev', root')
    ensures h == h' && prev == prev' && root == root'
  {
    hide A.FormatInt, Hex, Chars;
    NumberField(h.id, h'.id); NumberField(h'.id, h.id);
    HexField(prev, prev'); HexField(prev', prev);
    NumberField(h.time, h'.time); NumberField(h'.time, h.time);
    NumberField(h.ecosystem, h'.ecosystem); NumberField(h'.ecosystem, h.ecosystem);
    NumberField(h.key, h'.key); NumberField(h'.key, h.key);
    NumberField(h.position, h'.position); NumberField(h'.position, h.position);
    var p, p' := Chars(root), Chars(root');
    var k, k' := A.FormatInt(h.position) + ("," + p), A.FormatInt(h'.position) + ("," + p');
    var e, e' := A.FormatInt(h.key) + ("," + k), A.FormatInt(h'.key) + ("," + k');
    var t, t' := A.FormatInt(h.ecosystem) + ("," + e), A.FormatInt(h'.ecosystem) + ("," + e');
    var v, v' := A.FormatInt(h.time) + ("," + t), A.FormatInt(h'.time) + ("," + t');
    var i, i' := Hex(prev) + ("," + v), Hex(prev') + ("," + v');
    var s, s' := A.FormatInt(h.id) + ("," + i), A.FormatInt(h'.id) + ("," + i');
    assert ("0," + s)[2..] == s && ("0," + s')[2..] == s';
    FirstField(A.FormatInt(h.id), i, A.FormatInt(h'.id), i');
    FirstField(Hex(prev), v, Hex(prev'), v');
    FirstField(A.FormatInt(h.time), t, A.FormatInt(h'.time), t');
    FirstField(A.FormatInt(h.ecosystem), e, A.FormatInt(h'.ecosystem), e');
    FirstField(A.FormatInt(h.key), k, A.FormatInt(h'.key), k');
    FirstField(A.FormatInt(h.position), p, A.FormatInt(h'.position), p');
    SameChars(root, root');
  }

  /** What stands in front of the first comma, and what stands behind it. */
  function Cut(s: string): (string, string) {
    if s == "" then ("", "")
    else if s[0] == ',' then ("", s[1..])
    else
      var (a, rest) := Cut(s[1..]);
      ([s[0]] + a, rest)
  }

  /** The first `n` fields of a text, and the rest. */
  function Cuts(s: string, n: nat): (seq<string>, string)
    decreases n
  {
    if n == 0 then ([], s)
    else
      var (a, rest) := Cut(s);
      var (fs, last) := Cuts(rest, n - 1);
      ([a] + fs, last)
  }

  lemma {:induction false} CutField(a: string, x: string)
    requires NoComma(a)
    ensures Cut(a + ("," + x)) == (a, x)
    decreases |a|
  {
    if a == "" {
      assert a + ("," + x) == "," + x && ("," + x)[1..] == x;
    } else {
      var s := a + ("," + x);
      assert s[1..] == a[1..] + ("," + x);
      CutField(a[1..], x);
      assert [a[0]] + a[1..] == a;
    }
  }

  lemma {:induction false} CutNext(a: string, x: string, n: nat)
    requires NoComma(a) && n > 0
    ensures Cuts(a + ("," + x), n) == ([a] + Cuts(x, n - 1).0, Cuts(x, n - 1).1)
  {
    CutField(a, x);
  }

  /** Cut at the commas, the signed text has the type of the block, its number, the hash of
      its predecessor, its time, its ecosystem, its key and its position, and the root. */
  lemma {:induction false} SignedFields(h: Head, prev: Bytes, root: Bytes)
    ensures Cuts(SignedText(h, prev, root), 7) ==
            (["0", A.FormatInt(h.id), Hex(prev), A.FormatInt(h.time), A.FormatInt(h.ecosystem), A.FormatInt(h.key), A.FormatInt(h.position)],
             Chars(root))
  {
    hide A.FormatInt, Hex, Chars, Cuts;
    NumberField(h.id, h.id);
    HexField(prev, prev);
    NumberField(h.time, h.time);
    NumberField(h.ecosystem, h.ecosystem);
    NumberField(h.key, h.key);
    NumberField(h.position, h.position);
    var p := Chars(root);
    var k := A.FormatInt(h.position) + ("," + p);
    var e := A.FormatInt(h.key) + ("," + k);
    var t := A.FormatInt(h.ecosystem) + ("," + e);
    var v := A.FormatInt(h.time) + ("," + t);
    var i := Hex(prev) + ("," + v);
    var s := A.FormatInt(h.id) + ("," + i);
    assert SignedText(h, prev, root) == "0" + ("," + s);
    NoCuts(p);
    CutNext(A.FormatInt(h.position), p, 1);
    CutNext(A.FormatInt(h.key), k, 2);
    CutNext(A.FormatInt(h.ecosystem), e, 3);
    CutNext(A.FormatInt(h.time), t, 4);
    CutNext(Hex(prev), v, 5);
    CutNext(A.FormatInt(h.id), i, 6);
    CutNext("0", s, 7);
    var six := [A.FormatInt(h.id)] + ([Hex(prev)] + ([A.FormatInt(h.time)] + ([A.FormatInt(h.ecosystem)] +
               ([A.FormatInt(h.key)] + ([A.FormatInt(h.position)] + [])))));
    assert Cuts(s, 6) == (six, p);
    assert ["0"] + six == ["0", A.FormatInt(h.id), Hex(prev), A.FormatInt(h.time), A.FormatInt(h.ecosystem), A.FormatInt(h.key), A.FormatInt(h.position)];
  }

  lemma NoCuts(p: string)
    ensures Cuts(p, 0) == ([], p)
  {
  }

  lemma SameChars(a: Bytes, b: Bytes)
    requires Chars(a) == Chars(b)
    ensures a == b
  {
    assert |a| == |b|;
    forall k | 0 <= k < |a| ensures a[k] == b[k] { assert Chars(a)[k] == Chars(b)[k]; }
  }

  lemma {:induction false} SameLeaves(leaf: Bytes -> Bytes, txs: seq<Bytes>)
    requires forall k :: 0 <= k < |txs| ==> txs[k] != []
    ensures ReadLeaves(leaf, txs) == Leaves(leaf, txs)
    decreases |txs|
  {
    if txs != [] { SameLeaves(leaf, txs[1..]); }
  }

  /** The loop of MarshallBlock. */
  method FrameBody(leaf: Bytes -> Bytes, txs: seq<Bytes>) returns (body: Bytes, leaves: seq<Bytes>)
    requires forall k :: 0 <= k < |txs| ==> |txs[k]| < TWO63
    ensures body == Framed(txs) && leaves == Leaves(leaf, txs)
  {
    hide EncodeSize, Framed, Leaves;
    body, leaves := [], [];
    assert txs[0..] == txs;
    for i := 0 to |txs|
      invariant body + Framed(txs[i..]) == Framed(txs) && leaves + Leaves(leaf, txs[i..]) == Leaves(leaf, txs)
    {
      FramedStep(leaf, txs, i);
      ghost var b, l := body, leaves;
      var size := EncodeLength(|txs[i]|);
      body := body + (size + txs[i]);
      leaves := leaves + [leaf(txs[i])];
      assert b + (EncodeSize(|txs[i]|) + txs[i] + Framed(txs[i + 1..])) == body + Framed(txs[i + 1..]);
      assert l + ([leaf(txs[i])] + Leaves(leaf, txs[i + 1..])) == leaves + Leaves(leaf, txs[i + 1..]);
    }
    FramedEnd(leaf, txs[|txs|..]);
    assert body + [] == body && leaves + [] == leaves;
  }

  lemma FramedStep(leaf: Bytes -> Bytes, txs: seq<Bytes>, i: nat)
    requires i < |txs| && forall k :: 0 <= k < |txs| ==> |txs[k]| < TWO63
    ensures Framed(txs[i..]) == EncodeSize(|txs[i]|) + txs[i] + Framed(txs[i + 1..])
    ensures Leaves(leaf, txs[i..]) == [leaf(txs[i])] + Leaves(leaf, txs[i + 1..])
  {
    hide EncodeSize;
    assert txs[i..][0] == txs[i] && txs[i..][1..] == txs[i + 1..];
  }

  lemma FramedEnd(leaf: Bytes -> Bytes, txs: seq<Bytes>)
    requires txs == []
    ensures Framed(txs) == [] && Leaves(leaf, txs) == []
  {
  }

  /** The loop of UnmarshallBlock. */
  method UnframeBody(data: Bytes) returns (r: Option<seq<Bytes>>)
    ensures r == ReadBody(data)
  {
    hide DecodeSizeBuf;
    var buf, txs := data, [];
    ghost var all := ReadBody(data);
    if all.Some? { assert [] + all.value == all.value; }
    while buf != []
      invariant ReadBody(data) == match ReadBody(buf) case None => None case Some(more) => Some(txs + more)
      decreases |buf|
    {
      var size := DecodeSizeBuf(buf);
      if size.None? { return None; }
      SizeShorter(buf);
      var (n, rest) := size.value;
      if |rest| < n || n == 0 { return None; }
      ghost var before := txs;
      txs := txs + [rest[..n]];
      buf := rest[n..];
      ghost var more := ReadBody(buf);
      if more.Some? { assert before + ([rest[..n]] + more.value) == txs + more.value; }
    }
    assert txs + [] == txs;
    return Some(txs);
  }

  // ----- the reserve file -----

  const WORD: nat := 5

  /** What follows the first word of a record: the number and the data of the block. */
  function Payload(id: nat, data: Bytes): Bytes
    requires |data| < TWO63
  {
    ToBE(id, WORD) + (EncodeSize(|data|) + data)
  }

  function Headed(id: nat, data: Bytes): Bytes
    requires |data| < TWO63
  {
    ToBE(|Payload(id, data)|, WORD) + Payload(id, data)
  }

  /** A record carries its length at both ends. */
  function Record(id: nat, data: Bytes): Bytes
    requires |data| < TWO63
  {
    Headed(id, data) + ToBE(|Headed(id, data)|, WORD)
  }

  /** The record is within the size limit and the words can hold its numbers. */
  predicate Fits(id: nat, data: Bytes, max: nat) {
    |data| < TWO63 && id < Pow(WORD) && |Headed(id, data)| <= max && max < Pow(WORD)
  }

  datatype Reading = Block(id: nat, data: Bytes) | Nothing | Error

  /** unmarshalBlockData; a negative length makes the program panic, which is an error here. */
  function Parse(buf: Bytes): Reading
    requires |buf| >= WORD
  {
    match DecodeSize(buf[WORD..])
    case None => Error
    case Some((n, rest)) => if n > |rest| || n < 0 then Error else Block(FromBE(buf[..WORD]), rest[..n])
  }

  /** readBlock at position `pos`; a short read leaves zeros in the buffer. */
  function ReadRecord(file: Bytes, pos: nat, max: nat): Reading {
    if pos + WORD > |file| then Error
    else
      var size := FromBE(file[pos..pos + WORD]);
      var left := file[pos + WORD..];
      if size > max then Error
      else if size == 0 then Nothing
      else if left == [] then Error
      else Parse(if |left| >= size + WORD then left[..size + WORD] else left + Zeros(size + WORD - |left|))
  }

  /** getLastBlockID: the last word says where the last record starts. */
  function LastId(file: Bytes, max: nat): Option<nat> {
    if |file| < WORD then None
    else
      var size := FromBE(file[|file| - WORD..]);
      if size > max || size + WORD > |file| then None
      else
        match ReadRecord(file, |file| - (size + WORD), max)
        case Block(id, _) => Some(id)
        case _ => None
  }

  lemma {:induction false} ParsePayload(id: nat, data: Bytes, tail: Bytes)
    requires |data| < TWO63 && id < Pow(WORD)
    ensures Parse(Payload(id, data) + tail) == Block(id, data)
  {
    hide EncodeSize, DecodeSize, ToBE, FromBE, Pow;
    var buf := Payload(id, data) + tail;
    assert buf[..WORD] == ToBE(id, WORD);
    assert buf[WORD..] == EncodeSize(|data|) + (data + tail);
    SizeRoundTrip(|data|, data + tail);
    assert (data + tail)[..|data|] == data;
    BERoundTrip(id, WORD);
  }

  /** A record is read back wherever it stands in the file. */
  lemma {:induction false} RecordReads(before: Bytes, id: nat, data: Bytes, after: Bytes, max: nat)
    requires Fits(id, data, max)
    ensures ReadRecord(before + Record(id, data) + after, |before|, max) == Block(id, data)
  {
    hide Payload, ToBE, FromBE, Pow, Parse, EncodeSize;
    var file, p, d := before + Record(id, data) + after, |before|, Payload(id, data);
    PayloadSize(id, data);
    assert file[p..p + WORD] == ToBE(|d|, WORD);
    BERoundTrip(|d|, WORD);
    var left := file[p + WORD..];
    assert left[..|d| + WORD] == d + ToBE(|Headed(id, data)|, WORD);
    ParsePayload(id, data, ToBE(|Headed(id, data)|, WORD));
  }

  lemma PayloadSize(id: nat, data: Bytes)
    requires |data| < TWO63
    ensures |Payload(id, data)| > 0
  {
  }

  /** The last record is found from the end of the file. */
  lemma {:induction false} LastReads(before: Bytes, id: nat, data: Bytes, max: nat)
    requires Fits(id, data, max)
    ensures LastId(before + Record(id, data), max) == Some(id)
  {
    hide Payload, ToBE, FromBE, Pow, Parse, EncodeSize, ReadRecord;
    var file, h := before + Record(id, data), Headed(id, data);
    assert file[|file| - WORD..] == ToBE(|h|, WORD);
    BERoundTrip(|h|, WORD);
    assert before + Record(id, data) + [] == file;
    RecordReads(before, id, data, [], max);
  }

  // ----- runs of writeNextBlocks -----

  /** The data of block `k` is `chain[k - 1]`. */
  predicate AllFit(chain: seq<Bytes>, max: nat) {
    forall k :: 0 <= k < |chain| ==> Fits(k + 1, chain[k], max)
  }

  /** The records of the blocks behind `a` up to `b`. */
  function Range(chain: seq<Bytes>, max: nat, a: nat, b: nat): Bytes
    requires a <= b <= |chain| && AllFit(chain, max)
    decreases b - a
  {
    if a == b then [] else Range(chain, max, a, b - 1) + Record(b, chain[b - 1])
  }

  /** The file that holds the blocks 1 to `k`; without a block there is no file. */
  function FileOf(chain: seq<Bytes>, max: nat, k: nat): Option<Bytes>
    requires k <= |chain| && AllFit(chain, max)
  {
    if k == 0 then None else Some(Range(chain, max, 0, k))
  }

  function LastSaved(file: Option<Bytes>, max: nat): Option<nat> {
    match file case None => Some(0) case Some(bytes) => if bytes == [] then None else LastId(bytes, max)
  }

  function Content(file: Option<Bytes>): Bytes {
    match file case None => [] case Some(bytes) => bytes
  }

  /** writeNextBlocks; None is an error. */
  function WriteNext(file: Option<Bytes>, chain: seq<Bytes>, minToSave: nat, max: nat): Option<Option<Bytes>>
    requires AllFit(chain, max)
  {
    match LastSaved(file, max)
    case None => None
    case Some(last) =>
      if |chain| - minToSave < last then Some(file)
      else Some(Some(Content(file) + Range(chain, max, last, last + minToSave)))
  }

  lemma RangeStep(chain: seq<Bytes>, max: nat, a: nat, b: nat)
    requires a <= b < |chain| && AllFit(chain, max)
    ensures Fits(b + 1, chain[b], max) && |chain[b]| < TWO63
    ensures Range(chain, max, a, b + 1) == Range(chain, max, a, b) + Record(b + 1, chain[b])
  {
    hide Record;
  }

  lemma {:induction false} RangeJoins(chain: seq<Bytes>, max: nat, a: nat, b: nat, c: nat)
    requires a <= b <= c <= |chain| && AllFit(chain, max)
    ensures Range(chain, max, a, b) + Range(chain, max, b, c) == Range(chain, max, a, c)
    decreases c - b
  {
    hide Record, AllFit, Range;
    if b < c {
      RangeJoins(chain, max, a, b, c - 1);
      RangeStep(chain, max, a, c - 1);
      RangeStep(chain, max, b, c - 1);
      var r := Record(c - 1 + 1, chain[c - 1]);
      assert Range(chain, max, a, b) + (Range(chain, max, b, c - 1) + r) == Range(chain, max, a, b) + Range(chain, max, b, c - 1) + r;
    } else {
      EmptyRange(chain, max, b);
      assert Range(chain, max, a, b) + [] == Range(chain, max, a, b);
    }
  }

  lemma EmptyRange(chain: seq<Bytes>, max: nat, a: nat)
    requires a <= |chain| && AllFit(chain, max)
    ensures Range(chain, max, a, a) == []
  {
  }

  lemma {:induction false} LastOfFile(chain: seq<Bytes>, max: nat, k: nat)
    requires k <= |chain| && AllFit(chain, max)
    ensures LastSaved(FileOf(chain, max, k), max) == Some(k)
  {
    hide Record, LastId;
    if k > 0 {
      assert Fits(k - 1 + 1, chain[k - 1], max);
      RecordSize(k, chain[k - 1]);
      LastReads(Range(chain, max, 0, k - 1), k, chain[k - 1], max);
    }
  }

  lemma RecordSize(id: nat, data: Bytes)
    requires |data| < TWO63
    ensures |Record(id, data)| > 0
  {
  }

  function NextSaved(k: nat, tip: nat, minToSave: nat): nat {
    if tip - minToSave < k then k else k + minToSave
  }

  /** One run: whole batches of blocks are appended, in order and without a gap. */
  lemma {:induction false} WriteExtends(chain: seq<Bytes>, max: nat, k: nat, minToSave: nat)
    requires k <= |chain| && AllFit(chain, max) && minToSave > 0
    ensures NextSaved(k, |chain|, minToSave) <= |chain|
    ensures WriteNext(FileOf(chain, max, k), chain, minToSave, max) == Some(FileOf(chain, max, NextSaved(k, |chain|, minToSave)))
  {
    hide LastSaved, Range;
    LastOfFile(chain, max, k);
    if |chain| - minToSave >= k {
      RangeJoins(chain, max, 0, k, k + minToSave);
      if k == 0 { assert [] + Range(chain, max, 0, minToSave) == Range(chain, max, 0, minToSave); }
    }
  }

  lemma {:induction false} RangeGrows(chain: seq<Bytes>, chain': seq<Bytes>, max: nat, a: nat, b: nat)
    requires a <= b <= |chain| && chain <= chain' && AllFit(chain, max) && AllFit(chain', max)
    ensures Range(chain, max, a, b) == Range(chain', max, a, b)
    decreases b - a
  {
    hide Record;
    if a < b { RangeGrows(chain, chain', max, a, b - 1); }
  }

  /** A run sees the chain as it is at that time. */
  datatype Visit = Visit(chain: seq<Bytes>, minToSave: nat)

  predicate Growing(chain: seq<Bytes>, vs: seq<Visit>, max: nat)
    decreases |vs|
  {
    vs == [] || (chain <= vs[0].chain && AllFit(vs[0].chain, max) && vs[0].minToSave > 0 && Growing(vs[0].chain, vs[1..], max))
  }

  function WriteAll(file: Option<Bytes>, vs: seq<Visit>, max: nat): Option<Option<Bytes>>
    requires forall k :: 0 <= k < |vs| ==> AllFit(vs[k].chain, max)
    decreases |vs|
  {
    if vs == [] then Some(file)
    else
      match WriteNext(file, vs[0].chain, vs[0].minToSave, max)
      case None => None
      case Some(f) => WriteAll(f, vs[1..], max)
  }

  /** After any number of runs over a growing chain the file holds exactly the
      blocks 1 to some `k`, and no run failed. */
  lemma {:induction false} RunsKeepFile(chain: seq<Bytes>, k: nat, vs: seq<Visit>, max: nat) returns (k': nat)
    requires k <= |chain| && AllFit(chain, max) && Growing(chain, vs, max)
    requires forall i :: 0 <= i < |vs| ==> AllFit(vs[i].chain, max)
    ensures var last := if vs == [] then chain else vs[|vs| - 1].chain;
            AllFit(last, max) && k <= k' <= |last| && WriteAll(FileOf(chain, max, k), vs, max) == Some(FileOf(last, max, k'))
    decreases |vs|
  {
    hide WriteNext, FileOf, AllFit;
    k' := k;
    if vs != [] {
      var v := vs[0];
      SameFile(chain, v.chain, max, k);
      WriteExtends(v.chain, max, k, v.minToSave);
      k' := RunsKeepFile(v.chain, NextSaved(k, |v.chain|, v.minToSave), vs[1..], max);
    }
  }

  lemma {:induction false} SameFile(chain: seq<Bytes>, chain': seq<Bytes>, max: nat, k: nat)
    requires k <= |chain| && chain <= chain' && AllFit(chain, max) && AllFit(chain', max)
    ensures FileOf(chain, max, k) == FileOf(chain', max, k)
  {
    hide Range, AllFit;
    RangeGrows(chain, chain', max, 0, k);
  }

  /** Reading from the front: block `j` is found where the blocks before it end. */
  lemma {:induction false} FileReads(chain: seq<Bytes>, max: nat, k: nat, j: nat)
    requires 0 < j <= k <= |chain| && AllFit(chain, max)
    ensures ReadRecord(Range(chain, max, 0, k), |Range(chain, max, 0, j - 1)|, max) == Block(j, chain[j - 1])
  {
    hide Record, ReadRecord, Range;
    var a, c := Range(chain, max, 0, j - 1), Range(chain, max, j, k);
    RangeJoins(chain, max, 0, j, k);
    RangeLast(chain, max, j);
    assert Fits(j - 1 + 1, chain[j - 1], max);
    RecordReads(a, j, chain[j - 1], c, max);
  }

  lemma RangeLast(chain: seq<Bytes>, max: nat, j: nat)
    requires 0 < j <= |chain| && AllFit(chain, max)
    ensures Fits(j, chain[j - 1], max) && Range(chain, max, 0, j) == Range(chain, max, 0, j - 1) + Record(j, chain[j - 1])
  {
    assert Fits(j - 1 + 1, chain[j - 1], max);
  }

  class ReserveFile {
    var content: Option<Bytes>

    constructor ()
      ensures content == None
    {
      content := None;
    }

    /** writeNextBlocks: the records are written one after the other. */
    method WriteNextBlocks(chain: seq<Bytes>, minToSave: nat, max: nat) returns (ok: bool)
      requires AllFit(chain, max)
      modifies this
      ensures ok == WriteNext(old(content), chain, minToSave, max).Some?
      ensures content == if ok then WriteNext(old(content), chain, minToSave, max).value else old(content)
    {
      hide Record, AllFit, Range, LastSaved, Fits, Pow;
      ghost var start := Content(content);
      var last := LastSaved(content, max);
      if last.None? { return false; }
      var from := last.value;
      if |chain| - minToSave < from { return true; }
      if content.None? { content := Some([]); }
      EmptyRange(chain, max, from);
      assert start + [] == start;
      for b := from to from + minToSave
        invariant content == Some(start + Range(chain, max, from, b))
      {
        RangeStep(chain, max, from, b);
        ghost var before, record := Range(chain, max, from, b), Record(b + 1, chain[b]);
        content := Some(content.value + Record(b + 1, chain[b]));
        assert start + before + record == start + (before + record);
      }
      return true;
    }
  }
}

/**
 Binary codes (packages/converter/converter.go): length codes, 64-bit integers
 with a length byte, and the struct marshaller with its two decoders.
 */
module Codec {
  import opened Wrappers

  type Byte = x: int | 0 <= x < 256

  type Bytes = seq<Byte>

  const TWO64: int := 0x1_0000_0000_0000_0000
  const TWO63: int := 0x8000_0000_0000_0000

  type Int64 = x: int | -TWO63 <= x < TWO63

  function ToUint(x: Int64): (u: nat)
    ensures u < TWO64
  {
    if x < 0 then x + TWO64 else x
  }

  function ToInt(u: nat): (x: Int64)
    requires u < TWO64
    ensures ToUint(x) == u
  {
    if u < TWO63 then u else u - TWO64
  }

  function Pow(n: nat): (p: nat)
    ensures p > 0
  {
    if n == 0 then 1 else 256 * Pow(n - 1)
  }

  // ----- fixed width -----

  /** The value of little-endian bytes. */
  function FromLE(bs: Bytes): (r: nat)
    ensures r < Pow(|bs|)
  {
    if bs == [] then 0 else bs[0] + 256 * FromLE(bs[1..])
  }

  function ToLE(x: nat, n: nat): (r: Bytes)
    ensures |r| == n
  {
    if n == 0 then [] else [x % 256] + ToLE(x / 256, n - 1)
  }

  lemma {:induction false} LERoundTrip(x: nat, n: nat)
    requires x < Pow(n)
    ensures FromLE(ToLE(x, n)) == x
    decreases n
  {
    if n > 0 {
      LERoundTrip(x / 256, n - 1);
      assert ToLE(x, n)[1..] == ToLE(x / 256, n - 1);
    }
  }

  function Reverse(bs: Bytes): (r: Bytes)
    ensures |r| == |bs|
  {
    if bs == [] then [] else Reverse(bs[1..]) + [bs[0]]
  }

  lemma {:induction false} ReverseLast(bs: Bytes, b: Byte)
    ensures Reverse(bs + [b]) == [b] + Reverse(bs)
    decreases |bs|
  {
    if bs != [] {
      assert (bs + [b])[1..] == bs[1..] + [b];
      ReverseLast(bs[1..], b);
    }
  }

  lemma {:induction false} ReverseTwice(bs: Bytes)
    ensures Reverse(Reverse(bs)) == bs
    decreases |bs|
  {
    if bs != [] {
      ReverseTwice(bs[1..]);
      ReverseLast(Reverse(bs[1..]), bs[0]);
    }
  }

  /** Big-endian bytes are little-endian bytes read backwards. */
  function FromBE(bs: Bytes): (r: nat)
    ensures r < Pow(|bs|)
  {
    FromLE(Reverse(bs))
  }

  function ToBE(x: nat, n: nat): (r: Bytes)
    ensures |r| == n
  {
    Reverse(ToLE(x, n))
  }

  lemma {:induction false} BERoundTrip(x: nat, n: nat)
    requires x < Pow(n)
    ensures FromBE(ToBE(x, n)) == x
  {
    ReverseTwice(ToLE(x, n));
    LERoundTrip(x, n);
  }

  lemma Widths()
    ensures Pow(1) == 0x100 && Pow(4) == 0x1_0000_0000 && Pow(5) == 0x100_0000_0000 && Pow(8) == TWO64
  {
    assert Pow(2) == 0x1_0000 && Pow(3) == 0x100_0000;
    assert Pow(6) == 0x1_0000_0000_0000 && Pow(7) == 0x100_0000_0000_0000;
  }

  /** The loop of BinToDec: shifts and ors from the left. */
  method BinToDec(bin: Bytes) returns (r: nat)
    ensures r == FromBE(bin)
  {
    r := 0;
    assert bin[..|bin|] == bin;
    for i := 0 to |bin|
      invariant r == FromBE(bin[..i])
    {
      assert bin[..i + 1] == bin[..i] + [bin[i]];
      ReverseLast(bin[..i], bin[i]);
      assert ([bin[i]] + Reverse(bin[..i]))[1..] == Reverse(bin[..i]);
      r := 256 * r + bin[i];
    }
  }

  // ----- leading zeros -----

  function Strip(bs: Bytes): Bytes {
    if bs != [] && bs[|bs| - 1] == 0 then Strip(bs[..|bs| - 1]) else bs
  }

  function Zeros(n: nat): (z: Bytes)
    ensures |z| == n
  {
    seq(n, _ => 0)
  }

  /** The high bytes that are zero can be left out and put back. */
  lemma {:induction false} StripPads(bs: Bytes)
    ensures |Strip(bs)| <= |bs| && Strip(bs) + Zeros(|bs| - |Strip(bs)|) == bs
    decreases |bs|
  {
    if bs != [] && bs[|bs| - 1] == 0 {
      var front := bs[..|bs| - 1];
      StripPads(front);
      assert Zeros(|bs| - |Strip(bs)|) == Zeros(|front| - |Strip(bs)|) + [0];
      assert bs == front + [0];
    }
  }

  // ----- 64-bit integers with a length byte -----

  function EncodeInt(x: Int64): Bytes {
    StripPads(ToLE(ToUint(x), 8));
    var b := Strip(ToLE(ToUint(x), 8));
    [|b|] + b
  }

  function Padded(bs: Bytes): (r: Bytes)
    ensures |r| == 8
  {
    if |bs| >= 8 then bs[..8] else bs + Zeros(8 - |bs|)
  }

  /** DecodeLenInt64 and DecodeLenInt64Buf; None is an error. */
  function DecodeInt(data: Bytes): Option<(Int64, Bytes)> {
    if data == [] then Some((0, data))
    else
      var n: nat := data[0];
      if |data| < n + 1 then None
      else
        Widths();
        Some((ToInt(FromLE(Padded(data[1..n + 1]))), data[n + 1..]))
  }

  lemma {:induction false} IntRoundTrip(x: Int64, rest: Bytes)
    ensures EncodeInt(x) != [] && DecodeInt(EncodeInt(x) + rest) == Some((x, rest))
  {
    hide ToLE, FromLE, Strip, Pow;
    var full := ToLE(ToUint(x), 8);
    StripPads(full);
    var b := Strip(full);
    var data := EncodeInt(x) + rest;
    assert data[1..|b| + 1] == b && data[|b| + 1..] == rest;
    assert Padded(b) == full by { if |b| == 8 { assert Zeros(0) == []; assert b + [] == b; assert full[..8] == full; } }
    Widths();
    LERoundTrip(ToUint(x), 8);
    assert ToInt(ToUint(x)) == x;
  }

  method EncodeLenInt64(x: Int64) returns (r: Bytes)
    ensures r == EncodeInt(x)
  {
    var buf := ToLE(ToUint(x), 8);
    var length := 8;
    assert buf[..8] == buf;
    while length > 0 && buf[length - 1] == 0
      invariant 0 <= length <= 8 && Strip(buf[..length]) == Strip(buf)
    {
      assert buf[..length][..length - 1] == buf[..length - 1];
      length := length - 1;
    }
    return [length] + buf[..length];
  }

  // ----- length codes -----

  function EncodeSize(x: Int64): Bytes {
    if 0 <= x <= 127 then [x]
    else
      StripPads(ToLE(ToUint(x), 8));
      var b := Strip(ToLE(ToUint(x), 8));
      [128 + |b|] + Reverse(b)
  }

  /** DecodeLength: a count of more than eight bytes is read as zero. */
  function DecodeSize(buf: Bytes): Option<(Int64, Bytes)> {
    if buf == [] then Some((0, buf))
    else
      var first: nat := buf[0];
      if first < 128 then Some((first, buf[1..]))
      else
        var n := first - 128;
        if |buf| < n + 1 then None
        else
          Widths();
          Some((if n <= 8 then ToInt(FromBE(Zeros(8 - n) + buf[1..n + 1])) else 0, buf[n + 1..]))
  }

  /** DecodeLengthBuf: the same with an error for negative sizes. */
  function DecodeSizeBuf(buf: Bytes): Option<(Int64, Bytes)> {
    match DecodeSize(buf)
    case Some((n, rest)) => if n < 0 then None else Some((n, rest))
    case None => None
  }

  lemma {:induction false} ReverseConcat(a: Bytes, b: Bytes)
    ensures Reverse(a + b) == Reverse(b) + Reverse(a)
    decreases |b|
  {
    if b == [] {
      assert a + b == a;
    } else {
      assert a + b == (a + [b[0]]) + b[1..];
      ReverseConcat(a + [b[0]], b[1..]);
      ReverseLast(a, b[0]);
    }
  }

  lemma {:induction false} ReverseZeros(n: nat)
    ensures Reverse(Zeros(n)) == Zeros(n)
    decreases n
  {
    if n > 0 {
      assert Zeros(n)[1..] == Zeros(n - 1);
      ReverseZeros(n - 1);
      assert Zeros(n - 1) + [0] == Zeros(n);
    }
  }

  /** Every length code, whatever follows it, is read back. */
  lemma {:induction false} SizeRoundTrip(x: Int64, rest: Bytes)
    ensures EncodeSize(x) != [] && DecodeSize(EncodeSize(x) + rest) == Some((x, rest))
    ensures x >= 0 ==> DecodeSizeBuf(EncodeSize(x) + rest) == Some((x, rest))
  {
    hide ToLE, FromLE, Strip, Pow, Reverse, Zeros;
    var buf := EncodeSize(x) + rest;
    if 0 <= x <= 127 {
      assert buf[1..] == rest;
    } else {
      var full := ToLE(ToUint(x), 8);
      StripPads(full);
      var b := Strip(full);
      var n := |b|;
      assert buf[1..n + 1] == Reverse(b) && buf[n + 1..] == rest;
      ReverseConcat(Zeros(8 - n), Reverse(b));
      ReverseTwice(b);
      ReverseZeros(8 - n);
      assert Reverse(Zeros(8 - n) + Reverse(b)) == full;
      Widths();
      LERoundTrip(ToUint(x), 8);
      assert ToInt(ToUint(x)) == x;
    }
  }

  method EncodeLength(length: Int64) returns (r: Bytes)
    ensures r == EncodeSize(length)
  {
    hide ToLE, Reverse, Strip;
    if 0 <= length <= 127 { return [length]; }
    var le := ToLE(ToUint(length), 8);
    var buf := Reverse(le);
    var i := 0;
    assert le[..8] == le;
    while i < 7 && buf[i] == 0
      invariant 0 <= i <= 7 && Strip(le[..8 - i]) == Strip(le) && buf[i..] == Reverse(le[..8 - i])
    {
      LowestByte(le, 8 - i);
      assert buf[i..][0] == buf[i] && buf[i..][1..] == buf[i + 1..];
      i := i + 1;
    }
    LowestByte(le, 8 - i);
    assert buf[i..][0] == buf[i];
    NotAllZero(ToUint(length), le, 8 - i);
    return [128 + (8 - i)] + buf[i..];
  }

  /** The byte that comes first in big-endian order. */
  lemma {:induction false} LowestByte(le: Bytes, n: nat)
    requires 0 < n <= |le|
    ensures Reverse(le[..n]) == [le[n - 1]] + Reverse(le[..n - 1])
    ensures Strip(le[..n]) == if le[n - 1] == 0 then Strip(le[..n - 1]) else le[..n]
  {
    assert le[..n] == le[..n - 1] + [le[n - 1]];
    assert le[..n][..n - 1] == le[..n - 1];
    ReverseLast(le[..n - 1], le[n - 1]);
  }

  /** A positive number does not become empty. */
  lemma {:induction false} NotAllZero(u: nat, le: Bytes, n: nat)
    requires 0 < u < TWO64 && le == ToLE(u, 8) && 0 < n <= 8 && Strip(le[..n]) == Strip(le)
    requires n == 1 || le[n - 1] != 0
    ensures Strip(le) == le[..n]
  {
    hide ToLE;
    LowestByte(le, n);
    StripPads(le);
    ZeroValue(8);
    Widths();
    LERoundTrip(u, 8);
    assert [] + Zeros(8) == Zeros(8);
    assert Strip(le) != [];
    assert le[..0] == [];
  }

  lemma {:induction false} ZeroValue(n: nat)
    ensures FromLE(Zeros(n)) == 0
    decreases n
  {
    if n > 0 {
      assert Zeros(n)[1..] == Zeros(n - 1);
      ZeroValue(n - 1);
    }
  }

  // ----- the struct marshaller -----

  type Uint32 = x: int | 0 <= x < 0x1_0000_0000

  type Uint64 = x: int | 0 <= x < TWO64

  /** The values that can be marshalled; strings are their bytes. */
  datatype Val = U8(b: Byte) | U32(n: Uint32) | U64(m: Uint64) | I64(x: Int64) | Text(s: Bytes) | Raw(r: Bytes) | Struct(fields: Fields)

  datatype Fields = NoField | Field(v: Val, rest: Fields)

  /** The type of a value, which the decoders are given. */
  datatype Shape = AU8 | AU32 | AU64 | AI64 | AText | ARaw | AStruct(shapes: Shapes)

  datatype Shapes = NoShape | AShape(sh: Shape, rest: Shapes)

  function ShapeOf(v: Val): Shape {
    match v
    case U8(_) => AU8 case U32(_) => AU32 case U64(_) => AU64 case I64(_) => AI64
    case Text(_) => AText case Raw(_) => ARaw
    case Struct(fs) => AStruct(ShapesOf(fs))
  }

  function ShapesOf(fs: Fields): Shapes {
    match fs case NoField => NoShape case Field(v, rest) => AShape(ShapeOf(v), ShapesOf(rest))
  }

  /** Lengths fit their type and structs have fields. */
  predicate Proper(v: Val) {
    match v
    case Text(s) => |s| < TWO63
    case Raw(s) => |s| < TWO63
    case Struct(fs) => fs.Field? && ProperAll(fs)
    case _ => true
  }

  predicate ProperAll(fs: Fields) {
    fs.NoField? || (Proper(fs.v) && ProperAll(fs.rest))
  }

  function Marshal(v: Val): Bytes
    requires Proper(v)
  {
    match v
    case U8(b) => [b]
    case U32(n) => ToBE(n, 4)
    case U64(n) => ToBE(n, 8)
    case I64(x) => EncodeInt(x)
    case Text(t) => EncodeSize(|t|) + t
    case Raw(t) => EncodeSize(|t|) + t
    case Struct(fs) => MarshalAll(fs)
  }

  function MarshalAll(fs: Fields): Bytes
    requires ProperAll(fs)
  {
    match fs case NoField => [] case Field(v, rest) => Marshal(v) + MarshalAll(rest)
  }

  datatype Decoded<+T> = Got(value: T, rest: Bytes) | Wrong | Panics

  function Sized(size: Option<(Int64, Bytes)>): Decoded<Bytes> {
    match size
    case None => Wrong
    case Some((n, rest)) => if |rest| < n then Wrong else if n < 0 then Panics else Got(rest[..n], rest[n..])
  }

  /** BinUnmarshal, and BinUnmarshalBuff when `buffered`. */
  function Unmarshal(sh: Shape, data: Bytes, buffered: bool): Decoded<Val> {
    if data == [] then Wrong
    else
      match sh
      case AU8 => Got(U8(data[0]), data[1..])
      case AU32 => Widths(); if |data| < 4 then Panics else Got(U32(FromBE(data[..4])), data[4..])
      case AU64 => Widths(); if |data| < 8 then Panics else Got(U64(FromBE(data[..8])), data[8..])
      case AI64 => (match DecodeInt(data) case None => Wrong case Some((x, rest)) => Got(I64(x), rest))
      case AText =>
        (match Sized(if buffered then DecodeSizeBuf(data) else DecodeSize(data))
         case Got(t, rest) => Got(Text(t), rest) case Wrong => Wrong case Panics => Panics)
      case ARaw =>
        (match Sized(if buffered then DecodeSizeBuf(data) else DecodeSize(data))
         case Got(t, rest) => Got(Raw(t), rest) case Wrong => Wrong case Panics => Panics)
      case AStruct(shs) =>
        match UnmarshalAll(shs, data, buffered)
        case Got(fs, rest) => Got(Struct(fs), rest) case Wrong => Wrong case Panics => Panics
  }

  function UnmarshalAll(shs: Shapes, data: Bytes, buffered: bool): Decoded<Fields> {
    match shs
    case NoShape => Got(NoField, data)
    case AShape(sh, more) =>
      match Unmarshal(sh, data, buffered)
      case Wrong => Wrong
      case Panics => Panics
      case Got(v, data1) =>
        match UnmarshalAll(more, data1, buffered)
        case Got(fs, rest) => Got(Field(v, fs), rest) case Wrong => Wrong case Panics => Panics
  }

  lemma {:induction false} SizedRoundTrip(t: Bytes, rest: Bytes, buffered: bool)
    requires |t| < TWO63
    ensures EncodeSize(|t|) != []
    ensures var data := EncodeSize(|t|) + t + rest;
            Sized(if buffered then DecodeSizeBuf(data) else DecodeSize(data)) == Got(t, rest)
  {
    hide EncodeSize, DecodeSize, DecodeSizeBuf;
    SizeRoundTrip(|t|, t + rest);
    assert EncodeSize(|t|) + t + rest == EncodeSize(|t|) + (t + rest);
    assert (t + rest)[..|t|] == t && (t + rest)[|t|..] == rest;
  }

  /** Both decoders return every value from its bytes and leave what follows it. */
  lemma {:induction false} ValRoundTrip(v: Val, rest: Bytes, buffered: bool)
    requires Proper(v)
    ensures Marshal(v) != [] && Unmarshal(ShapeOf(v), Marshal(v) + rest, buffered) == Got(v, rest)
    decreases v
  {
    hide EncodeSize, DecodeSize, DecodeSizeBuf, EncodeInt, DecodeInt, ToBE, FromBE, Pow;
    Widths();
    var data := Marshal(v) + rest;
    match v
    case U8(_) => assert data[1..] == rest;
    case U32(n) => BERoundTrip(n, 4); assert data[..4] == ToBE(n, 4) && data[4..] == rest;
    case U64(n) => BERoundTrip(n, 8); assert data[..8] == ToBE(n, 8) && data[8..] == rest;
    case I64(x) => IntRoundTrip(x, rest);
    case Text(t) => SizedRoundTrip(t, rest, buffered);
    case Raw(t) => SizedRoundTrip(t, rest, buffered);
    case Struct(fs) => AllRoundTrip(fs, rest, buffered);
  }

  lemma {:induction false} AllRoundTrip(fs: Fields, rest: Bytes, buffered: bool)
    requires ProperAll(fs)
    ensures fs.Field? ==> MarshalAll(fs) != []
    ensures UnmarshalAll(ShapesOf(fs), MarshalAll(fs) + rest, buffered) == Got(fs, rest)
    decreases fs
  {
    hide Unmarshal, Marshal;
    match fs
    case NoField => assert [] + rest == rest;
    case Field(v, more) =>
      ValRoundTrip(v, MarshalAll(more) + rest, buffered);
      AllRoundTrip(more, rest, buffered);
      assert MarshalAll(fs) + rest == Marshal(v) + (MarshalAll(more) + rest);
  }

  /** The code is self-delimiting: of two values of one type followed by anything,
      equal bytes mean equal values and equal remainders. */
  lemma {:induction false} SelfDelimiting(v: Val, rest: Bytes, v': Val, rest': Bytes)
    requires Proper(v) && Proper(v') && ShapeOf(v) == ShapeOf(v') && Marshal(v) + rest == Marshal(v') + rest'
    ensures v == v' && rest == rest'
  {
    hide Unmarshal, Marshal;
    ValRoundTrip(v, rest, false);
    ValRoundTrip(v', rest', false);
  }

  /** On arbitrary bytes the decoders differ only where the slice decoder panics on
      a negative length that the buffer decoder rejects. */
  lemma {:induction false} DecodersAgree(sh: Shape, data: Bytes)
    ensures Unmarshal(sh, data, true) == Unmarshal(sh, data, false) ||
            (Unmarshal(sh, data, true) == Wrong && Unmarshal(sh, data, false) == Panics)
    decreases sh
  {
    hide DecodeSize, DecodeInt;
    if sh.AStruct? { DecodersAgreeAll(sh.shapes, data); }
  }

  lemma {:induction false} DecodersAgreeAll(shs: Shapes, data: Bytes)
    ensures UnmarshalAll(shs, data, true) == UnmarshalAll(shs, data, false) ||
            (UnmarshalAll(shs, data, true) == Wrong && UnmarshalAll(shs, data, false) == Panics)
    decreases shs
  {
    hide Unmarshal;
    if shs.AShape? {
      DecodersAgree(shs.sh, data);
      var r := Unmarshal(shs.sh, data, true);
      if r.Got? { DecodersAgreeAll(shs.rest, r.rest); }
    }
  }

  /** BinMarshal appends to the bytes that are there. */
  method BinMarshal(before: Bytes, v: Val) returns (out: Bytes)
    requires Proper(v)
    ensures out == before + Marshal(v)
    decreases v
  {
    hide EncodeSize, EncodeInt, ToBE;
    match v {
      case U8(b) => out := before + [b];
      case U32(n) => out := before + ToBE(n, 4);
      case U64(n) => out := before + ToBE(n, 8);
      case I64(x) =>
        var e := EncodeLenInt64(x);
        out := before + e;
      case Text(t) =>
        var e := EncodeLength(|t|);
        out := before + e + t;
        assert out == before + (e + t);
      case Raw(t) =>
        var e := EncodeLength(|t|);
        out := before + e + t;
        assert out == before + (e + t);
      case Struct(fields) =>
        out := before;
        var fs := fields;
        assert out + MarshalAll(fs) == before + MarshalAll(fields);
        while fs.Field?
          invariant ProperAll(fs) && (fs == v.fields || fs < v.fields) && out + MarshalAll(fs) == before + MarshalAll(v.fields)
          decreases fs
        {
          ghost var start := out;
          out := BinMarshal(out, fs.v);
          assert start + (Marshal(fs.v) + MarshalAll(fs.rest)) == out + MarshalAll(fs.rest);
          fs := fs.rest;
        }
        assert out + [] == out;
    }
  }
}

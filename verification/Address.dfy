/**
 Wallet addresses: the check digit (packages/crypto/checksum.go), the address of
 a key (packages/crypto/converter.go) and its text forms (packages/converter/converter.go).
 */
module Address {
  import opened Wrappers
  import opened Codec

  predicate AllDigits(s: string) {
    forall k :: 0 <= k < |s| ==> '0' <= s[k] <= '9'
  }

  function Digit(c: char): int {
    c as int - '0' as int
  }

  function Char(d: nat): (c: char)
    requires d < 10
    ensures '0' <= c <= '9' && Digit(c) == d
  {
    ('0' as int + d) as char
  }

  // ----- decimal numbers -----

  function Pow10(k: nat): (p: nat)
    ensures p > 0
  {
    if k == 0 then 1 else 10 * Pow10(k - 1)
  }

  /** The last `k` decimal digits of `n`. */
  function Fixed(n: nat, k: nat): (s: string)
    ensures |s| == k && AllDigits(s)
  {
    if k == 0 then "" else Fixed(n / 10, k - 1) + [Char(n % 10)]
  }

  /** The value of a string of digits. */
  function Number(s: string): nat
    requires AllDigits(s)
  {
    if s == "" then 0 else 10 * Number(s[..|s| - 1]) + Digit(s[|s| - 1])
  }

  /** The shortest decimal form, as FormatUint gives it. */
  function Decimal(n: nat): (s: string)
    ensures |s| > 0 && AllDigits(s)
  {
    if n < 10 then [Char(n)] else Decimal(n / 10) + [Char(n % 10)]
  }

  function ZerosText(n: nat): (s: string)
    ensures |s| == n && AllDigits(s)
  {
    seq(n, _ => '0')
  }

  function PadTo20(s: string): string {
    if |s| < 20 then ZerosText(20 - |s|) + s else s
  }

  lemma {:induction false} FixedNumber(n: nat, k: nat)
    requires n < Pow10(k)
    ensures Number(Fixed(n, k)) == n
    decreases k
  {
    if k > 0 {
      FixedNumber(n / 10, k - 1);
      assert Fixed(n, k)[..k - 1] == Fixed(n / 10, k - 1);
    }
  }

  lemma {:induction false} ZerosFixed(k: nat)
    ensures Fixed(0, k) == ZerosText(k)
    decreases k
  {
    if k > 0 {
      ZerosFixed(k - 1);
      assert ZerosText(k - 1) + ['0'] == ZerosText(k);
    }
  }

  lemma Tenth(n: nat, k: nat)
    requires n < Pow10(k) && k > 0
    ensures n / 10 < Pow10(k - 1) && (n >= 10 ==> k > 1)
  {
  }

  lemma {:induction false} DecimalPads(n: nat, k: nat)
    requires n < Pow10(k) && k > 0
    ensures |Decimal(n)| <= k && ZerosText(k - |Decimal(n)|) + Decimal(n) == Fixed(n, k)
    decreases k
  {
    hide Pow10, Char;
    Tenth(n, k);
    if n < 10 {
      ZerosFixed(k - 1);
    } else {
      DecimalPads(n / 10, k - 1);
      var z, d, c := ZerosText(k - 1 - |Decimal(n / 10)|), Decimal(n / 10), [Char(n % 10)];
      assert z + (d + c) == z + d + c;
    }
  }

  lemma Bound20()
    ensures TWO64 <= Pow10(20)
  {
    assert Pow10(5) == 100000;
    assert Pow10(10) == 10000000000;
    assert Pow10(15) == 1000000000000000;
  }

  // ----- the check digit -----

  /** Digits at odd places count three times. */
  function Weight(s: string): int
    requires AllDigits(s)
  {
    if s == "" then 0 else Weight(s[..|s| - 1]) + Digit(s[|s| - 1]) * (if (|s| - 1) % 2 == 1 then 3 else 1)
  }

  function CheckDigit(s: string): (d: nat)
    requires AllDigits(s)
    ensures d < 10 && (Weight(s) + d) % 10 == 0
  {
    if Weight(s) % 10 == 0 then 0 else 10 - Weight(s) % 10
  }

  /** The loop of checkSum with its two sums. */
  method CheckSum(val: string) returns (r: nat)
    requires AllDigits(val)
    ensures r == CheckDigit(val)
  {
    var one, two := 0, 0;
    assert val[..|val|] == val;
    for i := 0 to |val|
      invariant two + 3 * one == Weight(val[..i])
    {
      assert val[..i + 1][..i] == val[..i];
      var digit := Digit(val[i]);
      if i % 2 == 1 { one := one + digit; } else { two := two + digit; }
    }
    WeightPositive(val);
    r := (two + 3 * one) % 10;
    if r > 0 { r := 10 - r; }
  }

  lemma {:induction false} WeightPositive(s: string)
    requires AllDigits(s)
    ensures Weight(s) >= 0
    decreases |s|
  {
    if s != "" { WeightPositive(s[..|s| - 1]); }
  }

  /** Twenty digits with the right check digit in the last place. */
  predicate Checked(s: string) {
    |s| == 20 && AllDigits(s) && CheckDigit(s[..19]) == Digit(s[19])
  }

  // ----- the address of a key -----

  /** Address, from the checksum of the hashed key on. */
  function AddressOf(crc: Uint64): int {
    crc - crc % 10 + CheckDigit(Fixed(crc, 20)[..19])
  }

  /** The address keeps all digits of the checksum but the last one. */
  lemma {:induction false} DigitsKept(crc: Uint64)
    ensures AddressOf(crc) / 10 == crc / 10
    ensures AddressOf(crc) % 10 == CheckDigit(Fixed(crc, 20)[..19])
  {
    var d := CheckDigit(Fixed(crc, 20)[..19]);
    var q := crc / 10;
    assert crc == 10 * q + crc % 10 && AddressOf(crc) == 10 * q + d;
    assert (10 * q + d) / 10 == q;
  }

  /** The weight of a number, digit by digit. */
  function NumberWeight(n: nat, k: nat): nat {
    if k == 0 then 0 else NumberWeight(n / 10, k - 1) + (n % 10) * (if (k - 1) % 2 == 1 then 3 else 1)
  }

  lemma {:induction false} FixedWeight(n: nat, k: nat)
    ensures Weight(Fixed(n, k)) == NumberWeight(n, k)
    decreases k
  {
    if k > 0 {
      FixedWeight(n / 10, k - 1);
      assert Fixed(n, k)[..k - 1] == Fixed(n / 10, k - 1);
    }
  }

  /** The only prefix for which a digit above 5 would overflow has check digit 4. */
  lemma LargestPrefix()
    ensures NumberWeight(1844674407370955161, 19) == 196
  {
    hide NumberWeight;
    assert NumberWeight(0, 0) == 0 by { ZeroWeight(); }
    WeightStep(0, 0, 1); WeightStep(1, 1, 8); WeightStep(18, 2, 4);
    WeightStep(184, 3, 4); WeightStep(1844, 4, 6); WeightStep(18446, 5, 7);
    WeightStep(184467, 6, 4); WeightStep(1844674, 7, 4); WeightStep(18446744, 8, 0);
    WeightStep(184467440, 9, 7); WeightStep(1844674407, 10, 3); WeightStep(18446744073, 11, 7);
    WeightStep(184467440737, 12, 0); WeightStep(1844674407370, 13, 9); WeightStep(18446744073709, 14, 5);
    WeightStep(184467440737095, 15, 5); WeightStep(1844674407370955, 16, 1); WeightStep(18446744073709551, 17, 6);
    WeightStep(184467440737095516, 18, 1);
  }

  lemma ZeroWeight()
    ensures NumberWeight(0, 0) == 0
  {
  }

  lemma WeightStep(n: nat, k: nat, d: nat)
    requires d < 10
    ensures NumberWeight(10 * n + d, k + 1) == NumberWeight(n, k) + d * (if k % 2 == 1 then 3 else 1)
  {
  }

  /** For every checksum the address stays in 64 bits and is a checked number. */
  lemma {:induction false} AddressChecked(crc: Uint64)
    ensures 0 <= AddressOf(crc) < TWO64 && Checked(Fixed(AddressOf(crc), 20))
  {
    var q := crc / 10;
    assert Fixed(crc, 20)[..19] == Fixed(q, 19);
    var c := CheckDigit(Fixed(q, 19));
    FixedWeight(q, 19);
    LargestPrefix();
    assert AddressOf(crc) == 10 * q + c;
    if q == 1844674407370955161 { assert c == 4; }
    var a: nat := AddressOf(crc);
    assert a / 10 == q && a % 10 == c;
    assert Fixed(a, 20)[..19] == Fixed(q, 19) && Fixed(a, 20)[19] == Char(c);
  }

  // ----- text forms -----

  function ParseUint(s: string): Option<nat> {
    if s == "" || !AllDigits(s) || Number(s) >= TWO64 then None else Some(Number(s))
  }

  /** ParseInt on a text that starts with a minus sign. */
  function ParseNegative(s: string): Option<Int64>
    requires s != ""
  {
    if s[1..] == "" || !AllDigits(s[1..]) || Number(s[1..]) > TWO63 then None else Some(0 - Number(s[1..]))
  }

  function FormatInt(x: Int64): string {
    if x < 0 then "-" + Decimal(0 - x) else Decimal(x)
  }

  function Undash(s: string): string {
    if s == "" then "" else (if s[0] == '-' then "" else [s[0]]) + Undash(s[1..])
  }

  predicate IsValidAddress(address: string) {
    var val := Undash(address);
    ParseUint(val).Some? && Checked(val)
  }

  function FromDigits(val: string): Int64 {
    if |val| != 20 || ParseUint(val).None? || !Checked(val) then 0 else ToInt(ParseUint(val).value)
  }

  function StringToAddress(address: string): Int64 {
    if address == "" then 0
    else if address[0] == '-' then
      (match ParseNegative(address)
       case None => 0
       case Some(id) => FromDigits(Undash(PadTo20(Decimal(ToUint(id))))))
    else FromDigits(Undash(PadTo20(address)))
  }

  /** AddressToString: five groups of four digits. */
  function AddressToString(address: Int64): string {
    var val := PadTo20(Decimal(ToUint(address)));
    if |val| != 20 then val else Grouped(val)
  }

  function Grouped(v: string): string
    requires |v| == 20
  {
    v[0..4] + ("-" + (v[4..8] + ("-" + (v[8..12] + ("-" + (v[12..16] + ("-" + v[16..])))))))
  }

  lemma {:induction false} UndashDigits(s: string)
    requires AllDigits(s)
    ensures Undash(s) == s
    decreases |s|
  {
    if s != "" { UndashDigits(s[1..]); }
  }

  lemma {:induction false} UndashJoin(a: string, b: string)
    ensures Undash(a + b) == Undash(a) + Undash(b)
    decreases |a|
  {
    if a == "" {
      assert a + b == b;
    } else {
      assert (a + b)[1..] == a[1..] + b;
      UndashJoin(a[1..], b);
    }
  }

  lemma {:induction false} UndashGroup(s: string, rest: string)
    requires AllDigits(s)
    ensures Undash(s + ("-" + rest)) == s + Undash(rest)
  {
    UndashJoin(s, "-" + rest);
    UndashDigits(s);
    assert ("-" + rest)[1..] == rest;
  }

  lemma {:induction false} GroupedDigits(v: string)
    requires |v| == 20 && AllDigits(v)
    ensures |Grouped(v)| == 24 && Grouped(v)[0] == v[0] && Undash(Grouped(v)) == v
  {
    hide Undash;
    var a, b, c, d, e := v[0..4], v[4..8], v[8..12], v[12..16], v[16..];
    UndashGroup(a, b + ("-" + (c + ("-" + (d + ("-" + e))))));
    UndashGroup(b, c + ("-" + (d + ("-" + e))));
    UndashGroup(c, d + ("-" + e));
    UndashGroup(d, e);
    UndashDigits(e);
    assert a + (b + (c + (d + e))) == v;
  }

  lemma {:induction false} PaddedDigits(u: nat)
    requires u < TWO64
    ensures PadTo20(Decimal(u)) == Fixed(u, 20)
  {
    hide Decimal, Fixed;
    Bound20();
    DecimalPads(u, 20);
    assert ZerosText(0) + Decimal(u) == Decimal(u);
  }

  lemma {:induction false} DashedDigits(address: Int64)
    ensures AddressToString(address) != "" && AddressToString(address)[0] != '-' && |AddressToString(address)| == 24
    ensures Undash(AddressToString(address)) == Fixed(ToUint(address), 20)
  {
    hide Undash, Decimal, Fixed, Grouped, PadTo20;
    PaddedDigits(ToUint(address));
    GroupedDigits(Fixed(ToUint(address), 20));
  }

  lemma {:induction false} DigitsBack(x: Int64)
    ensures FromDigits(Fixed(ToUint(x), 20)) == if Checked(Fixed(ToUint(x), 20)) then x else 0
  {
    Bound20();
    FixedNumber(ToUint(x), 20);
    assert ToInt(ToUint(x)) == x;
  }

  /** The dashed form is read back exactly for checked addresses; others become 0. */
  lemma {:induction false} DashedRoundTrip(x: Int64)
    ensures StringToAddress(AddressToString(x)) == if Checked(Fixed(ToUint(x), 20)) then x else 0
  {
    hide Undash, Decimal, Fixed, FromDigits, Checked, AddressToString;
    DashedDigits(x);
    DigitsBack(x);
  }

  /** So is the signed decimal form. */
  lemma {:induction false} SignedRoundTrip(x: Int64)
    ensures StringToAddress(FormatInt(x)) == if Checked(Fixed(ToUint(x), 20)) then x else 0
  {
    hide Undash, Decimal, Fixed, FromDigits, Checked, Number;
    PaddedDigits(ToUint(x));
    UndashDigits(Fixed(ToUint(x), 20));
    DigitsBack(x);
    if x < 0 {
      var s := FormatInt(x);
      assert s[1..] == Decimal(0 - x);
      DecimalNumber(0 - x);
    }
  }

  lemma {:induction false} DecimalNumber(n: nat)
    ensures Number(Decimal(n)) == n
    decreases n
  {
    if n < 10 {
      assert Decimal(n)[..0] == "";
    } else {
      DecimalNumber(n / 10);
      assert Decimal(n)[..|Decimal(n)| - 1] == Decimal(n / 10);
    }
  }

  /** Every address of a key survives both text forms and is valid. */
  lemma {:induction false} AddressSurvives(crc: Uint64)
    ensures 0 <= AddressOf(crc) < TWO64
    ensures var x := ToInt(AddressOf(crc));
            IsValidAddress(AddressToString(x)) && StringToAddress(AddressToString(x)) == x && StringToAddress(FormatInt(x)) == x
  {
    hide Undash, Decimal, Fixed, Checked, AddressToString, AddressOf, StringToAddress, FormatInt;
    AddressChecked(crc);
    var x := ToInt(AddressOf(crc));
    DashedRoundTrip(x);
    SignedRoundTrip(x);
    DashedDigits(x);
    Bound20();
    FixedNumber(AddressOf(crc), 20);
  }

  // ----- single wrong digits -----

  lemma {:induction false} WeightChange(s: string, k: nat, c: char)
    requires AllDigits(s) && k < |s| && '0' <= c <= '9'
    ensures AllDigits(s[k := c])
    ensures Weight(s[k := c]) - Weight(s) == (Digit(c) - Digit(s[k])) * (if k % 2 == 1 then 3 else 1)
    decreases |s|
  {
    var t := s[k := c];
    if k == |s| - 1 {
      assert t[..|s| - 1] == s[..|s| - 1];
    } else {
      WeightChange(s[..|s| - 1], k, c);
      assert t[..|s| - 1] == s[..|s| - 1][k := c];
    }
  }

  /** No multiple of a digit's weight that is off by a digit ends with zero. */
  lemma NoTens(delta: int, w: int)
    requires -9 <= delta <= 9 && delta != 0 && (w == 1 || w == 3)
    ensures (delta * w) % 10 != 0
  {
  }

  lemma Difference(a: int, b: int)
    requires a % 10 == 0 && b % 10 == 0
    ensures (a - b) % 10 == 0
  {
  }

  /** Any single wrong digit is found. */
  lemma {:induction false} WrongDigitFound(s: string, k: nat, c: char)
    requires AllDigits(s) && IsValidAddress(s) && k < |s| && '0' <= c <= '9' && c != s[k]
    ensures !IsValidAddress(s[k := c])
  {
    hide Weight, ParseUint, Undash;
    var t := s[k := c];
    UndashDigits(s);
    UndashDigits(t);
    if k == 19 {
      assert t[..19] == s[..19];
    } else if IsValidAddress(t) {
      Difference(Weight(t[..19]) + Digit(t[19]), Weight(s[..19]) + Digit(s[19]));
      assert t[..19] == s[..19][k := c] && t[19] == s[19];
      WeightChange(s[..19], k, c);
      NoTens(Digit(c) - Digit(s[k]), if k % 2 == 1 then 3 else 1);
      assert false;
    }
  }
}

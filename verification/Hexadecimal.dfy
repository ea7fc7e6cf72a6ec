/** The hexadecimal text of bytes. */
module Hexadecimal {

  function HexDigit(d: nat): char
    requires d < 16
  {
    "0123456789abcdef"[d]
  }

  /** Two digits for each byte. */
  function Hex(bs: seq<nat>): (s: string)
    ensures |s| == 2 * |bs|
  {
    if bs == [] then "" else [HexDigit(bs[0] / 16 % 16), HexDigit(bs[0] % 16)] + Hex(bs[1..])
  }
}

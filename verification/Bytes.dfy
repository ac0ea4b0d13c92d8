/** Bytes and their hexadecimal text. */
module Bytes {

  type Byte = b: nat | b < 256

  function HexDigit(n: nat): (c: char)
    requires n < 16
  {
    if n < 10 then ('0' as int + n) as char else ('a' as int + n - 10) as char
  }

  function Hex(bytes: seq<Byte>): (s: string)
    ensures |s| == 2 * |bytes|
  {
    if bytes == [] then "" else [HexDigit(bytes[0] / 16), HexDigit(bytes[0] % 16)] + Hex(bytes[1..])
  }

  lemma HexDigitInjective(m: nat, n: nat)
    requires m < 16 && n < 16 && HexDigit(m) == HexDigit(n)
    ensures m == n
  {
  }

  lemma {:induction false} HexAt(bytes: seq<Byte>, k: nat)
    requires k < |bytes|
    ensures Hex(bytes)[2 * k] == HexDigit(bytes[k] / 16) && Hex(bytes)[2 * k + 1] == HexDigit(bytes[k] % 16)
  {
    if k > 0 {
      HexAt(bytes[1..], k - 1);
    }
  }

  lemma {:induction false} HexHasNoLetterI(bytes: seq<Byte>)
    ensures 'i' !in Hex(bytes)
  {
    if bytes != [] {
      HexHasNoLetterI(bytes[1..]);
    }
  }

}

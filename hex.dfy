/**
 * Base16 as `hex::encode` produces it: two lower-case digits per byte, high
 * nibble first (the alphabet of section 8 of RFC 4648, in lower case).
 */
module Hex {
  import opened Octets
  import opened Wrappers

  predicate IsLowerHexDigit(c: char) {
    '0' <= c <= '9' || 'a' <= c <= 'f'
  }

  function Digit(n: int): (c: char)
    requires 0 <= n < 16
    ensures IsLowerHexDigit(c)
  {
    if n < 10 then ('0' as int + n) as char else ('a' as int + n - 10) as char
  }

  /** Value of one base16 digit; either case is accepted, as `hex::decode` does. */
  function DigitValue(c: char): (r: Option<int>)
    ensures r.Some? ==> 0 <= r.value < 16
  {
    if '0' <= c <= '9' then Some(c as int - '0' as int)
    else if 'a' <= c <= 'f' then Some(c as int - 'a' as int + 10)
    else if 'A' <= c <= 'F' then Some(c as int - 'A' as int + 10)
    else None
  }

  lemma DigitValueOfDigit(n: int)
    requires 0 <= n < 16
    ensures DigitValue(Digit(n)) == Some(n)
  {
  }

  /** `hex::encode`. */
  function Encode(b: Bytes): (s: string)
    ensures |s| == 2 * |b|
    ensures forall i :: 0 <= i < |s| ==> IsLowerHexDigit(s[i])
  {
    if b == [] then "" else [Digit(b[0] / 16), Digit(b[0] % 16)] + Encode(b[1..])
  }

  /** The inverse of `Encode`: `None` on an odd length or a non-digit. */
  function Decode(s: string): (r: Option<Bytes>)
    ensures r.Some? ==> 2 * |r.value| == |s|
  {
    if s == [] then Some([])
    else if |s| == 1 then None
    else
      match (DigitValue(s[0]), DigitValue(s[1]), Decode(s[2..]))
      case (Some(hi), Some(lo), Some(rest)) => Some([hi * 16 + lo] + rest)
      case _ => None
  }

  lemma {:induction false} DecodeEncode(b: Bytes)
    ensures Decode(Encode(b)) == Some(b)
  {
    if b != [] {
      var s := Encode(b);
      DigitValueOfDigit(b[0] / 16);
      DigitValueOfDigit(b[0] % 16);
      assert s[2..] == Encode(b[1..]);
      DecodeEncode(b[1..]);
      assert [b[0]] + b[1..] == b;
    }
  }

  /** Distinct byte strings never share an encoding. */
  lemma EncodeInjective(a: Bytes, b: Bytes)
    requires Encode(a) == Encode(b)
    ensures a == b
  {
    DecodeEncode(a);
    DecodeEncode(b);
  }
}

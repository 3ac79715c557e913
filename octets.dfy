/** Bytes as the Rust code sees them: `u8` values and `Vec<u8>` strings of them. */
module Octets {

  type Byte = b: int | 0 <= b < 256

  type Bytes = seq<Byte>

  // `Utf8Width`, `Utf8Char` and `Utf8` are the general UTF-8 encoding,
  // written out only as the reference against which `AsciiBytesIsUtf8`
  // shows that `AsciiBytes` (what the model uses) is `str::as_bytes`. The
  // multi-byte branches are never reached from the dispatcher, whose strings
  // are all ASCII.

  /** Number of bytes UTF-8 uses for one scalar value. */
  function Utf8Width(c: char): (n: nat)
    ensures 1 <= n <= 4
  {
    var v := c as int;
    if v < 0x80 then 1 else if v < 0x800 then 2 else if v < 0x1_0000 then 3 else 4
  }

  /** UTF-8 encoding of one scalar value (what `str::as_bytes` stores for it). */
  function Utf8Char(c: char): (r: Bytes)
    ensures |r| == Utf8Width(c)
    ensures c as int < 0x80 ==> r == [c as int]
  {
    var v := c as int;
    if v < 0x80 then [v]
    else if v < 0x800 then [0xC0 + v / 0x40, 0x80 + v % 0x40]
    else if v < 0x1_0000 then [0xE0 + v / 0x1000, 0x80 + (v / 0x40) % 0x40, 0x80 + v % 0x40]
    else [0xF0 + v / 0x4_0000, 0x80 + (v / 0x1000) % 0x40, 0x80 + (v / 0x40) % 0x40, 0x80 + v % 0x40]
  }

  /** `str::as_bytes`: the UTF-8 bytes of a string. */
  function Utf8(s: string): (r: Bytes)
  {
    if s == [] then [] else Utf8Char(s[0]) + Utf8(s[1..])
  }

  predicate IsAscii(s: string) {
    forall i :: 0 <= i < |s| ==> s[i] as int < 0x80
  }

  /** A string whose every character is ASCII. */
  type AsciiString = s: string | IsAscii(s) witness ""

  /** For an ASCII string the bytes are the character codes, one per character. */
  lemma {:induction false} Utf8OfAscii(s: string)
    requires IsAscii(s)
    ensures |Utf8(s)| == |s|
    ensures forall i :: 0 <= i < |s| ==> Utf8(s)[i] == s[i] as int
  {
    if s != [] {
      assert IsAscii(s[1..]) by {
        forall i | 0 <= i < |s[1..]| ensures s[1..][i] as int < 0x80 {
          assert s[1..][i] == s[i + 1];
        }
      }
      Utf8OfAscii(s[1..]);
      assert Utf8(s) == [s[0] as int] + Utf8(s[1..]);
    }
  }

  /** `str::as_bytes` on an ASCII string: one byte per character, its code. */
  function AsciiBytes(s: string): (r: Bytes)
    requires IsAscii(s)
    ensures |r| == |s|
  {
    seq(|s|, i requires 0 <= i < |s| => s[i] as int)
  }

  /** On ASCII strings `AsciiBytes` is exactly the UTF-8 encoding. */
  lemma AsciiBytesIsUtf8(s: string)
    requires IsAscii(s)
    ensures AsciiBytes(s) == Utf8(s)
  {
    Utf8OfAscii(s);
  }
}

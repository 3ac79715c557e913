/**
 * `BigInt::to_signed_bytes_be`: the shortest big-endian two's-complement
 * encoding of an integer (zero is one byte, `[0]`).
 */
module SignedBytes {
  import opened Octets

  /** Value of a two's-complement big-endian byte string. */
  function FromSignedBytesBe(b: Bytes): int
    requires |b| >= 1
  {
    if |b| == 1 then (if b[0] < 0x80 then b[0] else b[0] - 0x100)
    else FromSignedBytesBe(b[..|b| - 1]) * 0x100 + b[|b| - 1]
  }

  /** A leading byte that only repeats the sign of the next one. */
  predicate RedundantLead(b: Bytes)
    requires |b| >= 2
  {
    (b[0] == 0x00 && b[1] < 0x80) || (b[0] == 0xFF && b[1] >= 0x80)
  }

  /**
   * `to_signed_bytes_be`. The result is never empty, carries the sign of `x`
   * in its top bit and has no redundant leading byte.
   */
  function ToSignedBytesBe(x: int): (r: Bytes)
    ensures |r| >= 1
    ensures r[0] >= 0x80 <==> x < 0
    ensures |r| >= 2 ==> !RedundantLead(r)
    decreases if x < 0 then -x else x
  {
    if -0x80 <= x < 0x80 then [x % 0x100]
    else ToSignedBytesBe(x / 0x100) + [x % 0x100]
  }

  lemma {:induction false} RoundTrip(x: int)
    ensures FromSignedBytesBe(ToSignedBytesBe(x)) == x
    decreases if x < 0 then -x else x
  {
    if !(-0x80 <= x < 0x80) {
      var prefix := ToSignedBytesBe(x / 0x100);
      var r := prefix + [x % 0x100];
      assert r[..|r| - 1] == prefix;
      RoundTrip(x / 0x100);
    }
  }

  /** Distinct integers have distinct encodings. */
  lemma Injective(x: int, y: int)
    requires ToSignedBytesBe(x) == ToSignedBytesBe(y)
    ensures x == y
  {
    RoundTrip(x);
    RoundTrip(y);
  }
}

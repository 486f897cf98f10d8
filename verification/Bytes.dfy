/** Byte strings and the big-endian integers inside them. */
module Bytes {
  type byte = b: int | 0 <= b < 256
  type Bytes = seq<byte>

  function U16(s: Bytes): nat
    requires |s| >= 2
  {
    256 * (s[0] as int) + s[1] as int
  }

  function U24(s: Bytes): nat
    requires |s| >= 3
  {
    65536 * (s[0] as int) + 256 * (s[1] as int) + s[2] as int
  }

  function Put16(n: nat): (s: Bytes)
    requires n < 65536
    ensures |s| == 2 && U16(s) == n
  {
    [n / 256, n % 256]
  }

  function Put24(n: nat): (s: Bytes)
    requires n < 16777216
    ensures |s| == 3 && U24(s) == n
  {
    [n / 65536, (n / 256) % 256, n % 256]
  }

  lemma U16Inverse(s: Bytes)
    requires |s| == 2
    ensures U16(s) < 65536 && Put16(U16(s)) == s
  {
    assert U16(s) / 256 == s[0] && U16(s) % 256 == s[1];
  }
}

/** Octets, and the arithmetic on positions that the byte-level modules share. */
module Bytes {

  type byte = x: int | 0 <= x < 256

  function Min(a: int, b: int): int { if a < b then a else b }

  lemma Join(s: seq<byte>, a: nat, b: nat, c: nat)
    requires a <= b <= c <= |s|
    ensures s[a..b] + s[b..c] == s[a..c]
  {
  }

  function Max(a: int, b: int): int { if a < b then b else a }

  // Only the zeroth multiple of d lies between -d and d.
  lemma Multiple(j: int, d: nat)
    requires d > 0
    ensures j >= 1 ==> j * d >= d
    ensures j <= -1 ==> j * d + d <= 0
  {
  }
}

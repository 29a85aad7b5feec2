/**
 * Bytes and the fixed-width unsigned integers of the wire formats, with Borsh's
 * little-endian integer encoding and its inverse.
 */
module Bytes {

  type byte = b: int | 0 <= b < 0x100
  type u32 = x: int | 0 <= x < 0x1_0000_0000
  type u64 = x: int | 0 <= x < 0x1_0000_0000_0000_0000

  const TWO_32: nat := 0x1_0000_0000
  const TWO_64: nat := 0x1_0000_0000_0000_0000

  function Pow256(n: nat): (p: nat)
    ensures p >= 1
  {
    if n == 0 then 1 else 256 * Pow256(n - 1)
  }

  /** The `n` low-order bytes of `x`, least significant first (a truncating little-endian cast). */
  function LeBytes(x: nat, n: nat): (b: seq<byte>)
    ensures |b| == n
  {
    if n == 0 then [] else [x % 256] + LeBytes(x / 256, n - 1)
  }

  /** The unsigned value of little-endian bytes. */
  function FromLe(b: seq<byte>): (x: nat)
    ensures x < Pow256(|b|)
  {
    if b == [] then 0 else b[0] + 256 * FromLe(b[1..])
  }

  /** Encoding then decoding recovers every value that fits in `n` bytes. */
  lemma {:induction false} FromLeLeBytes(x: nat, n: nat)
    requires x < Pow256(n)
    ensures FromLe(LeBytes(x, n)) == x
  {
    if n > 0 {
      assert x / 256 < Pow256(n - 1);
      FromLeLeBytes(x / 256, n - 1);
      assert LeBytes(x, n)[1..] == LeBytes(x / 256, n - 1);
    }
  }

  /** Decoding then encoding at the same width recovers the bytes: the encoding is onto. */
  lemma {:induction false} LeBytesFromLe(b: seq<byte>)
    ensures LeBytes(FromLe(b), |b|) == b
  {
    if b != [] {
      var x := FromLe(b);
      assert x % 256 == b[0] && x / 256 == FromLe(b[1..]);
      LeBytesFromLe(b[1..]);
    }
  }

  /** Two values of the same width with equal encodings are equal. */
  lemma LeBytesInjective(x: nat, y: nat, n: nat)
    requires x < Pow256(n) && y < Pow256(n)
    requires LeBytes(x, n) == LeBytes(y, n)
    ensures x == y
  {
    FromLeLeBytes(x, n);
    FromLeLeBytes(y, n);
  }

  lemma Pow256Widths()
    ensures Pow256(4) == TWO_32 && Pow256(8) == TWO_64
  {
  }

  /** Borsh u64: 8 bytes, little-endian. */
  function U64Le(x: u64): (b: seq<byte>)
    ensures |b| == 8 && FromLe(b) == x
  {
    Pow256Widths();
    FromLeLeBytes(x, 8);
    LeBytes(x, 8)
  }

  predicate IsAscii(s: string)
  {
    forall i | 0 <= i < |s| :: s[i] as int < 128
  }

  /** Go's `[]byte(s)` for an ASCII literal. */
  function Ascii(s: string): (b: seq<byte>)
    requires IsAscii(s)
    ensures |b| == |s|
  {
    seq(|s|, i requires 0 <= i < |s| => s[i] as int)
  }
}

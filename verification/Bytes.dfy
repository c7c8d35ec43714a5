/** Fixed-width integers as bytes: little-endian u32 (the vault header) and big-endian u64 (the TOTP counter). */
module Bytes {

  type Byte = b: int | 0 <= b < 0x100

  type U32 = n: int | 0 <= n < 0x1_0000_0000

  type U64 = n: int | 0 <= n < 0x1_0000_0000_0000_0000

  /** `u32::to_le_bytes`. */
  function LeBytes(n: U32): (bs: seq<Byte>)
    ensures |bs| == 4
  {
    [n % 0x100, n / 0x100 % 0x100, n / 0x1_0000 % 0x100, n / 0x100_0000]
  }

  /** `u32::from_le_bytes`. */
  function FromLe(bs: seq<Byte>): U32
    requires |bs| == 4
  {
    var b0: int, b1: int, b2: int, b3: int := bs[0], bs[1], bs[2], bs[3];
    b0 + 0x100 * b1 + 0x1_0000 * b2 + 0x100_0000 * b3
  }

  lemma FromLeLeBytes(n: U32)
    ensures FromLe(LeBytes(n)) == n
  {
    assert n / 0x1_0000 == n / 0x100 / 0x100 && n / 0x100_0000 == n / 0x1_0000 / 0x100;
  }

  /** Reading four bytes and writing them back gives the same four bytes. */
  lemma LeBytesFromLe(bs: seq<Byte>)
    requires |bs| == 4
    ensures LeBytes(FromLe(bs)) == bs
  {
    var n := FromLe(bs);
    var b1: int, b2: int, b3: int := bs[1], bs[2], bs[3];
    assert n / 0x100 == b1 + 0x100 * b2 + 0x1_0000 * b3;
    assert n / 0x1_0000 == b2 + 0x100 * b3;
    assert n / 0x100_0000 == b3;
  }

  /** Little-endian: read backwards, the bytes are the number in base 256. */
  lemma LeIsReversedBase256(n: U32)
    ensures var b := LeBytes(n); Base256([b[3], b[2], b[1], b[0]]) == n
    ensures var b := LeBytes(n); FromLe(b) == Base256([b[3], b[2], b[1], b[0]])
  {
    FromLeLeBytes(n);
    var b := LeBytes(n);
    var r: seq<Byte> := [b[3], b[2], b[1], b[0]];
    assert r[..3] == [b[3], b[2], b[1]] && r[..3][..2] == [b[3], b[2]] && r[..3][..2][..1] == [b[3]];
    assert r[..3][..2][..1][..0] == [];
    assert Base256([b[3]]) == b[3];
    assert Base256([b[3], b[2]]) == Base256([b[3]]) * 0x100 + b[2];
    assert Base256([b[3], b[2], b[1]]) == Base256([b[3], b[2]]) * 0x100 + b[1];
  }

  /** The value of a byte string read in base 256, most significant byte first. */
  function Base256(bs: seq<Byte>): nat
  {
    if bs == [] then 0 else Base256(bs[..|bs| - 1]) * 0x100 + bs[|bs| - 1]
  }

  /** The low `width` bytes of `n`, most significant first (`u64::to_be_bytes` when `width` is 8). */
  function BeBytes(n: nat, width: nat): (bs: seq<Byte>)
    ensures |bs| == width
  {
    if width == 0 then [] else BeBytes(n / 0x100, width - 1) + [n % 0x100]
  }

  function Pow256(k: nat): nat
  {
    if k == 0 then 1 else 0x100 * Pow256(k - 1)
  }

  lemma {:induction false} Base256BeBytes(n: nat, width: nat)
    requires n < Pow256(width)
    ensures Base256(BeBytes(n, width)) == n
  {
    if width > 0 {
      Base256BeBytes(n / 0x100, width - 1);
    }
  }

  lemma Pow256Eight()
    ensures Pow256(8) == 0x1_0000_0000_0000_0000
  {
    assert Pow256(4) == 0x1_0000_0000;
  }

  /** Two counters with the same eight bytes are the same counter. */
  lemma BeBytesInjective(m: U64, n: U64)
    requires BeBytes(m, 8) == BeBytes(n, 8)
    ensures m == n
  {
    Pow256Eight();
    Base256BeBytes(m, 8);
    Base256BeBytes(n, 8);
  }

  /** Byte strings of one length that are the same number are the same. */
  lemma {:induction false} Base256Injective(a: seq<Byte>, b: seq<Byte>)
    requires |a| == |b| && Base256(a) == Base256(b)
    ensures a == b
  {
    if a != [] {
      var n := |a| - 1;
      var p, q := Base256(a[..n]), Base256(b[..n]);
      var x: int, y: int := a[n], b[n];
      assert p * 0x100 + x == q * 0x100 + y;
      assert p == q && x == y;
      Base256Injective(a[..n], b[..n]);
      assert a == a[..n] + [a[n]] && b == b[..n] + [b[n]];
    }
  }
}

/** Byte strings, little-endian integers and in-place patches. */
module Bytes {

  type byte = b: int | 0 <= b < 256

  type Bytes = seq<byte>

  datatype Option<+T> = None | Some(value: T)

  const TWO_64 := 0x1_0000_0000_0000_0000

  function Zeros(n: nat): (s: Bytes)
    ensures |s| == n
  {
    seq(n, _ => 0)
  }

  /** `n` little-endian bytes of `v`, high part dropped. */
  function LittleEndian(v: nat, n: nat): (s: Bytes)
    ensures |s| == n
  {
    if n == 0 then [] else [v % 256] + LittleEndian(v / 256, n - 1)
  }

  function FromLittleEndian(s: Bytes): nat {
    if s == [] then 0 else s[0] + 256 * FromLittleEndian(s[1..])
  }

  function Pow256(n: nat): (p: nat)
    ensures p >= 1
  {
    if n == 0 then 1 else 256 * Pow256(n - 1)
  }

  lemma {:induction false} LittleEndianRoundTrip(v: nat, n: nat)
    requires v < Pow256(n)
    ensures FromLittleEndian(LittleEndian(v, n)) == v
  {
    if n > 0 {
      assert v / 256 < Pow256(n - 1);
      LittleEndianRoundTrip(v / 256, n - 1);
      assert LittleEndian(v, n)[1..] == LittleEndian(v / 256, n - 1);
    }
  }

  lemma {:induction false} FromLittleEndianRoundTrip(s: Bytes)
    ensures LittleEndian(FromLittleEndian(s), |s|) == s
  {
    if s != [] {
      FromLittleEndianRoundTrip(s[1..]);
      var v := FromLittleEndian(s);
      assert v % 256 == s[0] && v / 256 == FromLittleEndian(s[1..]);
      assert [s[0]] + s[1..] == s;
    }
  }

  /** `writeI64`: the two's complement of a 64-bit value. */
  function I64(v: int): (s: Bytes)
    ensures |s| == 8
  {
    LittleEndian(v % TWO_64, 8)
  }

  /** `readI64`. */
  function ReadI64(s: Bytes): int
    requires |s| == 8
  {
    var u := FromLittleEndian(s);
    if u < TWO_64 / 2 then u else u - TWO_64
  }

  lemma I64RoundTrip(v: int)
    requires -(TWO_64 / 2) <= v < TWO_64 / 2
    ensures ReadI64(I64(v)) == v
  {
    assert Pow256(8) == TWO_64 by {
      assert Pow256(2) == 0x1_0000 && Pow256(4) == 0x1_0000_0000 && Pow256(6) == 0x1_0000_0000_0000;
    }
    LittleEndianRoundTrip(v % TWO_64, 8);
    assert v >= 0 ==> v % TWO_64 == v;
    assert v < 0 ==> v % TWO_64 == v + TWO_64;
  }

  // ----- Patches -----------------------------------------------------------------------

  /** The bytes of `s` with `b` written over offset `off`. */
  function Patch(s: Bytes, off: nat, b: Bytes): (r: Bytes)
    requires off + |b| <= |s|
    ensures |r| == |s|
  {
    s[..off] + b + s[off + |b|..]
  }

  lemma PatchAdjacent(s: Bytes, off: nat, a: Bytes, b: Bytes)
    requires off + |a| + |b| <= |s|
    ensures Patch(Patch(s, off, a), off + |a|, b) == Patch(s, off, a + b)
  {
  }

  lemma PatchReads(s: Bytes, off: nat, b: Bytes)
    requires off + |b| <= |s|
    ensures Patch(s, off, b)[off..off + |b|] == b
    ensures Patch(s, off, b)[..off] == s[..off]
    ensures Patch(s, off, b)[off + |b|..] == s[off + |b|..]
  {
  }

  /** A slice that the patch does not touch. */
  lemma PatchKeeps(s: Bytes, off: nat, b: Bytes, lo: nat, hi: nat)
    requires off + |b| <= |s| && lo <= hi <= |s|
    requires hi <= off || off + |b| <= lo
    ensures Patch(s, off, b)[lo..hi] == s[lo..hi]
  {
  }

  lemma SliceOfSlice(data: Bytes, lo: nat, hi: nat, i: nat, j: nat)
    requires lo <= hi <= |data| && i <= j <= hi - lo
    ensures data[lo..hi][i..j] == data[lo + i..lo + j]
  {
    var inner, outer := data[lo..hi][i..j], data[lo + i..lo + j];
    assert forall k :: 0 <= k < j - i ==> inner[k] == data[lo + i + k] == outer[k];
    assert inner == outer;
  }

  /** `memcpy` into a buffer. */
  method Write(buf: array<byte>, off: nat, b: Bytes)
    requires off + |b| <= buf.Length
    modifies buf
    ensures buf[..] == Patch(old(buf[..]), off, b)
  {
    ghost var before := buf[..];
    var i := 0;
    while i < |b|
      invariant 0 <= i <= |b|
      invariant forall k :: 0 <= k < i ==> buf[off + k] == b[k]
      invariant forall k :: 0 <= k < buf.Length && !(off <= k < off + i) ==> buf[k] == before[k]
    {
      buf[off + i] := b[i];
      i := i + 1;
    }
    assert buf[off..off + |b|] == b;
    assert buf[..off] == before[..off];
    assert buf[off + |b|..] == before[off + |b|..];
    assert buf[..] == buf[..off] + buf[off..off + |b|] + buf[off + |b|..];
  }

  /** `memset(buf, 0, n)` over the whole buffer. */
  method Clear(buf: array<byte>)
    modifies buf
    ensures buf[..] == Zeros(buf.Length)
  {
    var i := 0;
    while i < buf.Length
      invariant 0 <= i <= buf.Length
      invariant forall k :: 0 <= k < i ==> buf[k] == 0
    {
      buf[i] := 0;
      i := i + 1;
    }
  }
}

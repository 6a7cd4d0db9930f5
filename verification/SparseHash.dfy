/** Sparse placement: the chunk of a client group from a hash of its number (`mix64` and
    `sparseChunkFor` in `SimClient.hpp`).

    64-bit words are numbers below 2^64 with the wrap-around written out; exclusive or and
    shifts are defined bit by bit.
 */
module SparseHash {
  import CubeSlots

  const WORD := 0x1_0000_0000_0000_0000

  type word = x: nat | x < WORD

  // ----- Exclusive or and shifts -------------------------------------------------------

  function Xor(a: nat, b: nat): nat
    decreases a + b
  {
    if a == 0 && b == 0 then 0 else 2 * Xor(a / 2, b / 2) + (a + b) % 2
  }

  function Shr(a: nat, k: nat): nat
    decreases k
  {
    if k == 0 then a else Shr(a / 2, k - 1)
  }

  function Pow2(n: nat): (p: nat)
    ensures p >= 1
  {
    if n == 0 then 1 else 2 * Pow2(n - 1)
  }

  lemma XorBits(a: nat, b: nat)
    ensures Xor(a, b) / 2 == Xor(a / 2, b / 2) && Xor(a, b) % 2 == (a + b) % 2
  {
  }

  lemma {:induction false} XorZero(a: nat)
    ensures Xor(a, 0) == a && Xor(a, a) == 0
    decreases a
  {
    if a > 0 {
      XorZero(a / 2);
    }
  }

  lemma {:induction false} XorCommutes(a: nat, b: nat)
    ensures Xor(a, b) == Xor(b, a)
    decreases a + b
  {
    if a > 0 || b > 0 {
      XorCommutes(a / 2, b / 2);
    }
  }

  lemma {:induction false} XorAssociates(a: nat, b: nat, c: nat)
    ensures Xor(Xor(a, b), c) == Xor(a, Xor(b, c))
    decreases a + b + c
  {
    hide Xor;
    if a == 0 && b == 0 && c == 0 {
      XorZero(0);
    } else {
      XorAssociates(a / 2, b / 2, c / 2);
      XorBits(a, b);
      XorBits(b, c);
      Parity(Xor(a, b), a + b, c);
      Parity(Xor(b, c), b + c, a);
      XorBits(Xor(a, b), c);
      XorBits(a, Xor(b, c));
      Halves(Xor(Xor(a, b), c), Xor(a, Xor(b, c)));
    }
  }

  lemma Parity(x: nat, y: nat, c: nat)
    requires x % 2 == y % 2
    ensures (x + c) % 2 == (y + c) % 2 && (c + x) % 2 == (c + y) % 2
  {
  }

  lemma Halves(a: nat, b: nat)
    requires a / 2 == b / 2 && a % 2 == b % 2
    ensures a == b
  {
  }

  lemma {:induction false} XorBelow(a: nat, b: nat, n: nat)
    requires a < Pow2(n) && b < Pow2(n)
    ensures Xor(a, b) < Pow2(n)
    decreases n
  {
    if n > 0 {
      XorBelow(a / 2, b / 2, n - 1);
      XorBits(a, b);
    }
  }

  lemma {:induction false} ShrXor(a: nat, b: nat, k: nat)
    ensures Shr(Xor(a, b), k) == Xor(Shr(a, k), Shr(b, k))
    decreases k
  {
    if k > 0 {
      XorBits(a, b);
      ShrXor(a / 2, b / 2, k - 1);
    }
  }

  lemma {:induction false} ShrShr(a: nat, j: nat, k: nat)
    ensures Shr(Shr(a, j), k) == Shr(a, j + k)
    decreases j
  {
    if j > 0 {
      ShrShr(a / 2, j - 1, k);
    }
  }

  lemma {:induction false} ShrBelow(a: nat, k: nat, n: nat)
    requires a < Pow2(n)
    ensures Shr(a, k) < Pow2(n)
    ensures k >= n ==> Shr(a, k) == 0
    decreases k
  {
    if k > 0 {
      ShrBelow(a / 2, k - 1, if n == 0 then 0 else n - 1);
    }
  }

  lemma WordIsPow2()
    ensures Pow2(64) == WORD
  {
    assert Pow2(8) == 256;
    PowAdds(8, 8);
    PowAdds(16, 16);
    PowAdds(32, 32);
  }

  lemma {:induction false} PowAdds(m: nat, n: nat)
    ensures Pow2(m + n) == Pow2(m) * Pow2(n)
    decreases m
  {
    if m > 0 {
      PowAdds(m - 1, n);
      assert 2 * (Pow2(m - 1) * Pow2(n)) == (2 * Pow2(m - 1)) * Pow2(n);
    }
  }

  // ----- The hash ----------------------------------------------------------------------

  /** x ^ (x >> k). */
  function Folded(x: word, k: nat): word {
    WordIsPow2();
    ShrBelow(x, k, 64);
    XorBelow(x, Shr(x, k), 64);
    Xor(x, Shr(x, k))
  }

  /** y ^ (y >> k) ^ (y >> 2k). */
  function Unfolded(y: word, k: nat): word {
    WordIsPow2();
    ShrBelow(y, 2 * k, 64);
    XorBelow(Folded(y, k), Shr(y, 2 * k), 64);
    Xor(Folded(y, k), Shr(y, 2 * k))
  }

  function Scaled(x: word, factor: nat): word {
    (x * factor) % WORD
  }

  /** splitmix64. */
  function Mix64(x: word): word {
    var a := (x + 0x9E3779B97F4A7C15) % WORD;
    var b := Scaled(Folded(a, 30), 0xBF58476D1CE4E5B9);
    var c := Scaled(Folded(b, 27), 0x94D049BB133111EB);
    Folded(c, 31)
  }

  function Unmix64(y: word): word {
    var c := Unfolded(y, 31);
    var b := Unfolded(Scaled(c, 0x319642B2D24D8EC3), 27);
    var a := Unfolded(Scaled(b, 0x96DE1B173F119089), 30);
    (a - 0x9E3779B97F4A7C15) % WORD
  }

  /** Three shifts of at least 64 bits in all: folding is undone by folding twice more. */
  lemma FoldUnfolds(x: word, k: nat)
    requires 3 * k >= 64
    ensures Unfolded(Folded(x, k), k) == x
  {
    var x1, x2, x3 := Shr(x, k), Shr(x, 2 * k), Shr(x, 3 * k);
    var y := Folded(x, k);
    WordIsPow2();
    ShrBelow(x, 3 * k, 64);
    ShrXor(x, x1, k);
    ShrShr(x, k, k);
    ShrXor(x, x1, 2 * k);
    ShrShr(x, k, 2 * k);
    assert Shr(y, k) == Xor(x1, x2) && Shr(y, 2 * k) == Xor(x2, x3) == Xor(x2, 0);
    XorZero(x2);
    Cancels(x, x1, x2);
    Cancels(x, x2, 0);
    XorZero(x);
  }

  /** (x ^ s) ^ (s ^ t) == x ^ t. */
  lemma Cancels(x: nat, s: nat, t: nat)
    ensures Xor(Xor(x, s), Xor(s, t)) == Xor(x, t)
    ensures Xor(Xor(x, s), s) == x
  {
    XorAssociates(x, s, Xor(s, t));
    XorAssociates(s, s, t);
    XorZero(s);
    XorCommutes(0, t);
    XorZero(t);
    XorAssociates(x, s, s);
    XorZero(x);
  }

  lemma ScaleUndone(x: word, c: nat, d: nat)
    requires (c * d) % WORD == 1
    ensures Scaled(Scaled(x, c), d) == x
  {
    var q, k := (x * c) / WORD, (c * d) / WORD;
    assert x * c == q * WORD + (x * c) % WORD && c * d == k * WORD + 1;
    assert ((x * c) % WORD) * d == x * (c * d) - q * d * WORD;
    assert x * (c * d) - q * d * WORD == (x * k - q * d) * WORD + x;
    CubeSlots.ModUnique(((x * c) % WORD) * d, WORD, x * k - q * d, x);
  }

  /** The hash loses nothing: it can be undone on every word. */
  lemma MixRoundTrip(x: word)
    ensures Unmix64(Mix64(x)) == x
  {
    hide Folded, Unfolded, Scaled;
    var a := (x + 0x9E3779B97F4A7C15) % WORD;
    var b := Scaled(Folded(a, 30), 0xBF58476D1CE4E5B9);
    var c := Scaled(Folded(b, 27), 0x94D049BB133111EB);
    FoldUnfolds(c, 31);
    ScaleUndone(Folded(b, 27), 0x94D049BB133111EB, 0x319642B2D24D8EC3);
    FoldUnfolds(b, 27);
    ScaleUndone(Folded(a, 30), 0xBF58476D1CE4E5B9, 0x96DE1B173F119089);
    FoldUnfolds(a, 30);
  }

  // ----- Chunks ------------------------------------------------------------------------

  /** C++ integer division, which cuts toward zero. */
  function Quotient(a: int, b: int): int
    requires b >= 1
  {
    if a >= 0 then a / b else -((-a) / b)
  }

  /** The number of a client's group, as the unsigned word it is cast to; a group size below
      one means one client per group. */
  function GroupOf(index: int, group: int): word {
    Quotient(index, if group < 1 then 1 else group) % WORD
  }

  datatype SparseChunk = SparseChunk(c1: int, c2: int)

  /** The two words hashed for a group. */
  function Seed(slot: word, axis: nat): word {
    (slot * 2 + axis) % WORD
  }

  function SparseChunkFor(range: int, group: int, index: int): (c: SparseChunk)
    requires range >= 0
    ensures -range <= c.c1 <= range && -range <= c.c2 <= range
  {
    var slot, span := GroupOf(index, group), 2 * range + 1;
    SparseChunk(Mix64(Seed(slot, 1)) % span - range, Mix64(Seed(slot, 2)) % span - range)
  }

  /** No two groups share a hashed word, on either axis or across them: chunks coincide only
      where the reduction to the span makes them.  (The last group number is out of reach: an
      index is an `int`.) */
  lemma GroupsHashApart(a: word, b: word, u: nat, v: nat)
    requires 2 * a + 2 < WORD && 2 * b + 2 < WORD && 1 <= u <= 2 && 1 <= v <= 2
    ensures Mix64(Seed(a, u)) == Mix64(Seed(b, v)) <==> a == b && u == v
  {
    hide Mix64, Unmix64;
    MixRoundTrip(Seed(a, u));
    MixRoundTrip(Seed(b, v));
  }

  lemma GroupIsQuotient(group: int, index: nat, slot: nat)
    requires group >= 1 && slot == index / group && 2 * slot + 2 < WORD
    ensures GroupOf(index, group) == slot && Seed(slot, 1) == 2 * slot + 1 && Seed(slot, 2) == 2 * slot + 2
  {
  }

  /** The first axis takes the odd word of the group, the second the even one. */
  lemma AxesTakeTheirWords(range: int, group: int, index: nat, slot: nat)
    requires range >= 0 && group >= 1 && slot == index / group && 2 * slot + 2 < WORD
    ensures SparseChunkFor(range, group, index).c1 + range == Mix64(2 * slot + 1) % (2 * range + 1)
    ensures SparseChunkFor(range, group, index).c2 + range == Mix64(2 * slot + 2) % (2 * range + 1)
  {
    hide Mix64, GroupOf, Seed;
    GroupIsQuotient(group, index, slot);
  }

  /** The members of a group stand in one chunk. */
  lemma GroupSharesChunk(range: int, group: int, k: nat, i: nat, j: nat)
    requires range >= 0 && group >= 1 && i < group && j < group
    ensures SparseChunkFor(range, group, k * group + i) == SparseChunkFor(range, group, k * group + j)
  {
    hide Mix64;
    CubeSlots.ModUnique(k * group + i, group, k, i);
    CubeSlots.ModUnique(k * group + j, group, k, j);
  }
}

/** `SimClient::placeInCube`: which cell of the n x n x n cube a global client index takes.

    The slot number is multiplied by 1 + n + n^2 modulo n^3 before the mixed-radix split.
    (1 + n + n^2)(1 - n) = 1 - n^3, so multiplication by 1 - n undoes it; both round trips
    are proved and give the bijection for every cube width.
 */
module CubeSlots {

  datatype Cell = Cell(i1: int, iup: int, i2: int)

  ghost predicate InCube(n: nat, c: Cell) {
    0 <= c.i1 < n && 0 <= c.iup < n && 0 <= c.i2 < n
  }

  function Slots(n: nat): nat {
    n * n * n
  }

  function Multiplier(n: nat): nat {
    1 + n + n * n
  }

  /** The C++ remainder, which truncates toward zero. */
  function TruncMod(a: int, m: int): int
    requires m > 0
  {
    if a >= 0 then a % m else -((-a) % m)
  }

  function Raw(n: nat, index: int): int
    requires Slots(n) > 0
  {
    TruncMod(TruncMod(index, Slots(n)) + Slots(n), Slots(n))
  }

  function Scramble(n: nat, raw: int): int
    requires Slots(n) > 0
  {
    (raw * Multiplier(n)) % Slots(n)
  }

  function SplitCell(n: nat, idx: int): Cell
    requires n > 0 && n * n > 0
  {
    Cell(idx % n, (idx / n) % n, (idx / (n * n)) % n)
  }

  function CellOf(n: nat, index: int): Cell
    requires n > 0 && n * n > 0 && Slots(n) > 0
  {
    SplitCell(n, Scramble(n, Raw(n, index)))
  }

  // ----- The inverse -------------------------------------------------------------------

  function Unscramble(n: nat, x: int): int
    requires Slots(n) > 0
  {
    (x * (1 - n)) % Slots(n)
  }

  function Flatten(n: nat, c: Cell): int {
    c.i1 + n * c.iup + n * n * c.i2
  }

  /** The one index in [base, base + n^3) that takes cell `c`. */
  function Owner(n: nat, base: int, c: Cell): int
    requires Slots(n) > 0
  {
    base + (Unscramble(n, Flatten(n, c)) - base) % Slots(n)
  }

  // ----- Arithmetic --------------------------------------------------------------------

  lemma Positive(n: nat)
    requires n >= 1
    ensures n * n >= n && Slots(n) >= n * n && Slots(n) > 0
  {
    assert n * n >= n;
    assert n * n * n >= n * n;
  }

  lemma ModUnique(a: int, m: int, q: int, r: int)
    requires m > 0 && a == q * m + r && 0 <= r < m
    ensures a % m == r && a / m == q
  {
    var d := a / m - q;
    assert d * m == r - a % m by {
      assert a == (a / m) * m + a % m;
      assert (a / m - q) * m == (a / m) * m - q * m;
    }
    assert d >= 1 ==> d * m >= m;
    assert d <= -1 ==> d * m <= -m;
  }

  lemma InversePair(n: nat)
    ensures Multiplier(n) * (1 - n) == 1 - Slots(n)
  {
    var q := n * n;
    calc {
      (1 + n + q) * (1 - n);
      (1 - n) + n * (1 - n) + q * (1 - n);
      (1 - n) + (n - q) + (q - q * n);
      1 - q * n;
    }
  }

  lemma Regroup(s: int, m: int, k: int, x: int, q: int)
    requires m * k == 1 - s
    ensures (x * k - q * s) * m == (-x - q * m) * s + x
  {
    calc {
      (x * k - q * s) * m;
      { assert x * k * m == x * (m * k); assert q * s * m == q * m * s; }
      x * (1 - s) - q * m * s;
      x - x * s - q * m * s;
      (-x - q * m) * s + x;
    }
  }

  /** Multiplying by `k` and then by `m` modulo `s` is the identity when m * k = 1 - s. */
  lemma InverseModulo(s: int, m: int, k: int, x: int)
    requires s > 0 && m * k == 1 - s && 0 <= x < s
    ensures ((x * k) % s * m) % s == x
  {
    var y := x * k;
    var q, r := y / s, y % s;
    assert r == y - q * s;
    Regroup(s, m, k, x, q);
    ModUnique(r * m, s, -x - q * m, x);
  }

  lemma ScrambleUnscramble(n: nat, x: int)
    requires Slots(n) > 0 && 0 <= x < Slots(n)
    ensures Scramble(n, Unscramble(n, x)) == x
  {
    InversePair(n);
    InverseModulo(Slots(n), Multiplier(n), 1 - n, x);
  }

  lemma UnscrambleScramble(n: nat, raw: int)
    requires Slots(n) > 0 && 0 <= raw < Slots(n)
    ensures Unscramble(n, Scramble(n, raw)) == raw
  {
    InversePair(n);
    InverseModulo(Slots(n), 1 - n, Multiplier(n), raw);
  }

  /** For any index, negative ones included, the double remainder is the true residue. */
  lemma RawIsResidue(n: nat, index: int)
    requires Slots(n) > 0
    ensures Raw(n, index) == index % Slots(n)
  {
    var s := Slots(n);
    if index >= 0 {
      var r := index % s;
      ModUnique(r + s, s, 1, r);
    } else {
      var t := (-index) % s;
      var q := (-index) / s;
      assert index == -q * s - t by {
        assert -index == q * s + t;
      }
      if t == 0 {
        ModUnique(index, s, -q, 0);
        ModUnique(s, s, 1, 0);
      } else {
        assert index == (-q - 1) * s + (s - t) by {
          assert (-q - 1) * s == -q * s - s;
        }
        ModUnique(index, s, -q - 1, s - t);
        ModUnique(s - t, s, 0, s - t);
      }
    }
  }

  lemma DigitBound(q: int, n: int, low: int, d: int)
    requires 0 <= low < q && 0 <= d < n
    ensures 0 <= low + q * d < q * n
  {
    assert q * d <= q * (n - 1);
  }

  lemma ThreeDigits(n: int, a: int, b: int, c: int)
    requires n > 0 && 0 <= a < n && 0 <= b < n && 0 <= c < n
    ensures a + n * b + n * n * c == (b + n * c) * n + a
    ensures a + n * b + n * n * c == c * (n * n) + (a + n * b)
    ensures 0 <= a + n * b < n * n
    ensures 0 <= a + n * b + n * n * c < n * n * n
  {
    DigitBound(n, n, a, b);
    DigitBound(n * n, n, a + n * b, c);
    assert n * n * c == n * c * n;
  }

  lemma SplitFlatten(n: nat, c: Cell)
    requires n > 0 && n * n > 0 && InCube(n, c)
    ensures SplitCell(n, Flatten(n, c)) == c
    ensures 0 <= Flatten(n, c) < Slots(n)
  {
    var idx := Flatten(n, c);
    ThreeDigits(n, c.i1, c.iup, c.i2);
    ModUnique(idx, n, c.iup + n * c.i2, c.i1);
    ModUnique(c.iup + n * c.i2, n, c.i2, c.iup);
    ModUnique(idx, n * n, c.i2, c.i1 + n * c.iup);
    ModUnique(c.i2, n, 0, c.i2);
  }

  lemma QuotientBelow(n: int, q: int, idx: int, t: int, low: int)
    requires n > 0 && q > 0 && idx == t * q + low && 0 <= low < q && 0 <= idx < n * q
    ensures 0 <= t < n
  {
    assert t >= n ==> t * q >= n * q;
    assert t <= -1 ==> t * q <= -q;
  }

  lemma FlattenSplit(n: nat, idx: int)
    requires n > 0 && n * n > 0 && 0 <= idx < Slots(n)
    ensures Flatten(n, SplitCell(n, idx)) == idx && InCube(n, SplitCell(n, idx))
  {
    var h := idx / n;
    var a, b, t := idx % n, h % n, h / n;
    assert idx == (b + n * t) * n + a;
    ThreeDigits(n, a, b, 0);
    assert idx == t * (n * n) + (a + n * b) by {
      assert (b + n * t) * n == n * b + t * (n * n);
    }
    ModUnique(idx, n * n, t, a + n * b);
    assert Slots(n) == n * (n * n);
    QuotientBelow(n, n * n, idx, t, a + n * b);
    ModUnique(t, n, 0, t);
    assert n * n * t == t * (n * n);
  }

  // ----- The bijection -----------------------------------------------------------------

  lemma CellInCube(n: nat, index: int)
    requires n >= 1 && n * n > 0 && Slots(n) > 0
    ensures InCube(n, CellOf(n, index))
  {
    FlattenSplit(n, Scramble(n, Raw(n, index)));
  }

  lemma ResidueInWindow(s: int, base: int, r: int)
    requires s > 0 && 0 <= r < s
    ensures (base + (r - base) % s) % s == r
  {
    var d := r - base;
    assert d == (d / s) * s + d % s;
    assert base + d % s == r - (d / s) * s;
    assert r - (d / s) * s == (-(d / s)) * s + r;
    ModUnique(base + d % s, s, -(d / s), r);
  }

  lemma WindowResidueInjective(s: int, base: int, i: int, j: int)
    requires s > 0 && base <= i < base + s && base <= j < base + s && i % s == j % s
    ensures i == j
  {
    var d := i / s - j / s;
    assert i - j == d * s by {
      assert i == (i / s) * s + i % s && j == (j / s) * s + j % s;
      assert d * s == (i / s) * s - (j / s) * s;
    }
    assert d >= 1 ==> d * s >= s;
    assert d <= -1 ==> d * s <= -s;
  }

  /** Every cell has an owner among any n^3 consecutive indices. */
  lemma OwnerTakesCell(n: nat, base: int, c: Cell)
    requires n >= 1 && n * n > 0 && Slots(n) > 0 && InCube(n, c)
    ensures base <= Owner(n, base, c) < base + Slots(n)
    ensures CellOf(n, Owner(n, base, c)) == c
  {
    var s := Slots(n);
    SplitFlatten(n, c);
    var raw := Unscramble(n, Flatten(n, c));
    ScrambleUnscramble(n, Flatten(n, c));
    RawIsResidue(n, Owner(n, base, c));
    ResidueInWindow(s, base, raw);
  }

  /** Distinct indices of one window take distinct cells. */
  lemma DistinctCells(n: nat, base: int, i: int, j: int)
    requires n >= 1 && n * n > 0 && Slots(n) > 0
    requires base <= i < base + Slots(n) && base <= j < base + Slots(n)
    requires CellOf(n, i) == CellOf(n, j)
    ensures i == j
  {
    RawIsResidue(n, i);
    RawIsResidue(n, j);
    var x, y := Scramble(n, Raw(n, i)), Scramble(n, Raw(n, j));
    FlattenSplit(n, x);
    FlattenSplit(n, y);
    UnscrambleScramble(n, Raw(n, i));
    UnscrambleScramble(n, Raw(n, j));
    WindowResidueInjective(Slots(n), base, i, j);
  }

  /** Any n^3 consecutive indices fill the cube exactly: every cell is taken by one and
      only one of them. */
  lemma WindowFillsCube(n: nat, base: int)
    requires n >= 1
    ensures n * n > 0 && Slots(n) > 0
    ensures forall i :: base <= i < base + Slots(n) ==> InCube(n, CellOf(n, i))
    ensures forall c :: InCube(n, c) ==>
              exists i :: base <= i < base + Slots(n) && CellOf(n, i) == c
    ensures forall i, j :: base <= i < j < base + Slots(n) ==> CellOf(n, i) != CellOf(n, j)
  {
    Positive(n);
    forall i | base <= i < base + Slots(n)
      ensures InCube(n, CellOf(n, i))
    {
      CellInCube(n, i);
    }
    forall c | InCube(n, c)
      ensures exists i :: base <= i < base + Slots(n) && CellOf(n, i) == c
    {
      OwnerTakesCell(n, base, c);
    }
    forall i, j | base <= i < j < base + Slots(n)
      ensures CellOf(n, i) != CellOf(n, j)
    {
      if CellOf(n, i) == CellOf(n, j) {
        DistinctCells(n, base, i, j);
      }
    }
  }

  /** The first n clients walk the diagonal, so they already reach every column of all
      three axes. */
  lemma FirstClientsSpread(n: nat, k: nat)
    requires k < n
    ensures n * n > 0 && Slots(n) > 0 && CellOf(n, k) == Cell(k, k, k)
  {
    Positive(n);
    RawIsResidue(n, k);
    ModUnique(k, Slots(n), 0, k);
    var diagonal := Cell(k, k, k);
    assert Flatten(n, diagonal) == k * Multiplier(n) by {
      assert k * (1 + n + n * n) == k + k * n + k * (n * n);
    }
    SplitFlatten(n, diagonal);
    ModUnique(k * Multiplier(n), Slots(n), 0, k * Multiplier(n));
  }
}

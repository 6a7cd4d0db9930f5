/** The latency histogram and the percentile read from it (`Stats.cpp`).

    Percentiles are computed over `real` where the program uses double.
 */
module Percentile {

  const BUCKETS := 23

  const BOUNDS: seq<nat> := [1, 2, 3, 4, 5, 7, 10, 15, 20, 25, 30, 40, 50, 75, 100, 150, 200, 250, 400, 600, 1000, 2000]

  const CEILING := 4000

  type Histogram = h: seq<nat> | |h| == BUCKETS witness seq(BUCKETS, _ => 0)

  /** Lower edge of a bucket. */
  function Lo(b: nat): (lo: nat)
    requires b <= BUCKETS
    ensures lo <= CEILING
  {
    if b == 0 then 0 else if b < BUCKETS then BOUNDS[b - 1] else CEILING
  }

  /** Upper edge: the next bound; the open-ended last bucket is closed at twice its lower edge. */
  function Hi(b: nat): (hi: nat)
    requires b < BUCKETS
    ensures hi == Lo(b + 1) && Lo(b) < hi <= CEILING
  {
    if b < BUCKETS - 1 then BOUNDS[b] else BOUNDS[BUCKETS - 2] * 2
  }

  lemma {:induction false} EdgesSorted(a: nat, b: nat)
    requires a <= b <= BUCKETS
    ensures Lo(a) <= Lo(b)
    decreases b
  {
    if a < b {
      EdgesSorted(a, b - 1);
      assert Hi(b - 1) == Lo(b);
    }
  }

  // ----- Recording ---------------------------------------------------------------------

  /** A latency belongs to a bucket: at or above its lower edge and, unless it is the last,
      below its upper edge. */
  predicate Belongs(ms: nat, b: nat) {
    b < BUCKETS && Lo(b) <= ms && (b < BUCKETS - 1 ==> ms < Hi(b))
  }

  lemma BelongsOnce(ms: nat, a: nat, b: nat)
    requires Belongs(ms, a) && Belongs(ms, b)
    ensures a == b
  {
    if a < b {
      EdgesSorted(a + 1, b);
    } else if b < a {
      EdgesSorted(b + 1, a);
    }
  }

  /** Negative latencies (clock skew) are recorded as 0. */
  function Clamped(ms: int): nat {
    if ms < 0 then 0 else ms
  }

  function BucketFrom(ms: nat, i: nat): (b: nat)
    requires i <= BUCKETS - 1 && Lo(i) <= ms
    ensures Belongs(ms, b)
    decreases BUCKETS - i, ms
  {
    if i == BUCKETS - 1 || ms < BOUNDS[i] then i else BucketFrom(ms, i + 1)
  }

  function BucketOf(ms: int): (b: nat)
    ensures Belongs(Clamped(ms), b)
  {
    BucketFrom(Clamped(ms), 0)
  }

  /** The bucket search of `recordLatencyMs`. */
  method FindBucket(ms: nat) returns (bucket: nat)
    ensures bucket == BucketOf(ms)
  {
    bucket := BUCKETS - 1;
    for i := 0 to BUCKETS - 1
      invariant bucket == BUCKETS - 1 && Lo(i) <= ms
    {
      if ms < BOUNDS[i] {
        bucket := i;
        break;
      }
    }
    BelongsOnce(ms, bucket, BucketOf(ms));
  }

  function Recorded(h: Histogram, ms: int): Histogram {
    h[BucketOf(ms) := h[BucketOf(ms)] + 1]
  }

  function EmptyHistogram(): Histogram {
    seq(BUCKETS, _ => 0)
  }

  function HistogramOf(latencies: seq<int>): Histogram {
    if latencies == [] then EmptyHistogram()
    else Recorded(HistogramOf(latencies[..|latencies| - 1]), latencies[|latencies| - 1])
  }

  // ----- Reading a percentile ----------------------------------------------------------

  /** Samples in the first `b` buckets. */
  function Cum(h: Histogram, b: nat): nat
    requires b <= BUCKETS
  {
    if b == 0 then 0 else Cum(h, b - 1) + h[b - 1]
  }

  function Unit(p: real): real {
    if p < 0.0 then 0.0 else if p > 1.0 then 1.0 else p
  }

  function Times(f: real, w: real): real {
    f * w
  }

  /** The rank aimed at, as a real number. */
  function Target(samples: nat, p: real): (t: real)
    ensures t >= 1.0
  {
    var t := Times(Unit(p), samples as real);
    if t < 1.0 then 1.0 else t
  }

  /** The first bucket, from `b` on, that reaches the target; the last if none does. */
  function Reaching(h: Histogram, t: real, b: nat): (r: nat)
    requires b < BUCKETS
    ensures b <= r < BUCKETS
    ensures r < BUCKETS - 1 ==> Cum(h, r + 1) as real >= t
    ensures forall c :: b < c <= r ==> (Cum(h, c) as real) < t
    decreases |h| - b
  {
    if Cum(h, b + 1) as real >= t || b == BUCKETS - 1 then b else Reaching(h, t, b + 1)
  }

  /** How far into a bucket holding `n` samples, `before` of them below it, the target lies. */
  function Fraction(t: real, before: nat, n: nat): (f: real)
    requires n > 0
    ensures 0.0 <= f <= 1.0
  {
    Unit((t - before as real) / n as real)
  }

  function Between(lo: nat, hi: nat, f: real): real {
    lo as real + Times(f, (hi - lo) as real)
  }

  lemma BetweenBounds(lo: nat, hi: nat, f: real, g: real)
    requires lo <= hi && 0.0 <= f <= g <= 1.0
    ensures lo as real <= Between(lo, hi, f) <= Between(lo, hi, g) <= hi as real
  {
    var w := (hi - lo) as real;
    Scaled(f, g, w);
    Scaled(g, 1.0, w);
    Scaled(0.0, f, w);
  }

  lemma Scaled(f: real, g: real, w: real)
    requires f <= g && w >= 0.0
    ensures Times(f, w) <= Times(g, w)
  {
  }

  /** The value read from a bucket with edges `lo` and `hi`. */
  function Read(t: real, lo: nat, hi: nat, before: nat, n: nat): real {
    if n == 0 then hi as real else Between(lo, hi, Fraction(t, before, n))
  }

  function InBucket(h: Histogram, t: real, b: nat): real
    requires b < BUCKETS
  {
    Read(t, Lo(b), Hi(b), Cum(h, b), h[b])
  }

  function PercentileOf(samples: nat, h: Histogram, p: real): real {
    if samples == 0 then 0.0 else InBucket(h, Target(samples, p), Reaching(h, Target(samples, p), 0))
  }

  method PercentileMs(samples: nat, h: Histogram, p: real) returns (value: real)
    ensures value == PercentileOf(samples, h, p)
  {
    if samples == 0 {
      return 0.0;
    }
    var target := AimAt(samples, p);
    var cum, lo, i := 0, 0, 0;
    while true
      invariant i < BUCKETS && cum == Cum(h, i) && lo == Lo(i)
      invariant Reaching(h, target, i) == Reaching(h, target, 0)
      decreases BUCKETS - i
    {
      var n := h[i];
      var hi := if i < BUCKETS - 1 then BOUNDS[i] else BOUNDS[BUCKETS - 2] * 2;
      assert hi == Hi(i) && Cum(h, i + 1) == cum + n;
      if (cum + n) as real >= target || i == BUCKETS - 1 {
        value := Interpolate(target, lo, hi, cum, n);
        return;
      }
      cum := cum + n;
      lo := hi;
      i := i + 1;
    }
  }

  method AimAt(samples: nat, p: real) returns (target: real)
    ensures target == Target(samples, p)
  {
    var q := p;
    if q < 0.0 {
      q := 0.0;
    }
    if q > 1.0 {
      q := 1.0;
    }
    target := Times(q, samples as real);
    if target < 1.0 {
      target := 1.0;
    }
  }

  method Interpolate(target: real, lo: nat, hi: nat, cum: nat, n: nat) returns (value: real)
    ensures value == Read(target, lo, hi, cum, n)
  {
    if n == 0 {
      return hi as real;
    }
    var frac := (target - cum as real) / n as real;
    if frac < 0.0 {
      frac := 0.0;
    }
    if frac > 1.0 {
      frac := 1.0;
    }
    return lo as real + Times(frac, (hi - lo) as real);
  }

  // ----- Any histogram: bounded and monotone -------------------------------------------

  lemma InBucketBounds(h: Histogram, t: real, b: nat)
    requires b < BUCKETS
    ensures Lo(b) as real <= InBucket(h, t, b) <= Hi(b) as real
  {
    if h[b] > 0 {
      var f := Fraction(t, Cum(h, b), h[b]);
      BetweenBounds(Lo(b), Hi(b), f, f);
    }
  }

  lemma QuotientMonotone(t: real, u: real, n: nat)
    requires t <= u && n > 0
    ensures t / n as real <= u / n as real
  {
    var m := n as real;
    assert t == (t / m) * m && u == (u / m) * m;
    if t / m > u / m {
      Strictly(u / m, t / m, m);
    }
  }

  lemma Strictly(f: real, g: real, w: real)
    requires f < g && w > 0.0
    ensures f * w < g * w
  {
  }

  lemma InBucketMonotone(h: Histogram, t: real, u: real, b: nat)
    requires b < BUCKETS && t <= u
    ensures InBucket(h, t, b) <= InBucket(h, u, b)
  {
    if h[b] > 0 {
      QuotientMonotone(t - Cum(h, b) as real, u - Cum(h, b) as real, h[b]);
      BetweenBounds(Lo(b), Hi(b), Fraction(t, Cum(h, b), h[b]), Fraction(u, Cum(h, b), h[b]));
    }
  }

  lemma TargetMonotone(samples: nat, p: real, q: real)
    requires p <= q
    ensures Target(samples, p) <= Target(samples, q)
  {
    Scaled(Unit(p), Unit(q), samples as real);
  }

  /** For any histogram at all, even one read while samples were being recorded: percentiles
      stay within [0, 4000] and never decrease in p. */
  lemma PercentilesAreMonotone(samples: nat, h: Histogram, p: real, q: real)
    requires p <= q
    ensures 0.0 <= PercentileOf(samples, h, p) <= PercentileOf(samples, h, q) <= CEILING as real
  {
    if samples > 0 {
      var t, u := Target(samples, p), Target(samples, q);
      var b, c := Reaching(h, t, 0), Reaching(h, u, 0);
      TargetMonotone(samples, p, q);
      InBucketBounds(h, t, b);
      InBucketBounds(h, u, c);
      if b < c {
        EdgesSorted(b + 1, c);
      } else {
        InBucketMonotone(h, t, u, b);
      }
    }
  }

  // ----- Any histogram: the interpolation ----------------------------------------------

  /** The interpolation, without the division: the value lies as far between the edges `lo` and
      `hi` of a bucket as the target lies between the samples before it and those up to its end;
      a target beyond them gives the edge, and an empty bucket its upper one. */
  predicate Interpolates(v: real, t: real, lo: nat, hi: nat, before: nat, n: nat) {
    if n == 0 then v == hi as real
    else if t < before as real then v == lo as real
    else if t > (before + n) as real then v == hi as real
    else (v - lo as real) * n as real == (t - before as real) * (hi as real - lo as real)
  }

  lemma ReadLaw(t: real, lo: nat, hi: nat, before: nat, n: nat)
    requires lo <= hi
    ensures Interpolates(Read(t, lo, hi, before, n), t, lo, hi, before, n)
  {
    if n > 0 {
      hide Times, Between;
      var a, w := t - before as real, (hi - lo) as real;
      QuotientPlace(a, n as real);
      EdgesRead(lo, hi);
      if 0.0 <= a <= n as real {
        var f := Fraction(t, before, n);
        ShareScales(f, w, n as real, a);
        BetweenIs(lo, hi, f);
      }
    }
  }

  lemma QuotientPlace(a: real, n: real)
    requires n > 0.0
    ensures a < 0.0 ==> a / n < 0.0
    ensures a > n ==> a / n > 1.0
    ensures 0.0 <= a <= n ==> 0.0 <= a / n <= 1.0
    ensures a / n * n == a
  {
    var q := a / n;
    assert q * n == a;
    assert q >= 0.0 ==> q * n >= 0.0;
    assert q <= 0.0 ==> q * n <= 0.0;
    assert (q - 1.0) * n == a - n;
    assert q <= 1.0 ==> (q - 1.0) * n <= 0.0;
    assert q > 1.0 ==> (q - 1.0) * n > 0.0;
  }

  lemma BetweenIs(lo: nat, hi: nat, f: real)
    requires lo <= hi
    ensures Between(lo, hi, f) - lo as real == f * (hi - lo) as real
  {
  }

  lemma EdgesRead(lo: nat, hi: nat)
    requires lo <= hi
    ensures Between(lo, hi, 0.0) == lo as real && Between(lo, hi, 1.0) == hi as real
  {
  }

  lemma ShareScales(f: real, w: real, n: real, a: real)
    requires f * n == a
    ensures f * w * n == a * w
  {
    assert f * w * n == (f * n) * w;
  }

  /** For any histogram the percentile is read from the first bucket that reaches the target,
      by that interpolation. */
  lemma PercentileInterpolates(samples: nat, h: Histogram, p: real, t: real, b: nat)
    requires samples > 0 && t == Target(samples, p) && b == Reaching(h, t, 0)
    ensures Interpolates(PercentileOf(samples, h, p), t, Lo(b), Hi(b), Cum(h, b), h[b])
  {
    hide Target, Lo, Hi, Cum, Reaching, Read, Interpolates;
    ReadLaw(t, Lo(b), Hi(b), Cum(h, b), h[b]);
  }

  /** The target is the share p, brought into [0, 1], of the samples, and at least one. */
  lemma TargetIsShare(samples: nat, p: real)
    ensures p <= 0.0 ==> Target(samples, p) == 1.0
    ensures p >= 1.0 && samples > 0 ==> Target(samples, p) == samples as real
    ensures 0.0 <= p <= 1.0 ==> Target(samples, p) == if p * samples as real < 1.0 then 1.0 else p * samples as real
  {
  }

  // ----- Recorded latencies: the bucket of the ranked sample ---------------------------

  function CountBelow(s: seq<int>, x: int): nat {
    if s == [] then 0 else CountBelow(s[..|s| - 1], x) + if Clamped(s[|s| - 1]) < x then 1 else 0
  }

  lemma {:induction false} CumRecorded(h: Histogram, ms: int, b: nat)
    requires b <= BUCKETS
    ensures Cum(Recorded(h, ms), b) == Cum(h, b) + if BucketOf(ms) < b then 1 else 0
    decreases b
  {
    if b > 0 {
      CumRecorded(h, ms, b - 1);
    }
  }

  lemma {:induction false} CumEmpty(b: nat)
    requires b <= BUCKETS
    ensures Cum(EmptyHistogram(), b) == 0
  {
    if b > 0 {
      CumEmpty(b - 1);
    }
  }

  /** The first b buckets hold exactly the samples below the lower edge of bucket b; all of
      them hold everything. */
  lemma {:induction false} CumCounts(latencies: seq<int>, b: nat)
    requires b <= BUCKETS
    ensures Cum(HistogramOf(latencies), b) == if b < BUCKETS then CountBelow(latencies, Lo(b)) else |latencies|
    decreases |latencies|
  {
    if latencies == [] {
      CumEmpty(b);
    } else {
      var rest, ms := latencies[..|latencies| - 1], latencies[|latencies| - 1];
      CumCounts(rest, b);
      CumRecorded(HistogramOf(rest), ms, b);
      var own := BucketOf(ms);
      if own < b {
        EdgesSorted(own + 1, b);
      } else {
        EdgesSorted(b, own);
      }
    }
  }

  ghost predicate Sorted(s: seq<int>) {
    forall i, j :: 0 <= i < j < |s| ==> s[i] <= s[j]
  }

  lemma {:induction false} CountBelowSplit(s: seq<int>, k: nat, x: int)
    requires k <= |s|
    ensures CountBelow(s, x) == CountBelow(s[..k], x) + CountBelow(s[k..], x)
    decreases |s|
  {
    if k == |s| {
      assert s[..k] == s;
    } else {
      var last := |s| - 1;
      CountBelowSplit(s[..last], k, x);
      assert s[..last][..k] == s[..k] && s[..last][k..] == s[k..][..last - k];
    }
  }

  function Without<T>(t: seq<T>, k: nat): seq<T>
    requires k < |t|
  {
    t[..k] + t[k + 1..]
  }

  lemma WithoutOne<T>(t: seq<T>, k: nat)
    requires k < |t|
    ensures multiset(Without(t, k)) == multiset(t) - multiset{t[k]}
  {
    assert t == t[..k] + [t[k]] + t[k + 1..];
  }

  lemma CountWithoutOne(t: seq<int>, k: nat, x: int)
    requires k < |t|
    ensures CountBelow(t, x) == CountBelow(Without(t, k), x) + if Clamped(t[k]) < x then 1 else 0
  {
    CountBelowSplit(Without(t, k), k, x);
    assert Without(t, k)[..k] == t[..k] && Without(t, k)[k..] == t[k + 1..];
    CountBelowSplit(t, k + 1, x);
    assert t[..k + 1][..k] == t[..k];
  }

  lemma {:induction false} CountBelowPermutes(s: seq<int>, t: seq<int>, x: int)
    requires multiset(s) == multiset(t)
    ensures CountBelow(s, x) == CountBelow(t, x)
    decreases |s|
  {
    if s == [] {
      assert |multiset(t)| == |t| == 0;
    } else {
      var last := |s| - 1;
      assert s[last] in multiset(t);
      var k :| 0 <= k < |t| && t[k] == s[last];
      WithoutOne(s, last);
      WithoutOne(t, k);
      assert Without(s, last) == s[..last];
      CountBelowPermutes(s[..last], Without(t, k), x);
      CountWithoutOne(t, k, x);
    }
  }

  /** In a sorted sequence, at least `k` values lie below `x` exactly when the k-th does. */
  lemma {:induction false} RankBelow(s: seq<int>, k: nat, x: int)
    requires Sorted(s) && 1 <= k <= |s|
    ensures CountBelow(s, x) >= k <==> Clamped(s[k - 1]) < x
    decreases |s|
  {
    var last := |s| - 1;
    if k == |s| {
      CountBelowAtMost(s[..last], x);
      if Clamped(s[last]) < x {
        CountBelowAll(s, x);
      }
    } else {
      RankBelow(s[..last], k, x);
      assert s[k - 1] <= s[last];
    }
  }

  lemma {:induction false} CountBelowAtMost(s: seq<int>, x: int)
    ensures CountBelow(s, x) <= |s|
    decreases |s|
  {
    if s != [] {
      CountBelowAtMost(s[..|s| - 1], x);
    }
  }

  lemma {:induction false} CountBelowAll(s: seq<int>, x: int)
    requires forall i :: 0 <= i < |s| ==> Clamped(s[i]) < x
    ensures CountBelow(s, x) == |s|
    decreases |s|
  {
    if s != [] {
      CountBelowAll(s[..|s| - 1], x);
    }
  }

  /** max(1, ceil(p N)), with p brought into [0, 1]. */
  function Rank(samples: nat, p: real): (k: int)
    ensures k >= 1 && (k - 1) as real < Target(samples, p) <= k as real
  {
    var t := Target(samples, p);
    -((-t).Floor)
  }

  lemma RankInRange(samples: nat, p: real)
    requires samples > 0
    ensures Rank(samples, p) <= samples
  {
    Scaled(Unit(p), 1.0, samples as real);
  }

  /** The bucket the percentile is read from is the bucket of the ranked sample. */
  lemma ReachesRankedBucket(latencies: seq<int>, sorted: seq<int>, t: real, k: nat)
    requires multiset(sorted) == multiset(latencies) && Sorted(sorted) && |sorted| == |latencies|
    requires 1 <= k <= |latencies| && (k - 1) as real < t <= k as real
    ensures Reaching(HistogramOf(latencies), t, 0) == BucketOf(sorted[k - 1])
  {
    var h, ms := HistogramOf(latencies), sorted[k - 1];
    var b := Reaching(h, t, 0);
    CumCounts(latencies, b);
    CumCounts(latencies, b + 1);
    CountBelowPermutes(latencies, sorted, Lo(b));
    CountBelowPermutes(latencies, sorted, Lo(b + 1));
    RankBelow(sorted, k, Lo(b));
    RankBelow(sorted, k, Lo(b + 1));
    assert Lo(b) <= Clamped(ms);
    BelongsOnce(Clamped(ms), b, BucketOf(ms));
  }

  /** A value lies in the bucket of a sample. */
  predicate SharesBucket(value: real, ms: int) {
    Lo(BucketOf(ms)) as real <= value <= Hi(BucketOf(ms)) as real
  }

  lemma ReadsRankedBucket(latencies: seq<int>, sorted: seq<int>, h: Histogram, t: real, k: nat)
    requires multiset(sorted) == multiset(latencies) && Sorted(sorted) && |sorted| == |latencies|
    requires 1 <= k <= |latencies| && (k - 1) as real < t <= k as real && h == HistogramOf(latencies)
    ensures SharesBucket(InBucket(h, t, Reaching(h, t, 0)), sorted[k - 1])
  {
    ReachesRankedBucket(latencies, sorted, t, k);
    InBucketBounds(h, t, Reaching(h, t, 0));
  }

  lemma PercentileReads(samples: nat, h: Histogram, p: real, ms: int)
    requires samples > 0
    requires SharesBucket(InBucket(h, Target(samples, p), Reaching(h, Target(samples, p), 0)), ms)
    ensures SharesBucket(PercentileOf(samples, h, p), ms)
  {
  }

  lemma SameLength(s: seq<int>, t: seq<int>)
    requires multiset(s) == multiset(t)
    ensures |s| == |t|
  {
    assert |multiset(s)| == |multiset(t)|;
  }

  /** The percentile of recorded latencies lies in the bucket of the sample it stands for: the
      one of rank max(1, ceil(p N)) in sorted order. */
  lemma PercentileInRankedBucket(latencies: seq<int>, sorted: seq<int>, p: real, n: nat, h: Histogram, k: nat)
    requires latencies != [] && multiset(sorted) == multiset(latencies) && Sorted(sorted)
    requires n == |latencies| && h == HistogramOf(latencies) && k == Rank(n, p)
    ensures k <= |sorted| && SharesBucket(PercentileOf(n, h, p), sorted[k - 1])
  {
    SameLength(latencies, sorted);
    RankInRange(n, p);
    ReadsRankedBucket(latencies, sorted, h, Target(n, p), k);
    PercentileReads(n, h, p, sorted[k - 1]);
  }
}

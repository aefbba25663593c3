/** The log-spaced latency histogram, against the plain list of samples it stands for. */
module LatencyHistograms {
  import opened Base

  const BUCKETS: nat := 50

  // ---- Powers, logarithms and roots in exact arithmetic ----

  function Pow2(n: nat): pos {
    if n == 0 then 1 else 2 * Pow2(n - 1)
  }

  lemma {:induction false} Pow2Mono(m: nat, n: nat)
    requires m <= n
    ensures Pow2(m) <= Pow2(n)
    decreases n
  {
    if m < n {
      Pow2Mono(m, n - 1);
    }
  }

  /** The integer part of the binary logarithm. */
  function Log2(n: pos): nat {
    if n == 1 then 0 else 1 + Log2(n / 2)
  }

  lemma {:induction false} Log2Brackets(n: pos)
    ensures Pow2(Log2(n)) <= n < Pow2(Log2(n) + 1)
  {
    if n > 1 {
      Log2Brackets(n / 2);
    }
  }

  lemma Log2Mono(m: pos, n: pos)
    requires m <= n
    ensures Log2(m) <= Log2(n)
  {
    Log2Brackets(m);
    Log2Brackets(n);
    if Log2(m) > Log2(n) {
      Pow2Mono(Log2(n) + 1, Log2(m));
    }
  }

  /** The integer part of the square root. */
  function Isqrt(n: nat): (r: nat)
    ensures r * r <= n < (r + 1) * (r + 1)
  {
    if n == 0 then 0
    else
      var r := Isqrt(n - 1);
      if (r + 1) * (r + 1) <= n then r + 1 else r
  }

  lemma MulLe(a: int, b: int, k: nat)
    requires a <= b
    ensures a * k <= b * k
  {
  }

  lemma SquareMono(a: nat, b: nat)
    ensures a <= b <==> a * a <= b * b
  {
    if a <= b {
      MulLe(a, b, a);
      MulLe(a, b, b);
    } else {
      MulLe(b + 1, a, a);
      MulLe(b, a, b);
    }
  }

  // ---- Buckets ----

  /** Bucket `i` holds latencies in [sqrt(2)^i, sqrt(2)^(i+1)): twice the logarithm, rounded down
      and clamped to the fifty buckets. */
  function BucketFor(us: int): (b: nat)
    ensures b < BUCKETS
  {
    if us <= 0 then 0
    else
      MulSelf(us);
      Min(BUCKETS - 1, Log2(us * us))
  }

  lemma MulSelf(us: pos)
    ensures us * us > 0
  {
  }

  function UpperBoundOf(bucket: nat): nat {
    Isqrt(Pow2(Min(bucket, BUCKETS - 1) + 1))
  }

  lemma BucketMono(a: int, b: int)
    requires a <= b
    ensures BucketFor(a) <= BucketFor(b)
  {
    if a > 0 {
      MulSelf(a);
      MulSelf(b);
      SquareMono(a, b);
      Log2Mono(a * a, b * b);
    }
  }

  lemma IsqrtMono(m: nat, n: nat)
    requires m <= n
    ensures Isqrt(m) <= Isqrt(n)
  {
    var a, b := Isqrt(m), Isqrt(n);
    SquareMono(b + 1, a);
  }

  lemma UpperBoundMono(i: nat, j: nat)
    requires i <= j
    ensures UpperBoundOf(i) <= UpperBoundOf(j)
  {
    Pow2Mono(Min(i, BUCKETS - 1) + 1, Min(j, BUCKETS - 1) + 1);
    IsqrtMono(Pow2(Min(i, BUCKETS - 1) + 1), Pow2(Min(j, BUCKETS - 1) + 1));
  }

  const LIMIT: nat := 0x200_0000  // 2^25 microseconds

  lemma LimitIsLastBucket()
    ensures LIMIT * LIMIT == Pow2(BUCKETS) && UpperBoundOf(BUCKETS - 1) == LIMIT
  {
    Pow2Half(25);
    assert Pow2(25) == LIMIT by {
      assert Pow2(5) == 32;
      assert Pow2(10) == 1024;
      assert Pow2(15) == 32768;
      assert Pow2(20) == 1048576;
    }
    var r := Isqrt(Pow2(BUCKETS));
    SquareMono(LIMIT, r);
    SquareMono(r, LIMIT);
    SquareMono(r + 1, LIMIT);
  }

  lemma {:induction false} Pow2Half(n: nat)
    ensures Pow2(n) * Pow2(n) == Pow2(2 * n)
  {
    if n > 0 {
      Pow2Half(n - 1);
      assert Pow2(2 * n) == 2 * Pow2(2 * n - 1) == 4 * Pow2(2 * (n - 1));
    }
  }

  lemma BoundInRange(q: pos)
    requires q * q > 0 && Log2(q * q) < BUCKETS
    ensures var u := UpperBoundOf(BucketFor(q)); u * u <= 2 * (q * q) && q <= u && q <= LIMIT
  {
    var b := Log2(q * q);
    var u := Isqrt(Pow2(b + 1));
    Log2Brackets(q * q);
    SquareMono(u + 1, q);
    LimitIsLastBucket();
    Pow2Mono(b + 1, BUCKETS);
    SquareMono(LIMIT, q);
  }

  lemma BoundSaturates(q: pos)
    requires q * q > 0 && Log2(q * q) >= BUCKETS
    ensures UpperBoundOf(BucketFor(q)) == LIMIT && LIMIT <= q && LIMIT * LIMIT <= 2 * (q * q)
  {
    LimitIsLastBucket();
    Log2Brackets(q * q);
    Pow2Mono(BUCKETS, Log2(q * q));
    SquareMono(LIMIT, q);
  }

  /** The bound reported for a sample is never more than sqrt(2) too high, and is high enough
      exactly up to the top of the last bucket. */
  lemma BucketBound(q: nat)
    ensures var u := UpperBoundOf(BucketFor(q));
      && u * u <= 2 * (Max(q, 1) * Max(q, 1))
      && (u >= q <==> q <= LIMIT)
  {
    if q == 0 {
      assert Pow2(1) == 2;
    } else {
      MulSelf(q);
      if Log2(q * q) < BUCKETS {
        BoundInRange(q);
      } else {
        BoundSaturates(q);
      }
    }
  }

  // ---- What a histogram says about a list of samples ----

  function CountIn(s: seq<int>, b: nat): nat {
    if s == [] then 0 else CountIn(s[..|s| - 1], b) + if BucketFor(s[|s| - 1]) == b then 1 else 0
  }

  /** Samples in bucket `b` or below. */
  function CountUpTo(s: seq<int>, b: nat): nat {
    if s == [] then 0 else CountUpTo(s[..|s| - 1], b) + if BucketFor(s[|s| - 1]) <= b then 1 else 0
  }

  function SumOf(s: seq<int>): int {
    if s == [] then 0 else SumOf(s[..|s| - 1]) + s[|s| - 1]
  }

  function MaxOf(s: seq<int>): int {
    if s == [] then 0 else Max(MaxOf(s[..|s| - 1]), s[|s| - 1])
  }

  lemma {:induction false} CountJoin(s: seq<int>, t: seq<int>, b: nat)
    ensures CountIn(s + t, b) == CountIn(s, b) + CountIn(t, b)
    ensures CountUpTo(s + t, b) == CountUpTo(s, b) + CountUpTo(t, b)
    ensures SumOf(s + t) == SumOf(s) + SumOf(t)
    ensures MaxOf(s + t) == Max(MaxOf(s), MaxOf(t))
  {
    if t == [] {
      assert s + t == s;
      MaxNonNegative(s);
    } else {
      assert (s + t)[..|s + t| - 1] == s + t[..|t| - 1];
      CountJoin(s, t[..|t| - 1], b);
    }
  }

  lemma {:induction false} MaxNonNegative(s: seq<int>)
    ensures MaxOf(s) >= 0
  {
    if s != [] {
      MaxNonNegative(s[..|s| - 1]);
    }
  }

  lemma {:induction false} CountStep(s: seq<int>, b: nat)
    ensures CountUpTo(s, b + 1) == CountUpTo(s, b) + CountIn(s, b + 1)
    ensures CountUpTo(s, 0) == CountIn(s, 0)
    ensures CountUpTo(s, b) <= |s|
    ensures b >= BUCKETS - 1 ==> CountUpTo(s, b) == |s|
  {
    if s != [] {
      CountStep(s[..|s| - 1], b);
    }
  }

  lemma {:induction false} CountMono(s: seq<int>, i: nat, j: nat)
    requires i <= j
    ensures CountUpTo(s, i) <= CountUpTo(s, j)
  {
    if s != [] {
      CountMono(s[..|s| - 1], i, j);
    }
  }

  /** Counts do not depend on the order of the samples. */
  lemma {:induction false} CountPermuted(s: seq<int>, t: seq<int>, b: nat)
    requires multiset(s) == multiset(t)
    ensures CountUpTo(s, b) == CountUpTo(t, b) && |s| == |t|
    decreases |s|
  {
    assert |multiset(s)| == |s| && |multiset(t)| == |t|;
    if s != [] {
      var x := s[|s| - 1];
      assert x in multiset(s) && x in t;
      var k :| 0 <= k < |t| && t[k] == x;
      var t1, t2 := t[..k], t[k + 1..];
      assert t == t1 + [x] + t2;
      assert s == s[..|s| - 1] + [x];
      assert multiset(s[..|s| - 1]) == multiset(s) - multiset{x};
      assert multiset(t1 + t2) == multiset(t) - multiset{x};
      CountPermuted(s[..|s| - 1], t1 + t2, b);
      CountJoin(t1 + [x], t2, b);
      CountJoin(t1, [x], b);
      CountJoin(t1, t2, b);
      assert CountUpTo([x], b) == if BucketFor(x) <= b then 1 else 0;
    }
  }

  predicate Sorted(s: seq<int>) {
    forall i, j :: 0 <= i < j < |s| ==> s[i] <= s[j]
  }

  /** In a sorted list, the first `r` samples are counted by the bucket of the `r`-th. */
  lemma {:induction false} CountSorted(s: seq<int>, r: pos, b: nat)
    requires Sorted(s) && r <= |s|
    ensures CountUpTo(s, b) >= r <==> BucketFor(s[r - 1]) <= b
    decreases |s|
  {
    var n := |s|;
    if BucketFor(s[r - 1]) <= b {
      if r == n {
        AllCounted(s, b);
      } else {
        CountSorted(s[..n - 1], r, b);
      }
    } else {
      if r == n {
        CountStep(s[..n - 1], b);
      } else {
        CountSorted(s[..n - 1], r, b);
        BucketMono(s[r - 1], s[n - 1]);
      }
    }
  }

  lemma {:induction false} AllCounted(s: seq<int>, b: nat)
    requires Sorted(s) && s != [] && BucketFor(s[|s| - 1]) <= b
    ensures CountUpTo(s, b) == |s|
  {
    if |s| > 1 {
      BucketMono(s[|s| - 2], s[|s| - 1]);
      AllCounted(s[..|s| - 1], b);
    }
  }

  // ---- Percentiles ----

  function Ceil(x: real): int {
    -((-x).Floor)
  }

  function Clamp(p: real): real {
    if p < 0.0 then 0.0 else if p > 1.0 then 1.0 else p
  }

  /** Rank of the order statistic that percentile `p` of `n` samples asks for. */
  function Rank(p: real, n: pos): (r: pos)
    ensures r <= n
  {
    RankInRange(Clamp(p), n);
    Max(1, Ceil(Clamp(p) * n as real))
  }

  lemma RankInRange(p: real, n: pos)
    requires 0.0 <= p <= 1.0
    ensures Ceil(p * n as real) <= n
  {
    assert p * n as real <= n as real;
  }

  /** First bucket from `i` on at which the running count reaches `rank`. */
  function Reach(s: seq<int>, rank: nat, i: nat): nat
    decreases BUCKETS - i
  {
    if i >= BUCKETS || CountUpTo(s, i) >= rank then i else Reach(s, rank, i + 1)
  }

  lemma {:induction false} ReachIsFirst(s: seq<int>, rank: nat, i: nat, b: nat)
    requires i <= b < BUCKETS && CountUpTo(s, b) >= rank
    requires forall j :: i <= j < b ==> CountUpTo(s, j) < rank
    ensures Reach(s, rank, i) == b
    decreases b - i
  {
    if i < b {
      ReachIsFirst(s, rank, i + 1, b);
    }
  }

  function PercentileOf(s: seq<int>, p: real): nat {
    if s == [] then 0 else UpperBoundOf(Reach(s, Rank(p, |s|), 0))
  }

  /** The percentile is the bucket bound of the exact order statistic of the sorted samples. */
  lemma PercentileIsOrderStatistic(s: seq<int>, sorted: seq<int>, p: real)
    requires s != [] && Sorted(sorted) && multiset(s) == multiset(sorted)
    ensures |sorted| == |s|
    ensures PercentileOf(s, p) == UpperBoundOf(BucketFor(sorted[Rank(p, |s|) - 1]))
  {
    CountPermuted(s, sorted, 0);
    var r := Rank(p, |s|);
    var b := BucketFor(sorted[r - 1]);
    forall j: nat ensures CountUpTo(s, j) >= r <==> b <= j {
      CountPermuted(s, sorted, j);
      CountSorted(sorted, r, j);
    }
    ReachIsFirst(s, r, 0, b);
  }

  /** Never more than sqrt(2) above the order statistic, and never below it exactly while the
      order statistic is within the last bucket. */
  lemma PercentileWithinRoot2(s: seq<int>, sorted: seq<int>, p: real)
    requires s != [] && Sorted(sorted) && multiset(s) == multiset(sorted)
    requires forall x :: x in s ==> x >= 0
    ensures |sorted| == |s|
    ensures var q, v := sorted[Rank(p, |s|) - 1], PercentileOf(s, p);
      && v * v <= 2 * (Max(q, 1) * Max(q, 1))
      && (v >= q <==> q <= LIMIT)
  {
    PercentileIsOrderStatistic(s, sorted, p);
    var q := sorted[Rank(p, |s|) - 1];
    assert multiset(s)[q] > 0;
    assert q in s;
    BucketBound(q);
  }

  lemma RankMono(p: real, p': real, n: pos)
    requires p <= p'
    ensures Rank(p, n) <= Rank(p', n)
  {
    ScaleMono(Clamp(p), Clamp(p'), n as real);
    CeilMono(Clamp(p) * n as real, Clamp(p') * n as real);
    hide Clamp, Ceil;
  }

  lemma CeilMono(x: real, y: real)
    requires x <= y
    ensures Ceil(x) <= Ceil(y)
  {
  }

  lemma ScaleMono(x: real, y: real, k: real)
    requires x <= y && k >= 0.0
    ensures x * k <= y * k
  {
  }

  lemma {:induction false} ReachMono(s: seq<int>, r: nat, r': nat, i: nat)
    requires r <= r'
    ensures Reach(s, r, i) <= Reach(s, r', i)
    decreases BUCKETS - i
  {
    if i < BUCKETS && CountUpTo(s, i) < r {
      ReachMono(s, r, r', i + 1);
    } else {
      ReachAtLeast(s, r', i);
    }
  }

  lemma {:induction false} ReachAtLeast(s: seq<int>, r: nat, i: nat)
    ensures Reach(s, r, i) >= i
    decreases BUCKETS - i
  {
    if i < BUCKETS && CountUpTo(s, i) < r {
      ReachAtLeast(s, r, i + 1);
    }
  }

  lemma PercentileMono(s: seq<int>, p: real, p': real)
    requires p <= p'
    ensures PercentileOf(s, p) <= PercentileOf(s, p')
  {
    if s != [] {
      RankMono(p, p', |s|);
      ReachMono(s, Rank(p, |s|), Rank(p', |s|), 0);
      UpperBoundMono(Reach(s, Rank(p, |s|), 0), Reach(s, Rank(p', |s|), 0));
    }
  }

  // ---- The histogram itself ----

  class LatencyHistogram {
    const counts: array<nat>
    var total: nat
    var max: Time
    var sumForMean: real
    /** Every latency recorded, clamped at zero, in order. */
    ghost var samples: seq<int>

    ghost predicate Valid()
      reads this, counts
    {
      && counts.Length == BUCKETS
      && (forall i :: 0 <= i < BUCKETS ==> counts[i] == CountIn(samples, i))
      && total == |samples| && max == MaxOf(samples) && sumForMean == SumOf(samples) as real
      && (forall x :: x in samples ==> x >= 0)
    }

    constructor ()
      ensures Valid() && samples == [] && fresh(counts)
    {
      counts := new nat[BUCKETS](_ => 0);
      total, max, sumForMean, samples := 0, 0, 0.0, [];
    }

    method Record(latency: Time)
      requires Valid()
      modifies this, counts
      ensures Valid() && samples == old(samples) + [Max(0, latency)]
    {
      var us := if latency < 0 then 0 else latency;
      var b := BucketFor(us);
      counts[b] := counts[b] + 1;
      total := total + 1;
      if us > max {
        max := us;
      }
      sumForMean := sumForMean + us as real;
      samples := samples + [us];
      assert samples[..|samples| - 1] == old(samples);
    }

    /** Merging is concatenation of the two sample lists. */
    method Merge(o: LatencyHistogram)
      requires Valid() && o.Valid() && (o == this || o.counts != counts)
      modifies this, counts
      ensures Valid() && samples == old(samples) + old(o.samples)
      ensures o != this ==> o.samples == old(o.samples) && o.Valid()
    {
      for i := 0 to BUCKETS
        modifies counts
        invariant forall j :: 0 <= j < i ==> counts[j] == old(counts[j]) + old(o.counts[j])
        invariant forall j :: i <= j < BUCKETS ==> counts[j] == old(counts[j]) && o.counts[j] == old(o.counts[j])
        invariant o != this ==> o.counts[..] == old(o.counts[..])
      {
        counts[i] := counts[i] + o.counts[i];
      }
      total := total + o.total;
      if o.max > max {
        max := o.max;
      }
      sumForMean := sumForMean + o.sumForMean;
      samples := samples + o.samples;
      forall i | 0 <= i < BUCKETS ensures counts[i] == CountIn(samples, i) {
        CountJoin(old(samples), old(o.samples), i);
      }
      CountJoin(old(samples), old(o.samples), 0);
    }

    method Percentile(p: real) returns (us: Time)
      requires Valid()
      ensures us == PercentileOf(samples, p)
    {
      if total == 0 {
        return 0;
      }
      var target := Rank(p, total);
      var cum := 0;
      us := max;
      for i := 0 to BUCKETS
        invariant cum == if i == 0 then 0 else CountUpTo(samples, i - 1)
        invariant forall j :: 0 <= j < i ==> CountUpTo(samples, j) < target
      {
        cum := cum + counts[i];
        CountStep(samples, i);
        if i > 0 {
          CountStep(samples, i - 1);
        }
        if cum >= target {
          ReachIsFirst(samples, target, 0, i);
          return UpperBoundOf(i);
        }
      }
      // The fallback of the original, which returns the maximum, is unreachable.
      CountStep(samples, BUCKETS - 1);
      assert false;
    }

    method MeanUs() returns (mean: real)
      requires Valid()
      ensures samples == [] ==> mean == 0.0
      ensures samples != [] ==> mean * |samples| as real == SumOf(samples) as real
    {
      if total == 0 {
        return 0.0;
      }
      mean := sumForMean / total as real;
    }
  }
}

/** Gaps between server frames in a histogram of one-millisecond buckets, and its percentiles. */
module FrameStats {
  import opened Common

  const BUCKETS := 100  // 0..99 ms, and one more for everything above

  function Bucket(gap: real): nat
    requires gap >= 0.0
  {
    Min(gap.Floor, BUCKETS)
  }

  predicate AllGaps(gaps: seq<real>) {
    forall i :: 0 <= i < |gaps| ==> gaps[i] >= 0.0
  }

  /** How many gaps are in a bucket below `bucket`. */
  function CountBelow(gaps: seq<real>, bucket: int): nat
    requires AllGaps(gaps)
  {
    if gaps == [] then 0
    else CountBelow(gaps[..|gaps| - 1], bucket) + if Bucket(gaps[|gaps| - 1]) < bucket then 1 else 0
  }

  function CountLess(gaps: seq<real>, x: real): nat {
    if gaps == [] then 0 else CountLess(gaps[..|gaps| - 1], x) + if gaps[|gaps| - 1] < x then 1 else 0
  }

  function CountOver(gaps: seq<real>, x: real): nat {
    if gaps == [] then 0 else CountOver(gaps[..|gaps| - 1], x) + if gaps[|gaps| - 1] > x then 1 else 0
  }

  function Largest(gaps: seq<real>): real {
    if gaps == [] then 0.0
    else
      var before, last := Largest(gaps[..|gaps| - 1]), gaps[|gaps| - 1];
      if last > before then last else before
  }

  /** v is the k-th smallest gap: fewer than k are less, and at least k are not greater. */
  ghost predicate IsKth(gaps: seq<real>, k: int, v: real) {
    v in gaps && CountLess(gaps, v) < k && k <= |gaps| - CountOver(gaps, v)
  }

  /** math.ceil */
  function Ceiling(x: real): int {
    -((-x).Floor)
  }

  function Rank(frames: nat, fraction: real): int {
    Ceiling(frames as real * fraction)
  }

  /** A gap as a percentile reports it: rounded up past its millisecond, or the largest gap from 100 ms on. */
  function Reported(v: real, max: real): real {
    if v < 100.0 then (v.Floor + 1) as real else max
  }

  class Stats {
    const lateOver: real
    const hist: array<int>
    var frames: nat
    var late: nat
    var max: real
    ghost var gaps: seq<real>

    ghost predicate Valid()
      reads this, hist
    {
      && hist.Length == BUCKETS + 1 && AllGaps(gaps)
      && frames == |gaps| && late == CountOver(gaps, lateOver) && max == Largest(gaps)
      && forall b :: 0 <= b <= BUCKETS ==> hist[b] == CountBelow(gaps, b + 1) - CountBelow(gaps, b)
    }

    constructor (tickMs: real)
      ensures Valid() && fresh(hist) && gaps == [] && lateOver == 1.5 * tickMs
    {
      lateOver := 1.5 * tickMs;
      hist := new int[BUCKETS + 1](_ => 0);
      frames, late, max, gaps := 0, 0, 0.0, [];
    }

    method Add(gap: real)
      requires Valid() && gap >= 0.0
      modifies this, hist
      ensures Valid() && gaps == old(gaps) + [gap]
    {
      frames := frames + 1;
      if gap > lateOver {
        late := late + 1;
      }
      if gap > max {
        max := gap;
      }
      var b := Bucket(gap);
      hist[b] := hist[b] + 1;
      gaps := gaps + [gap];
      assert gaps[..|gaps| - 1] == old(gaps);
    }

    method Percentile(fraction: real) returns (r: real)
      requires Valid() && 0.0 < fraction <= 1.0
      ensures gaps == [] ==> r == 0.0
      ensures gaps != [] ==> forall v :: IsKth(gaps, Rank(|gaps|, fraction), v) ==> r == Reported(v, max)
    {
      if frames == 0 {
        return 0.0;
      }
      hide IsKth, Reported, CountBelow, Rank;
      var rank := Rank(frames, fraction);
      RankInRange(frames, fraction);
      var seen := 0;
      CountBelowNone(gaps);
      for i := 0 to BUCKETS + 1
        invariant seen == CountBelow(gaps, i) && seen < rank
      {
        seen := seen + hist[i];
        if seen >= rank {
          KthReported(gaps, rank, i, max);
          return if i == BUCKETS then max else (i + 1) as real;
        }
      }
      CountBelowAll(gaps);
      return max;
    }

    /** Every frame is in exactly one bucket. */
    lemma BucketsSumToFrames()
      requires Valid()
      ensures SumOf(hist[..]) == frames
    {
      BucketsSum(gaps, hist[..], BUCKETS + 1);
      assert hist[..][..BUCKETS + 1] == hist[..];
    }

    method Snapshot() returns (p50: real, p99: real)
      requires Valid()
      ensures p50 <= p99
      ensures gaps == [] ==> p50 == p99 == 0.0
    {
      p50 := Percentile(0.5);
      p99 := Percentile(0.99);
      if gaps != [] {
        hide IsKth, Reported, Rank, CountOver, CountBelow;
        ReportedMonotone(gaps, max, 0.5, 0.99, p50, p99);
      }
    }
  }

  lemma RankInRange(n: nat, fraction: real)
    requires n > 0 && 0.0 < fraction <= 1.0
    ensures 1 <= Rank(n, fraction) <= n
  {
    var x := n as real * fraction;
    assert 0.0 < x <= n as real by {
      assert n as real * fraction <= n as real * 1.0;
    }
  }

  lemma RankMonotone(n: nat, f: real, g: real)
    requires 0.0 <= f <= g
    ensures Rank(n, f) <= Rank(n, g)
  {
    assert n as real * f <= n as real * g;
  }

  // ---- counting ---------------------------------------------------------------------------------

  lemma {:induction false} CountBelowNone(gaps: seq<real>)
    requires AllGaps(gaps)
    ensures CountBelow(gaps, 0) == 0
  {
    if gaps != [] {
      CountBelowNone(gaps[..|gaps| - 1]);
    }
  }

  lemma {:induction false} CountBelowAll(gaps: seq<real>)
    requires AllGaps(gaps)
    ensures CountBelow(gaps, BUCKETS + 1) == |gaps|
  {
    if gaps != [] {
      CountBelowAll(gaps[..|gaps| - 1]);
    }
  }

  /** Every gap is in one bucket: the histogram's sum is the number of frames. */
  lemma {:induction false} BucketsSum(gaps: seq<real>, hist: seq<int>, b: nat)
    requires AllGaps(gaps) && b <= |hist| <= BUCKETS + 1
    requires forall i :: 0 <= i < |hist| ==> hist[i] == CountBelow(gaps, i + 1) - CountBelow(gaps, i)
    ensures SumOf(hist[..b]) == CountBelow(gaps, b)
    ensures b == BUCKETS + 1 ==> SumOf(hist[..b]) == |gaps|
  {
    CountBelowNone(gaps);
    CountBelowAll(gaps);
    if b > 0 {
      BucketsSum(gaps, hist, b - 1);
      assert hist[..b][..b - 1] == hist[..b - 1];
    }
  }

  function SumOf(xs: seq<int>): int {
    if xs == [] then 0 else SumOf(xs[..|xs| - 1]) + xs[|xs| - 1]
  }

  /** Gaps below a bucket are less than its start, and gaps up to it are less than its end. */
  lemma {:induction false} CountsAgree(gaps: seq<real>, bucket: int, v: real)
    requires AllGaps(gaps) && v >= 0.0
    ensures Bucket(v) < bucket ==> |gaps| - CountOver(gaps, v) <= CountBelow(gaps, bucket)
    ensures bucket <= Bucket(v) ==> CountBelow(gaps, bucket) <= CountLess(gaps, v)
  {
    if gaps != [] {
      CountsAgree(gaps[..|gaps| - 1], bucket, v);
    }
  }

  /** The scan stops in the bucket of the k-th smallest gap. */
  lemma KthBucket(gaps: seq<real>, k: int, i: nat)
    requires AllGaps(gaps) && CountBelow(gaps, i) < k <= CountBelow(gaps, i + 1) && i <= BUCKETS
    ensures forall v :: IsKth(gaps, k, v) ==> v >= 0.0 && Bucket(v) == i
  {
    forall v | IsKth(gaps, k, v) ensures v >= 0.0 && Bucket(v) == i {
      var n :| 0 <= n < |gaps| && gaps[n] == v;
      CountsAgree(gaps, i, v);
      CountsAgree(gaps, i + 1, v);
    }
  }

  lemma KthReported(gaps: seq<real>, k: int, i: nat, max: real)
    requires AllGaps(gaps) && CountBelow(gaps, i) < k <= CountBelow(gaps, i + 1) && i <= BUCKETS
    ensures forall v :: IsKth(gaps, k, v) ==> Reported(v, max) == if i == BUCKETS then max else (i + 1) as real
  {
    KthBucket(gaps, k, i);
    hide CountBelow, CountLess, CountOver;
    forall v | IsKth(gaps, k, v) ensures Reported(v, max) == if i == BUCKETS then max else (i + 1) as real {
      assert v >= 0.0 && Bucket(v) == i;
    }
  }

  lemma ReportedMonotone(gaps: seq<real>, max: real, f: real, g: real, p: real, q: real)
    requires AllGaps(gaps) && gaps != [] && max == Largest(gaps) && 0.0 < f <= g <= 1.0
    requires forall v :: IsKth(gaps, Rank(|gaps|, f), v) ==> p == Reported(v, max)
    requires forall v :: IsKth(gaps, Rank(|gaps|, g), v) ==> q == Reported(v, max)
    ensures p <= q
  {
    hide *;
    var k, l := Rank(|gaps|, f), Rank(|gaps|, g);
    RankInRange(|gaps|, f);
    RankInRange(|gaps|, g);
    RankMonotone(|gaps|, f, g);
    KthExists(gaps, k);
    KthExists(gaps, l);
    var v :| IsKth(gaps, k, v);
    var w :| IsKth(gaps, l, w);
    KthMonotone(gaps, k, v, l, w);
    KthInGaps(gaps, l, w);
    ReportedOrder(v, w, max);
  }

  lemma KthInGaps(gaps: seq<real>, k: int, v: real)
    requires IsKth(gaps, k, v)
    ensures v in gaps && v <= Largest(gaps)
  {
    LargestBounds(gaps);
  }

  lemma ReportedOrder(v: real, w: real, max: real)
    requires v <= w <= max
    ensures Reported(v, max) <= Reported(w, max)
  {
    if v < 100.0 {
      var below := v.Floor;
      assert below as real <= v;
      if w < 100.0 {
        var at := w.Floor;
        assert w < (at + 1) as real;
        assert below < at + 1;
      } else {
        assert below < 100;
      }
    }
  }

  lemma {:induction false} CountsMonotone(gaps: seq<real>, v: real, w: real)
    requires v <= w
    ensures CountLess(gaps, v) <= CountLess(gaps, w) && CountOver(gaps, w) <= CountOver(gaps, v)
    ensures CountLess(gaps, v) + CountOver(gaps, v) <= |gaps|
    ensures v < w ==> |gaps| - CountOver(gaps, v) <= CountLess(gaps, w)
  {
    if gaps != [] {
      CountsMonotone(gaps[..|gaps| - 1], v, w);
    }
  }

  lemma KthMonotone(gaps: seq<real>, k: int, v: real, l: int, w: real)
    requires IsKth(gaps, k, v) && IsKth(gaps, l, w) && k <= l
    ensures v <= w
  {
    if w < v {
      CountsMonotone(gaps, w, v);
    }
  }

  lemma {:induction false} LargestBounds(gaps: seq<real>)
    ensures forall v :: v in gaps ==> v <= Largest(gaps)
  {
    if gaps != [] {
      LargestBounds(gaps[..|gaps| - 1]);
      assert forall v :: v in gaps ==> v in gaps[..|gaps| - 1] || v == gaps[|gaps| - 1];
    }
  }

  lemma {:induction false} SmallestOver(gaps: seq<real>, x: real) returns (w: real)
    requires CountOver(gaps, x) > 0
    ensures w in gaps && w > x && CountLess(gaps, w) == |gaps| - CountOver(gaps, x)
  {
    var before, last := gaps[..|gaps| - 1], gaps[|gaps| - 1];
    if CountOver(before, x) == 0 {
      NoneOver(before, x, last);
      w := last;
    } else {
      w := SmallestOver(before, x);
      if x < last < w {
        LessBetween(before, x, last, w);
        w := last;
      }
    }
  }

  lemma {:induction false} NoneOver(gaps: seq<real>, x: real, w: real)
    requires CountOver(gaps, x) == 0 && x < w
    ensures CountLess(gaps, w) == |gaps|
  {
    if gaps != [] {
      NoneOver(gaps[..|gaps| - 1], x, w);
    }
  }

  lemma {:induction false} LessBetween(gaps: seq<real>, x: real, v: real, w: real)
    requires x < v < w && CountLess(gaps, w) == |gaps| - CountOver(gaps, x)
    ensures CountLess(gaps, v) == CountLess(gaps, w)
  {
    CountsMonotone(gaps, v, w);
    CountsMonotone(gaps, x, v);
  }

  /** There is a k-th smallest gap for every k in range: the search goes up from the smallest. */
  lemma {:induction false} KthAbove(gaps: seq<real>, k: int, x: real)
    requires CountLess(gaps, x) < k <= |gaps| && x in gaps
    ensures exists v :: IsKth(gaps, k, v)
    decreases CountOver(gaps, x)
  {
    if k <= |gaps| - CountOver(gaps, x) {
      assert IsKth(gaps, k, x);
    } else {
      CountsMonotone(gaps, x, x);
      var w := SmallestOver(gaps, x);
      StrictlyFewerOver(gaps, x, w);
      KthAbove(gaps, k, w);
    }
  }

  lemma {:induction false} StrictlyFewerOver(gaps: seq<real>, x: real, w: real)
    requires x < w && w in gaps
    ensures CountOver(gaps, w) < CountOver(gaps, x)
  {
    var before, last := gaps[..|gaps| - 1], gaps[|gaps| - 1];
    CountsMonotone(before, x, w);
    if last != w {
      assert w in before;
      StrictlyFewerOver(before, x, w);
    }
  }

  lemma {:induction false} Smallest(gaps: seq<real>) returns (x: real)
    requires gaps != []
    ensures x in gaps && CountLess(gaps, x) == 0
  {
    var before, last := gaps[..|gaps| - 1], gaps[|gaps| - 1];
    if before == [] {
      x := last;
    } else {
      x := Smallest(before);
      if last < x {
        CountsMonotone(before, last, x);
        x := last;
      }
    }
  }

  lemma KthExists(gaps: seq<real>, k: int)
    requires 1 <= k <= |gaps|
    ensures exists v :: IsKth(gaps, k, v)
  {
    var x := Smallest(gaps);
    KthAbove(gaps, k, x);
  }

  /** The percentile bounds the exact one: above it by at most a millisecond below 100 ms. */
  lemma PercentileBound(v: real, max: real)
    requires 0.0 <= v <= max
    ensures var r := Reported(v, max);
            if v < 100.0 then v < r <= v + 1.0 else v <= r == max
  {}
}

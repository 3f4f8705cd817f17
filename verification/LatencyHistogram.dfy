/** Latency buckets of a provider, their rendering, and the quantiles read back
    from them (crates/vidarax-api/src/inference_metrics.rs,
    benchmarks/provider_hardware_matrix.py). */
module LatencyHistogram {
  import opened Wrappers
  import opened Sorting

  const LATENCY_BUCKETS_MS: seq<nat> :=
    [10, 25, 50, 100, 250, 500, 1000, 2500, 5000, 10000, 15000, 20000, 30000, 60000]
  const BUCKETS: nat := 14
  const TWO_64: nat := 0x1_0000_0000_0000_0000

  type u64 = x: int | 0 <= x < 0x1_0000_0000_0000_0000

  function WrapAdd(a: nat, b: nat): u64 { (a + b) % TWO_64 }

  function Bound(i: nat): nat
    requires i < BUCKETS
  {
    LATENCY_BUCKETS_MS[i]
  }

  lemma BoundsAscend(i: nat, j: nat)
    requires i < j < BUCKETS
    ensures Bound(i) < Bound(j)
  {
  }

  // ------------------------------------------------------------ counting latencies

  /** The first bucket whose bound is at least the latency; 14 when there is none. */
  function BucketOf(latency: nat, from: nat): (b: nat)
    requires from <= BUCKETS
    ensures from <= b <= BUCKETS
    decreases BUCKETS - from
  {
    if from == BUCKETS || latency <= Bound(from) then from else BucketOf(latency, from + 1)
  }

  function InBucket(latencies: seq<nat>, b: nat): (n: nat)
    ensures n <= |latencies|
  {
    if latencies == [] then 0
    else InBucket(latencies[..|latencies| - 1], b) + if BucketOf(latencies[|latencies| - 1], 0) == b then 1 else 0
  }

  /** How many latencies are at or below a bound. */
  function AtMost(latencies: seq<nat>, bound: nat): (n: nat)
    ensures n <= |latencies|
  {
    Count((x: nat) => x <= bound, latencies)
  }

  function Total(latencies: seq<nat>): nat {
    if latencies == [] then 0 else Total(latencies[..|latencies| - 1]) + latencies[|latencies| - 1]
  }

  /** The total adds up, whichever way the latencies are split. */
  lemma {:induction false} TotalAddsUp(a: seq<nat>, b: seq<nat>, x: nat)
    ensures Total(a + b) == Total(a) + Total(b) && Total([x]) == x
  {
    assert [x][..0] == [];
    if b == [] {
      assert a + b == a;
    } else {
      TotalAddsUp(a, b[..|b| - 1], x);
      assert (a + b)[..|a + b| - 1] == a + b[..|b| - 1];
    }
  }

  /** Latencies in the first `n` buckets. */
  function InFirst(latencies: seq<nat>, n: nat): nat {
    if n == 0 then 0 else InFirst(latencies, n - 1) + InBucket(latencies, n - 1)
  }

  lemma {:induction false} BucketIsFirst(latency: nat, from: nat)
    requires from <= BUCKETS
    ensures var b := BucketOf(latency, from);
            && (b < BUCKETS ==> latency <= Bound(b))
            && forall j :: from <= j < b ==> latency > Bound(j)
    decreases BUCKETS - from
  {
    hide Bound;
    if from < BUCKETS && latency > Bound(from) {
      BucketIsFirst(latency, from + 1);
    }
  }

  lemma BucketWithin(latency: nat, i: nat)
    requires i < BUCKETS
    ensures BucketOf(latency, 0) <= i <==> latency <= Bound(i)
  {
    hide Bound, BucketOf;
    BucketIsFirst(latency, 0);
    var b := BucketOf(latency, 0);
    if b < i {
      BoundsAscend(b, i);
    }
  }

  lemma {:induction false} InFirstGrows(latencies: seq<nat>, x: nat, n: nat)
    ensures InFirst(latencies + [x], n) == InFirst(latencies, n) + if BucketOf(x, 0) < n then 1 else 0
  {
    assert (latencies + [x])[..|latencies|] == latencies;
    if n > 0 {
      InFirstGrows(latencies, x, n - 1);
    }
  }

  lemma {:induction false} InFirstOfNone(n: nat)
    ensures InFirst([], n) == 0
  {
    if n > 0 {
      InFirstOfNone(n - 1);
    }
  }

  /** Cumulated buckets count exactly the latencies at or below their bound. */
  lemma {:induction false} CumulatedIsAtMost(latencies: seq<nat>, i: nat)
    requires i < BUCKETS
    ensures InFirst(latencies, i + 1) == AtMost(latencies, Bound(i))
  {
    hide BucketOf, Bound, InFirst;
    if latencies == [] {
      InFirstOfNone(i + 1);
    } else {
      var front, x := latencies[..|latencies| - 1], latencies[|latencies| - 1];
      CumulatedIsAtMost(front, i);
      InFirstGrows(front, x, i + 1);
      BucketWithin(x, i);
      assert front + [x] == latencies;
    }
  }

  // ------------------------------------------------------------ the counters

  lemma WrapAdds(n: nat, k: nat)
    ensures WrapAdd(n % TWO_64, k) == (n + k) % TWO_64
  {
  }

  lemma InBucketGrows(latencies: seq<nat>, x: nat)
    ensures forall b :: InBucket(latencies + [x], b) == InBucket(latencies, b) + if BucketOf(x, 0) == b then 1 else 0
    ensures Total(latencies + [x]) == Total(latencies) + x
  {
    hide BucketOf;
    assert (latencies + [x])[..|latencies|] == latencies;
  }

  lemma InFirstOfNothing(latencies: seq<nat>)
    ensures InFirst(latencies, 0) == 0
  {
  }

  /** One more bucket added to the running count. */
  lemma CumulatesOne(latencies: seq<nat>, i: nat)
    requires i < BUCKETS && |latencies| < TWO_64
    ensures WrapAdd(InFirst(latencies, i), InBucket(latencies, i) % TWO_64) == InFirst(latencies, i + 1)
    ensures InFirst(latencies, i + 1) == AtMost(latencies, Bound(i)) < TWO_64
  {
    hide Bound, AtMost, InBucket;
    CumulatedIsAtMost(latencies, i);
  }

  class ProviderMetrics {
    var latencySumMs: u64
    var latencyCount: u64
    const latencyBuckets: array<u64>

    /** The counters after recording these latencies, each modulo 2^64. */
    ghost predicate Reflects(latencies: seq<nat>)
      reads this, latencyBuckets
    {
      && latencyBuckets.Length == BUCKETS
      && latencySumMs == Total(latencies) % TWO_64 && latencyCount == |latencies| % TWO_64
      && forall b :: 0 <= b < BUCKETS ==> latencyBuckets[b] == InBucket(latencies, b) % TWO_64
    }

    constructor ()
      ensures Reflects([]) && fresh(latencyBuckets)
    {
      latencySumMs, latencyCount := 0, 0;
      latencyBuckets := new u64[BUCKETS](_ => 0);
    }

    method RecordLatency(latencyMs: u64, ghost latencies: seq<nat>)
      requires Reflects(latencies)
      modifies this`latencySumMs, this`latencyCount, latencyBuckets
      ensures Reflects(latencies + [latencyMs])
    {
      hide Bound, WrapAdd, InBucket, Total;
      InBucketGrows(latencies, latencyMs);
      WrapAdds(Total(latencies), latencyMs);
      WrapAdds(|latencies|, 1);
      latencySumMs := WrapAdd(latencySumMs, latencyMs);
      latencyCount := WrapAdd(latencyCount, 1);
      var idx := 0;
      while idx < BUCKETS
        invariant idx <= BUCKETS && BucketOf(latencyMs, idx) == BucketOf(latencyMs, 0)
        invariant forall b :: 0 <= b < BUCKETS ==> latencyBuckets[b] == old(latencyBuckets[b])
      {
        if latencyMs <= Bound(idx) {
          WrapAdds(InBucket(latencies, idx), 1);
          latencyBuckets[idx] := WrapAdd(latencyBuckets[idx], 1);
          break;
        }
        idx := idx + 1;
      }
    }

    /** The rendered cumulative buckets: while fewer than 2^64 latencies were
        recorded, each counts exactly those at or below its bound. */
    method RenderBuckets(ghost latencies: seq<nat>) returns (rendered: seq<nat>)
      requires Reflects(latencies) && |latencies| < TWO_64
      ensures var bounds := [10, 25, 50, 100, 250, 500, 1000, 2500, 5000, 10000, 15000, 20000, 30000, 60000];
              && |rendered| == |bounds|
              && forall i :: 0 <= i < |bounds| ==> rendered[i] == |Where((x: nat) => x <= bounds[i], latencies)|
      ensures latencyCount == |latencies|
    {
      hide Bound, AtMost, InBucket, InFirst, WrapAdd, Where;
      InFirstOfNothing(latencies);
      forall i | 0 <= i < BUCKETS ensures AtMost(latencies, Bound(i)) == |Where((x: nat) => x <= Bound(i), latencies)| {
        AtMostIsWhere(latencies, Bound(i));
      }
      BoundsAre();
      var cumulative: u64 := 0;
      rendered := [];
      for idx := 0 to BUCKETS
        invariant |rendered| == idx && cumulative == InFirst(latencies, idx)
        invariant forall i :: 0 <= i < idx ==> rendered[i] == AtMost(latencies, Bound(i))
      {
        CumulatesOne(latencies, idx);
        cumulative := WrapAdd(cumulative, latencyBuckets[idx]);
        rendered := rendered + [cumulative];
      }
    }

    /** With at least ten latencies, high exactly when the 95th percentile is over
        5000 ms, as long as the count times 95 fits in 64 bits. */
    method IsHighLatency(ghost latencies: seq<nat>) returns (high: bool)
      requires Reflects(latencies) && |latencies| < TWO_64
      ensures high <==>
              && |latencies| >= 10
              && SaturatingMul(AtMost(latencies, 5000), 100) < SaturatingMul(|latencies|, 95)
      ensures |latencies| * 95 <= U64_MAX ==>
                (high <==> |latencies| >= 10 && NearestRank(latencies, 0.95) > 5000)
    {
      hide Bound, AtMost, InBucket, InFirst, WrapAdd, NearestRank, SaturatingMul;
      InFirstOfNothing(latencies);
      if latencies != [] && |latencies| * 95 <= U64_MAX {
        P95Over5000(latencies);
      }
      if latencyCount < 10 {
        return false;
      }
      var within5s: u64 := 0;
      FiveSeconds();
      for idx := 0 to 9
        invariant within5s == InFirst(latencies, idx)
      {
        CumulatesOne(latencies, idx);
        within5s := WrapAdd(within5s, latencyBuckets[idx]);
      }
      CumulatedIsAtMost(latencies, 8);
      high := SaturatingMul(within5s, 100) < SaturatingMul(latencyCount, 95);
    }
  }

  lemma AtMostIsWhere(latencies: seq<nat>, bound: nat)
    ensures AtMost(latencies, bound) == |Where((x: nat) => x <= bound, latencies)|
  {
    CountIsWhere((x: nat) => x <= bound, latencies);
  }

  lemma BoundsAre()
    ensures var bounds := [10, 25, 50, 100, 250, 500, 1000, 2500, 5000, 10000, 15000, 20000, 30000, 60000];
            |bounds| == BUCKETS && forall i :: 0 <= i < BUCKETS ==> Bound(i) == bounds[i]
  {
  }

  lemma FiveSeconds()
    ensures Bound(8) == 5000 && Bound(13) == 60000
  {
  }

  // ------------------------------------------------------------ percentiles

  predicate AtMostOrder(a: nat, b: nat) { a <= b }

  /** The latencies in ascending order. */
  function Sorted(values: seq<nat>): (r: seq<nat>)
    ensures |r| == |values|
  {
    SortMembers(AtMostOrder, values);
    Sort(AtMostOrder, values)
  }

  lemma SortedCounts(values: seq<nat>, bound: nat)
    ensures Ascending(AtMostOrder, Sorted(values)) && AtMost(Sorted(values), bound) == AtMost(values, bound)
  {
    hide Sort, Count;
    SortAscends(AtMostOrder, values);
    CountOfSort((x: nat) => x <= bound, AtMostOrder, values);
  }

  /** Among sorted values, more than `k` are within a bound exactly when value `k` is. */
  lemma {:induction false} RankIsCount(sorted: seq<nat>, k: nat, bound: nat)
    requires Ascending(AtMostOrder, sorted) && k < |sorted|
    ensures AtMost(sorted, bound) > k <==> sorted[k] <= bound
  {
    var n := |sorted| - 1;
    if k < n {
      RankIsCount(sorted[..n], k, bound);
      assert sorted[..n][k] == sorted[k];
    } else if sorted[n] <= bound {
      AllCounted(sorted, bound);
    }
  }

  lemma {:induction false} AllCounted(values: seq<nat>, bound: nat)
    requires forall i :: 0 <= i < |values| ==> values[i] <= bound
    ensures AtMost(values, bound) == |values|
  {
    if values != [] {
      AllCounted(values[..|values| - 1], bound);
    }
  }

  function Ceil(x: real): int { -(-x).Floor }

  /** The value at position max(0, ceil(target) - 1) of the sorted values. */
  function Ranked(values: seq<nat>, target: real): nat
    requires values != [] && target <= |values| as real
  {
    Sorted(values)[Max(0, Ceil(target) - 1)]
  }

  /** How many values a quantile asks for, before rounding up. */
  function Target(n: nat, q: real): real { n as real * q }

  lemma TargetInRange(n: nat, q: real)
    requires n > 0 && q <= 1.0
    ensures Target(n, q) <= n as real
    ensures q > 0.0 ==> Target(n, q) > 0.0
  {
  }

  /** `percentile` before rounding. */
  function NearestRank(values: seq<nat>, q: real): nat
    requires values != [] && q <= 1.0
  {
    TargetInRange(|values|, q);
    Ranked(values, Target(|values|, q))
  }

  /** A count reaches a target exactly when the value at its rank is within the
      bound, whatever the target was rounded to. */
  lemma CountReaches(values: seq<nat>, target: real, bound: nat)
    requires 0.0 < target <= |values| as real
    ensures AtMost(values, bound) as real >= target <==> Ranked(values, target) <= bound
  {
    hide AtMost, Sorted, Ascending;
    SortedCounts(values, bound);
    RankIsCount(Sorted(values), Ceil(target) - 1, bound);
  }

  lemma P95Over5000(values: seq<nat>)
    requires values != [] && |values| * 95 <= U64_MAX
    ensures SaturatingMul(AtMost(values, 5000), 100) < SaturatingMul(|values|, 95) <==> NearestRank(values, 0.95) > 5000
  {
    hide AtMost, Ranked;
    TargetInRange(|values|, 0.95);
    CountReaches(values, Target(|values|, 0.95), 5000);
    var within := AtMost(values, 5000);
    assert within as real >= Target(|values|, 0.95) <==> within * 100 >= |values| * 95;
  }

  // ------------------------------------------------------------ reading a quantile back

  /** The script's own list of bounds. */
  const UPPER_BOUNDS: seq<nat> :=
    [10, 25, 50, 100, 250, 500, 1000, 2500, 5000, 10000, 15000, 20000, 30000, 60000]

  lemma SameBounds(i: nat)
    requires i < BUCKETS
    ensures |UPPER_BOUNDS| == BUCKETS && UPPER_BOUNDS[i] == Bound(i)
  {
  }

  /** The first bound, from bucket `from` on, whose count reaches the target. */
  function FirstReaching(counts: seq<int>, target: real, from: nat): Option<nat>
    requires |counts| == BUCKETS && from <= BUCKETS
    decreases BUCKETS - from
  {
    if from == BUCKETS then None
    else if counts[from] as real >= target then Some(UPPER_BOUNDS[from])
    else FirstReaching(counts, target, from + 1)
  }

  function Delta(before: seq<nat>, after: seq<nat>): seq<int>
    requires |before| == BUCKETS && |after| == BUCKETS
  {
    seq(BUCKETS, i requires 0 <= i < BUCKETS => (after[i] as int) - (before[i] as int))
  }

  /** `histogram_quantile` over two scrapes: totals, cumulative buckets, and the
      product of the new total and the quantile, as the script rounds it. */
  function HistogramQuantile(countBefore: nat, before: seq<nat>, countAfter: nat, after: seq<nat>, target: real)
    : Option<nat>
    requires |before| == BUCKETS && |after| == BUCKETS
  {
    if countAfter <= countBefore then None else FirstReaching(Delta(before, after), target, 0)
  }

  /** What a scrape shows after these latencies. */
  function Scrape(latencies: seq<nat>): seq<nat> {
    seq(BUCKETS, i requires 0 <= i < BUCKETS => AtMost(latencies, Bound(i)))
  }

  /** The least bound from bucket `from` on that is at or above a value. */
  ghost predicate LeastBound(r: Option<nat>, value: nat, from: nat)
    requires from <= BUCKETS
  {
    match r
    case None => forall i :: from <= i < BUCKETS ==> Bound(i) < value
    case Some(b) =>
      exists i :: from <= i < BUCKETS && Bound(i) == b >= value && forall j :: from <= j < i ==> Bound(j) < value
  }

  lemma {:induction false} FirstIsLeast(counts: seq<int>, target: real, value: nat, from: nat)
    requires |counts| == BUCKETS && from <= BUCKETS
    requires forall i :: 0 <= i < BUCKETS ==> (counts[i] as real >= target <==> value <= Bound(i))
    ensures LeastBound(FirstReaching(counts, target, from), value, from)
    decreases BUCKETS - from
  {
    hide Bound;
    if from < BUCKETS {
      SameBounds(from);
      if counts[from] as real < target {
        FirstIsLeast(counts, target, value, from + 1);
      }
    }
  }

  /** Between two scrapes, the quantile read back is the least bucket bound at or
      above the value at the target's rank among the latencies recorded between
      them, and none when there are none or that value is over 60000 ms. This
      holds of any target, so of a product rounded in floating point as well. */
  lemma QuantileIsLeastBound(earlier: seq<nat>, later: seq<nat>, target: real)
    requires later != [] ==> 0.0 < target <= |later| as real
    ensures var r := HistogramQuantile(|earlier|, Scrape(earlier), |earlier + later|, Scrape(earlier + later), target);
            if later == [] then r == None
            else LeastBound(r, Ranked(later, target), 0) && (r == None <==> Ranked(later, target) > 60000)
  {
    hide Bound, Count, Ranked;
    if later != [] {
      var counts := Delta(Scrape(earlier), Scrape(earlier + later));
      var value := Ranked(later, target);
      forall i | 0 <= i < BUCKETS ensures counts[i] as real >= target <==> value <= Bound(i) {
        CountOfConcat((x: nat) => x <= Bound(i), earlier, later);
        assert counts[i] == AtMost(later, Bound(i));
        CountReaches(later, target, Bound(i));
      }
      FirstIsLeast(counts, target, value, 0);
      FiveSeconds();
      LastBound(FirstReaching(counts, target, 0), value);
    }
  }

  /** With the exact product the rank is that of the exact percentile. */
  lemma ExactQuantileIsLeastBound(earlier: seq<nat>, later: seq<nat>, q: real)
    requires 0.0 < q <= 1.0 && later != []
    ensures var r := HistogramQuantile(|earlier|, Scrape(earlier), |earlier + later|, Scrape(earlier + later),
                                       Target(|later|, q));
            LeastBound(r, NearestRank(later, q), 0) && (r == None <==> NearestRank(later, q) > 60000)
  {
    hide Bound, Count, Ranked, LeastBound;
    TargetInRange(|later|, q);
    QuantileIsLeastBound(earlier, later, Target(|later|, q));
  }

  lemma LastBound(r: Option<nat>, value: nat)
    requires LeastBound(r, value, 0)
    ensures r == None <==> value > 60000
  {
    hide Bound;
    FiveSeconds();
    if r.Some? {
      var i :| 0 <= i < BUCKETS && Bound(i) == r.value >= value;
      BoundsUpTo60000(i);
    } else {
      assert Bound(13) < value;
    }
  }

  lemma BoundsUpTo60000(i: nat)
    requires i < BUCKETS
    ensures Bound(i) <= 60000
  {
  }
}

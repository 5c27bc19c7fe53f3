/** Bounded HTTP request metrics: duration histograms per route and the bucket of a percentile
    (internal/app/request_metrics.go). */
module RequestMetrics {
  import opened Accounting
  import opened Aggregation

  /** The upper bounds of the buckets in nanoseconds; one more bucket takes what lies above. */
  const BOUNDS: seq<int> := [
    10_000_000, 25_000_000, 50_000_000, 100_000_000, 250_000_000, 500_000_000,
    1_000_000_000, 2_500_000_000, 5_000_000_000, 10_000_000_000]

  const MAX_SERIES := 128

  datatype Key = Key(method_: string, route: string)

  datatype Observation = Observation(key: Key, status: int, canceled: bool, duration: int)

  datatype Metric = Metric(requests: nat, errors: nat, canceled: nat, durationTotal: int, durationCount: seq<nat>)

  const NEW_METRIC := Metric(0, 0, 0, 0, seq(11, i => 0))

  /** A negative duration counts as zero. */
  function Clamped(o: Observation): int { if o.duration < 0 then 0 else o.duration }

  /** Bucket `b` holds the durations above the bound before it, up to its own. */
  predicate InBucket(b: nat, d: int)
    requires b <= |BOUNDS|
  {
    (b == 0 || BOUNDS[b - 1] < d) && (b == |BOUNDS| || d <= BOUNDS[b])
  }

  lemma BoundsAscend(i: nat, j: nat)
    requires i < j < |BOUNDS|
    ensures BOUNDS[i] < BOUNDS[j]
  {
  }

  lemma OneBucket(a: nat, b: nat, d: int)
    requires a <= |BOUNDS| && b <= |BOUNDS| && InBucket(a, d) && InBucket(b, d)
    ensures a == b
  {
    if a < b && a < b - 1 { BoundsAscend(a, b - 1); }
    if b < a && b < a - 1 { BoundsAscend(b, a - 1); }
  }

  /** `sort.Search` over the bounds. */
  method SearchBucket(d: int) returns (bucket: nat)
    ensures bucket <= |BOUNDS| && InBucket(bucket, d)
  {
    var i, j := 0, |BOUNDS|;
    while i < j
      invariant 0 <= i <= j <= |BOUNDS|
      invariant i == 0 || BOUNDS[i - 1] < d
      invariant j == |BOUNDS| || d <= BOUNDS[j]
    {
      var h := (i + j) / 2;
      if d <= BOUNDS[h] {
        j := h;
      } else {
        i := h + 1;
      }
    }
    bucket := i;
  }

  // What a metric stands for

  function Durations(os: seq<Observation>): (ds: seq<int>)
    ensures |ds| == |os|
  {
    seq(|os|, i requires 0 <= i < |os| => Clamped(os[i]))
  }

  function SumOf(ds: seq<int>): int { if ds == [] then 0 else SumOf(ds[..|ds| - 1]) + ds[|ds| - 1] }

  function Within(b: nat): int -> bool
    requires b <= |BOUNDS|
  {
    (d: int) => InBucket(b, d)
  }

  function IsError(): Observation -> bool { (o: Observation) => o.status >= 400 }

  function IsCanceled(): Observation -> bool { (o: Observation) => o.canceled }

  /** The metric of a sequence of observations. */
  ghost predicate Summarises(m: Metric, os: seq<Observation>) {
    && m.requests == |os|
    && m.errors == |Select(os, IsError())|
    && m.canceled == |Select(os, IsCanceled())|
    && m.durationTotal == SumOf(Durations(os))
    && Histogram(m.durationCount, Durations(os))
  }

  /** Each bucket counts the durations that lie in it. */
  ghost predicate Histogram(counts: seq<nat>, ds: seq<int>) {
    |counts| == |BOUNDS| + 1 && forall b :: 0 <= b <= |BOUNDS| ==> counts[b] == |Select(ds, Within(b))|
  }

  lemma SelectSnoc<E(!new)>(es: seq<E>, e: E, p: E -> bool)
    ensures |Select(es + [e], p)| == |Select(es, p)| + if p(e) then 1 else 0
  {
    SelectAppend(es, [e], p);
    assert [e][1..] == [];
  }

  lemma HistogramStep(counts: seq<nat>, ds: seq<int>, d: int, bucket: nat)
    requires Histogram(counts, ds) && bucket <= |BOUNDS| && InBucket(bucket, d)
    ensures Histogram(counts[bucket := counts[bucket] + 1], ds + [d])
  {
    forall b | 0 <= b <= |BOUNDS|
      ensures counts[bucket := counts[bucket] + 1][b] == |Select(ds + [d], Within(b))|
    {
      SelectSnoc(ds, d, Within(b));
      if InBucket(b, d) { OneBucket(b, bucket, d); }
    }
  }

  lemma NothingObserved()
    ensures Summarises(NEW_METRIC, [])
  {
    assert Durations([]) == [];
  }

  lemma SummaryStep(m: Metric, os: seq<Observation>, o: Observation, bucket: nat, after: Metric)
    requires Summarises(m, os) && bucket <= |BOUNDS| && InBucket(bucket, Clamped(o))
    requires after == Metric(
      m.requests + 1, m.errors + (if o.status >= 400 then 1 else 0), m.canceled + (if o.canceled then 1 else 0),
      m.durationTotal + Clamped(o), m.durationCount[bucket := m.durationCount[bucket] + 1])
    ensures Summarises(after, os + [o])
  {
    assert Durations(os + [o]) == Durations(os) + [Clamped(o)];
    assert Durations(os + [o])[..|os|] == Durations(os);
    HistogramStep(m.durationCount, Durations(os), Clamped(o), bucket);
    SelectSnoc(os, o, IsError());
    SelectSnoc(os, o, IsCanceled());
  }

  class HttpRequestMetrics {
    var series: map<Key, Metric>
    var dropped: nat
    /** The observations each series has taken. */
    ghost var taken: map<Key, seq<Observation>>

    ghost predicate Valid()
      reads this
    {
      && |series| <= MAX_SERIES
      && series.Keys == taken.Keys
      && forall k :: k in series ==> Summarises(series[k], taken[k])
    }

    constructor ()
      ensures Valid() && series == map[] && dropped == 0
    {
      series, dropped, taken := map[], 0, map[];
    }

    /** Every observation with a method and a route is taken by its series, or counted as dropped once
        the series are used up. */
    method Observe(o: Observation)
      requires Valid()
      modifies this
      ensures Valid()
      ensures (o.key.method_ == "" || o.key.route == "") ==> taken == old(taken) && dropped == old(dropped)
      ensures o.key.method_ != "" && o.key.route != "" ==>
        if o.key in old(series) || |old(series)| < MAX_SERIES
        then taken == old(taken)[o.key := (if o.key in old(taken) then old(taken)[o.key] else []) + [o]]
          && dropped == old(dropped)
        else taken == old(taken) && dropped == old(dropped) + 1
    {
      if o.key.method_ == "" || o.key.route == "" {
        return;
      }
      var metric := NEW_METRIC;
      ghost var before: seq<Observation> := [];
      if o.key in series {
        metric, before := series[o.key], taken[o.key];
      } else {
        if |series| >= MAX_SERIES {
          dropped := dropped + 1;
          return;
        }
        NothingObserved();
      }
      metric := Take(metric, o, before);
      SeriesGrow(series, o.key, metric);
      series := series[o.key := metric];
      taken := taken[o.key := before + [o]];
    }
  }

  lemma SeriesGrow(series: map<Key, Metric>, key: Key, m: Metric)
    requires |series| <= MAX_SERIES && (key in series || |series| < MAX_SERIES)
    ensures |series[key := m]| <= MAX_SERIES
  {
    assert series[key := m].Keys == series.Keys + {key};
  }

  /** One observation added to a metric. */
  method Take(m: Metric, o: Observation, ghost before: seq<Observation>) returns (metric: Metric)
    requires Summarises(m, before)
    ensures Summarises(metric, before + [o])
    ensures metric.requests == m.requests + 1 && metric.canceled == m.canceled + (if o.canceled then 1 else 0)
    ensures metric.errors == m.errors + (if o.status > 399 then 1 else 0)
    ensures metric.durationTotal == m.durationTotal + (if o.duration > 0 then o.duration else 0)
  {
    metric := m.(requests := m.requests + 1);
    if o.status >= 400 {
      metric := metric.(errors := metric.errors + 1);
    }
    if o.canceled {
      metric := metric.(canceled := metric.canceled + 1);
    }
    var duration := if o.duration < 0 then 0 else o.duration;
    metric := metric.(durationTotal := metric.durationTotal + duration);
    var bucket := SearchBucket(duration);
    metric := metric.(durationCount := metric.durationCount[bucket := metric.durationCount[bucket] + 1]);
    SummaryStep(m, before, o, bucket, metric);
  }

  // Cumulative counts

  function Cumulative(counts: seq<nat>, n: nat): nat
    requires n <= |counts|
  {
    if n == 0 then 0 else Cumulative(counts, n - 1) + counts[n - 1]
  }

  /** Up to the bound of bucket `b`; everything for the last one. */
  function UpTo(b: nat): int -> bool
    requires b <= |BOUNDS|
  {
    (d: int) => b == |BOUNDS| || d <= BOUNDS[b]
  }

  lemma {:induction false} UpToNext(ds: seq<int>, b: nat)
    requires 0 < b <= |BOUNDS|
    ensures |Select(ds, UpTo(b))| == |Select(ds, UpTo(b - 1))| + |Select(ds, Within(b))|
  {
    if ds != [] {
      UpToNext(ds[1..], b);
      if b < |BOUNDS| { BoundsAscend(b - 1, b); }
    }
  }

  /** A cumulative count counts the durations up to the bound. */
  lemma {:induction false} CumulativeCounts(counts: seq<nat>, ds: seq<int>, b: nat)
    requires Histogram(counts, ds) && b <= |BOUNDS|
    ensures Cumulative(counts, b + 1) == |Select(ds, UpTo(b))|
  {
    if b == 0 {
      SelectSame(ds, UpTo(0), Within(0));
      assert Cumulative(counts, 1) == Cumulative(counts, 0) + counts[0];
    } else {
      CumulativeCounts(counts, ds, b - 1);
      UpToNext(ds, b);
    }
  }

  /** The histogram counts sum to the number of requests. */
  lemma CountsSumToRequests(m: Metric, os: seq<Observation>)
    requires Summarises(m, os)
    ensures Cumulative(m.durationCount, |m.durationCount|) == m.requests
  {
    CumulativeCounts(m.durationCount, Durations(os), |BOUNDS|);
    SelectAll(Durations(os), UpTo(|BOUNDS|));
  }

  /** The cumulative buckets of a snapshot, and what lies above them. */
  method BuildHistogram(m: Metric, ghost os: seq<Observation>) returns (buckets: seq<nat>, overflow: nat)
    requires Summarises(m, os)
    ensures |buckets| == |BOUNDS|
    ensures forall b :: 0 <= b < |BOUNDS| ==> buckets[b] == |Select(Durations(os), UpTo(b))|
    ensures (if |BOUNDS| == 0 then 0 else buckets[|BOUNDS| - 1]) + overflow == |os|
  {
    buckets := [];
    var cumulative := 0;
    for i := 0 to |BOUNDS|
      invariant |buckets| == i && cumulative == Cumulative(m.durationCount, i)
      invariant forall b :: 0 <= b < i ==> buckets[b] == |Select(Durations(os), UpTo(b))|
      invariant 0 < i ==> buckets[i - 1] == cumulative
    {
      CumulativeCounts(m.durationCount, Durations(os), i);
      cumulative := cumulative + m.durationCount[i];
      buckets := buckets + [cumulative];
    }
    overflow := m.durationCount[|BOUNDS|];
    CountsSumToRequests(m, os);
  }

  // Percentiles

  const UINT64 := 0x1_0000_0000_0000_0000

  /** The nearest rank, in 64-bit arithmetic. */
  function Threshold(total: nat, percentile: nat): nat { ((total * percentile) % UINT64 + 99) % UINT64 / 100 }

  /** The first bucket whose cumulative count reaches the threshold, if any does. */
  predicate FirstReaching(counts: seq<nat>, threshold: nat, bucket: Option<nat>) {
    match bucket
    case None => forall n :: 0 < n <= |counts| ==> Cumulative(counts, n) < threshold
    case Some(b) =>
      && b < |counts| && threshold <= Cumulative(counts, b + 1)
      && forall n :: 0 < n <= b ==> Cumulative(counts, n) < threshold
  }

  /** `durationPercentileBucket`. */
  method PercentileBucket(counts: seq<nat>, total: nat, percentile: nat) returns (bucket: Option<nat>)
    ensures total == 0 || percentile == 0 ==> bucket.None?
    ensures total != 0 && percentile != 0 ==> FirstReaching(counts, Threshold(total, percentile), bucket)
  {
    if total == 0 || percentile == 0 {
      return None;
    }
    var threshold := Threshold(total, percentile);
    var cumulative := 0;
    for index := 0 to |counts|
      invariant cumulative == Cumulative(counts, index)
      invariant forall n :: 0 < n <= index ==> Cumulative(counts, n) < threshold
    {
      cumulative := cumulative + counts[index];
      if threshold <= cumulative {
        return Some(index);
      }
    }
    return None;
  }

  function Inserted(d: int, ds: seq<int>): seq<int> {
    if ds == [] || d <= ds[0] then [d] + ds else [ds[0]] + Inserted(d, ds[1..])
  }

  /** The durations in ascending order. */
  function Sorted(ds: seq<int>): seq<int> { if ds == [] then [] else Inserted(ds[0], Sorted(ds[1..])) }

  predicate Ascending(ds: seq<int>) { forall i, j :: 0 <= i < j < |ds| ==> ds[i] <= ds[j] }

  lemma {:induction false} InsertedIn(d: int, ds: seq<int>)
    ensures multiset(Inserted(d, ds)) == multiset(ds) + multiset{d}
  {
    if ds != [] && ds[0] < d {
      assert ds == [ds[0]] + ds[1..];
      InsertedIn(d, ds[1..]);
    }
  }

  lemma {:induction false} InsertedAscends(d: int, ds: seq<int>)
    requires Ascending(ds)
    ensures Ascending(Inserted(d, ds))
  {
    if ds != [] && ds[0] < d {
      var rest := Inserted(d, ds[1..]);
      InsertedAscends(d, ds[1..]);
      InsertedIn(d, ds[1..]);
      forall i | 0 <= i < |rest| ensures ds[0] <= rest[i] {
        assert rest[i] in multiset(rest);
      }
    }
  }

  lemma {:induction false} InsertedCount(d: int, ds: seq<int>, p: int -> bool)
    ensures |Select(Inserted(d, ds), p)| == |Select(ds, p)| + if p(d) then 1 else 0
  {
    if ds == [] || d <= ds[0] {
      assert ([d] + ds)[1..] == ds;
    } else {
      InsertedCount(d, ds[1..], p);
      assert ([ds[0]] + Inserted(d, ds[1..]))[1..] == Inserted(d, ds[1..]);
    }
  }

  lemma {:induction false} SortedIs(ds: seq<int>, p: int -> bool)
    ensures Ascending(Sorted(ds)) && multiset(Sorted(ds)) == multiset(ds) && |Sorted(ds)| == |ds|
    ensures |Select(Sorted(ds), p)| == |Select(ds, p)|
  {
    if ds != [] {
      assert ds == [ds[0]] + ds[1..];
      SortedIs(ds[1..], p);
      InsertedIn(ds[0], Sorted(ds[1..]));
      InsertedAscends(ds[0], Sorted(ds[1..]));
      InsertedCount(ds[0], Sorted(ds[1..]), p);
      InsertedLength(ds[0], Sorted(ds[1..]));
    }
  }

  lemma {:induction false} InsertedLength(d: int, ds: seq<int>)
    ensures |Inserted(d, ds)| == |ds| + 1
  {
    if ds != [] && ds[0] < d {
      InsertedLength(d, ds[1..]);
    }
  }

  /** In ascending durations, the one of rank `r` is up to a bound if and only if `r` of them are. */
  lemma {:induction false} RankIff(s: seq<int>, r: nat, b: nat)
    requires Ascending(s) && 0 < r <= |s| && b <= |BOUNDS|
    ensures UpTo(b)(s[r - 1]) <==> r <= |Select(s, UpTo(b))|
  {
    if UpTo(b)(s[r - 1]) {
      assert s == s[..r] + s[r..];
      SelectAppend(s[..r], s[r..], UpTo(b));
      SelectAll(s[..r], UpTo(b));
    } else {
      assert s == s[..r - 1] + s[r - 1..];
      SelectAppend(s[..r - 1], s[r - 1..], UpTo(b));
      SelectNone(s[r - 1..], UpTo(b));
      SelectAtMost(s[..r - 1], UpTo(b));
    }
  }

  lemma CeilRank(n: nat, percentile: nat)
    requires 0 < n && 0 < percentile <= 100 && n * percentile + 99 < UINT64
    ensures 0 < Threshold(n, percentile) <= n
    ensures 100 * (Threshold(n, percentile) - 1) < n * percentile <= 100 * Threshold(n, percentile)
  {
    var product := n * percentile;
    assert 0 < product <= n * 100;
    assert Threshold(n, percentile) == (product + 99) / 100;
  }

  /** The durations up to a bound, counted by the histogram, decide whether the one of rank `r` is. */
  lemma RankByHistogram(counts: seq<nat>, ds: seq<int>, r: nat, b: nat)
    requires Histogram(counts, ds) && 0 < r <= |ds| && b <= |BOUNDS|
    ensures |Sorted(ds)| == |ds|
    ensures UpTo(b)(Sorted(ds)[r - 1]) <==> r <= Cumulative(counts, b + 1)
  {
    CumulativeCounts(counts, ds, b);
    SortedIs(ds, UpTo(b));
    RankIff(Sorted(ds), r, b);
  }

  lemma {:induction false} FirstReachingHoldsRank(counts: seq<nat>, ds: seq<int>, r: nat, b: nat)
    requires Histogram(counts, ds) && 0 < r <= |ds| && FirstReaching(counts, r, Some(b))
    ensures |Sorted(ds)| == |ds| && InBucket(b, Sorted(ds)[r - 1])
  {
    RankByHistogram(counts, ds, r, b);
    if 0 < b {
      RankByHistogram(counts, ds, r, b - 1);
    }
  }

  /** The reported bucket contains the nearest-rank percentile of the clamped durations, and there always
      is one, as long as the rank fits into 64 bits. */
  lemma PercentileIsNearestRank(m: Metric, os: seq<Observation>, percentile: nat, bucket: Option<nat>)
    requires Summarises(m, os) && os != [] && 0 < percentile <= 100 && |os| * percentile + 99 < UINT64
    requires FirstReaching(m.durationCount, Threshold(m.requests, percentile), bucket)
    ensures 0 < Threshold(|os|, percentile) <= |os| == |Sorted(Durations(os))|
    ensures bucket.Some? && bucket.value <= |BOUNDS|
      && InBucket(bucket.value, Sorted(Durations(os))[Threshold(|os|, percentile) - 1])
  {
    CeilRank(|os|, percentile);
    CountsSumToRequests(m, os);
    assert bucket.Some?;
    FirstReachingHoldsRank(m.durationCount, Durations(os), Threshold(|os|, percentile), bucket.value);
  }
}

/** Splitting a nanosecond-inclusive window into a raw head, whole rollup hours and a raw tail
    (internal/repository/analytics_core.go). */
module WindowPlan {
  import opened Accounting
  import opened UsageEvents

  /** Time bounds are inclusive; an absent bound is open, a blank provider selects all. */
  datatype Filter = Filter(start: Option<int>, end: Option<int>, provider: string)

  datatype Plan = Plan(raw: seq<Filter>, rollup: Option<Filter>)

  function RawPlan(f: Filter): Plan { Plan([f], None) }

  function WithWindow(f: Filter, start: int, end: int): Filter { f.(start := Some(start), end := Some(end)) }

  function MinTime(a: int, b: int): int { if a < b then a else b }

  function FirstFullBucket(start: int): int { if HourOf(start) < start then HourOf(start) + HOUR else HourOf(start) }

  function LastFullBucket(end: int): int { if end + 1 < HourOf(end) + HOUR then HourOf(end) - HOUR else HourOf(end) }

  function RollupWindowPlan(f: Filter): Plan {
    if f.start.None? || f.end.None? || f.end.value < f.start.value then RawPlan(f)
    else
      var start, end := f.start.value, f.end.value;
      var first, last := FirstFullBucket(start), LastFullBucket(end);
      if last < first then RawPlan(f)
      else
        var head := if start < first then [WithWindow(f, start, MinTime(first - 1, end))] else [];
        var tail := if last + HOUR <= end then [WithWindow(f, last + HOUR, end)] else [];
        Plan(head + tail, Some(WithWindow(f, first, last)))
  }

  predicate Covers(f: Filter, t: int) {
    && (f.start.Some? ==> f.start.value <= t)
    && (f.end.Some? ==> t <= f.end.value)
  }

  /** How many segments read an event at instant `t`: raw segments by its timestamp, the rollup segment by
      its bucket. */
  function Readers(p: Plan, t: int): nat {
    Count(p.raw, t) + if p.rollup.Some? && Covers(p.rollup.value, HourOf(t)) then 1 else 0
  }

  function Count(fs: seq<Filter>, t: int): nat {
    if fs == [] then 0 else (if Covers(fs[0], t) then 1 else 0) + Count(fs[1..], t)
  }

  lemma FullBuckets(start: int, end: int)
    ensures Aligned(FirstFullBucket(start)) && start <= FirstFullBucket(start) < start + HOUR
    ensures Aligned(LastFullBucket(end)) && LastFullBucket(end) + HOUR <= end + 1 < LastFullBucket(end) + HOUR + HOUR
  {
    AlignedPlus(HourOf(start), 1);
    AlignedPlus(HourOf(end), -1);
  }

  /** The segments tile the window: every instant in it is read exactly once, every other never. */
  lemma PlanTiles(f: Filter, t: int)
    ensures Readers(RollupWindowPlan(f), t) == if Covers(f, t) then 1 else 0
  {
    var p := RollupWindowPlan(f);
    if p.rollup.Some? {
      var first, last := p.rollup.value.start.value, p.rollup.value.end.value;
      FullBuckets(f.start.value, f.end.value);
      HourUnique(t, first);
      AlignedPlus(last, 1);
      HourUnique(t, last + HOUR);
      HourUnique(t, last);
      assert Covers(p.rollup.value, HourOf(t)) <==> first <= t < last + HOUR;
      var head := if f.start.value < first then [WithWindow(f, f.start.value, MinTime(first - 1, f.end.value))] else [];
      var tail := if last + HOUR <= f.end.value then [WithWindow(f, last + HOUR, f.end.value)] else [];
      assert p.raw == head + tail;
      CountAtMostOneEach(head, tail, t);
    } else {
      CountAtMostOneEach([f], [], t);
      assert p.raw == [f] + [];
    }
  }

  lemma CountAtMostOneEach(head: seq<Filter>, tail: seq<Filter>, t: int)
    requires |head| <= 1 && |tail| <= 1
    ensures Count(head + tail, t) ==
      (if head != [] && Covers(head[0], t) then 1 else 0) + (if tail != [] && Covers(tail[0], t) then 1 else 0)
  {
    assert tail != [] ==> tail[1..] == [];
    if head == [] {
      assert head + tail == tail;
    } else {
      assert (head + tail)[1..] == tail;
    }
  }

  /** Rollup hours lie entirely inside the window, and every hour that does is one of them. */
  lemma RollupHoursAreTheFullHours(f: Filter, h: int)
    requires Aligned(h) && f.start.Some? && f.end.Some?
    ensures var p := RollupWindowPlan(f);
      p.rollup.Some? && Covers(p.rollup.value, h) <==> f.start.value <= h && h + HOUR - 1 <= f.end.value
  {
    FullBuckets(f.start.value, f.end.value);
    HourUnique(f.start.value, h);
    HourUnique(f.end.value, h);
    AlignedPlus(h, 1);
    HourUnique(f.end.value, h + HOUR);
  }

  /** Every segment keeps the provider and lies within the window. */
  lemma SegmentsKeepScope(f: Filter, g: Filter)
    requires g in RollupWindowPlan(f).raw || RollupWindowPlan(f).rollup == Some(g)
    ensures g.provider == f.provider
  {
  }
}

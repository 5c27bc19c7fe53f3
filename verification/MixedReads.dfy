/** The mixed raw/rollup plan returns what a scan of the raw events returns, and exactly when
    (internal/repository/analytics_core.go). */
module MixedReads {
  import opened Accounting
  import opened AggregateRows
  import opened Aggregation
  import opened AnalyticsPlan
  import opened RollupIndex
  import opened RowSums
  import opened Trimming
  import opened UsageEvents
  import opened UsageStore
  import opened WindowPlan

  function InSegments(fs: seq<Filter>, f: Filter, w: Where): UsageEvent -> bool {
    (e: UsageEvent) => 0 < Count(fs, e.timestamp) && ProviderMatches(f, e.provider) && w.event(e)
  }

  /** An event the rollup segment answers for. */
  function InHours(g: Filter, w: Where): UsageEvent -> bool {
    (e: UsageEvent) => Covers(g, HourOf(e.timestamp)) && ProviderMatches(g, e.provider) && w.event(e)
  }

  lemma {:induction false} CountAppend(a: seq<Filter>, b: seq<Filter>, t: int)
    ensures Count(a + b, t) == Count(a, t) + Count(b, t)
  {
    if a == [] {
      assert a + b == b;
    } else {
      assert (a + b)[1..] == a[1..] + b;
      CountAppend(a[1..], b, t);
    }
  }

  /** Raw segments that do not overlap add up to one raw scan. */
  lemma {:induction false} SegmentsAddUp(es: seq<UsageEvent>, fs: seq<Filter>, f: Filter, w: Where, prices: Prices)
    requires forall e :: e in es ==> Count(fs, e.timestamp) <= 1
    requires forall g :: g in fs ==> g.provider == f.provider
    ensures RawSegments(es, fs, w, prices) == Total(ROWS, EventRow(prices), Select(es, InSegments(fs, f, w)))
  {
    if fs == [] {
      SelectNone(es, InSegments(fs, f, w));
    } else {
      var front, last := fs[..|fs| - 1], fs[|fs| - 1];
      assert fs == front + [last] && last in fs;
      forall e | e in es
        ensures Count(fs, e.timestamp) == Count(front, e.timestamp) + if Covers(last, e.timestamp) then 1 else 0
      {
        CountAppend(front, [last], e.timestamp);
        assert [last][1..] == [];
      }
      SegmentsAddUp(es, front, f, w, prices);
      RowsLawful();
      TotalSplit(ROWS, EventRow(prices), es, InSegments(front, f, w), InRaw(last, w), InSegments(fs, f, w));
    }
  }

  /** The window is read once: raw segments and rollup hours partition its events. */
  lemma WindowSplits(es: seq<UsageEvent>, f: Filter, w: Where, prices: Prices)
    ensures var p := RollupWindowPlan(f);
      p.rollup.Some? ==>
        RawTotal(es, f, w, prices) == AddRows(RawSegments(es, p.raw, w, prices),
                                              Total(ROWS, EventRow(prices), Select(es, InHours(p.rollup.value, w))))
    ensures var p := RollupWindowPlan(f);
      p.rollup.None? ==> RawTotal(es, f, w, prices) == RawSegments(es, p.raw, w, prices)
  {
    var p := RollupWindowPlan(f);
    RowsLawful();
    if p.rollup.Some? {
      forall e | e in es ensures Count(p.raw, e.timestamp) <= 1 { PlanTiles(f, e.timestamp); }
      SegmentsAddUp(es, p.raw, f, w, prices);
      forall e | e in es
        ensures InRaw(f, w)(e) == (InSegments(p.raw, f, w)(e) || InHours(p.rollup.value, w)(e))
        ensures !(InSegments(p.raw, f, w)(e) && InHours(p.rollup.value, w)(e))
      {
        PlanTiles(f, e.timestamp);
      }
      TotalSplit(ROWS, EventRow(prices), es, InSegments(p.raw, f, w), InHours(p.rollup.value, w), InRaw(f, w));
    } else {
      assert p.raw == [f];
      assert p.raw[..0] == [];
      assert Laws(ROWS, RawTotal(es, f, w, prices), EMPTY_ROW, EMPTY_ROW);
    }
  }

  /** The restriction means the same for an event and for its rollup row. */
  ghost predicate Renders(w: Where, g: Filter, es: seq<UsageEvent>) {
    forall e :: e in es && Covers(g, HourOf(e.timestamp)) ==> Clean(e) && w.event(e) == w.key(KeyOf(e))
  }

  lemma RollupKeysAreEvents(s: Store, pending: set<UsageEvent>, g: Filter, w: Where, e: UsageEvent)
    requires Consistent(s, pending) && Renders(w, g, s.events)
    requires e in Select(s.events, Outside(pending))
    ensures InHours(g, w)(e) <==> KeyOf(e) in RollupKeysIn(s, g, w)
  {
    SelectIn(s.events, Outside(pending), e);
    TrimIdempotent(e.provider);
  }

  /** The rollup segment sums exactly the indexed events of its hours. */
  lemma RollupSegmentMatches(s: Store, pending: set<UsageEvent>, g: Filter, w: Where, prices: Prices)
    requires Consistent(s, pending) && Renders(w, g, s.events)
    ensures Same(RollupTotal(s, g, w, prices),
                 Total(ROWS, EventRow(prices), Select(Select(s.events, Outside(pending)), InHours(g, w))))
  {
    var indexed, ks := Select(s.events, Outside(pending)), RollupKeysIn(s, g, w);
    forall e | e in indexed
      ensures Admitted(e) && (KeyOf(e) in ks ==> Clean(e)) && InHours(g, w)(e) == Among(KeyOf, ks)(e)
    {
      SelectIn(s.events, Outside(pending), e);
      RollupKeysAreEvents(s, pending, g, w, e);
    }
    KeysMatchEvents(indexed, ks, prices);
    SelectSame(indexed, InHours(g, w), Among(KeyOf, ks));
  }

  predicate Counted(r: AggregateRow) { 0 <= r.eligible && 0 <= r.ineligible }

  lemma EventRowCounted(prices: Prices, e: UsageEvent)
    ensures Counted(EventRow(prices)(e))
  {
  }

  lemma {:induction false} TotalCounted(row: UsageEvent -> AggregateRow, es: seq<UsageEvent>)
    requires forall e :: Counted(row(e))
    ensures Counted(Total(ROWS, row, es))
  {
    if es != [] {
      TotalCounted(row, es[1..]);
    }
  }

  lemma {:induction false} SegmentsCounted(es: seq<UsageEvent>, fs: seq<Filter>, w: Where, prices: Prices)
    ensures Counted(RawSegments(es, fs, w, prices))
  {
    if fs != [] {
      SegmentsCounted(es, fs[..|fs| - 1], w, prices);
      forall e ensures Counted(EventRow(prices)(e)) { EventRowCounted(prices, e); }
      TotalCounted(EventRow(prices), Select(es, InRaw(fs[|fs| - 1], w)));
    }
  }

  lemma SameSelf(a: AggregateRow)
    requires Counted(a)
    ensures Same(a, a)
  {
  }

  /** The plan total without the events it misses: the raw segments and the indexed events of the rollup hours. */
  lemma PlanReads(s: Store, pending: set<UsageEvent>, f: Filter, w: Where, prices: Prices, g: Filter)
    requires Consistent(s, pending)
    requires RollupWindowPlan(f).rollup == Some(g) && Renders(w, g, s.events)
    ensures Same(PlanTotal(s, RollupWindowPlan(f), w, prices),
                 AddRows(RawSegments(s.events, RollupWindowPlan(f).raw, w, prices),
                         Total(ROWS, EventRow(prices), Select(Select(s.events, Outside(pending)), InHours(g, w)))))
  {
    var raw := RawSegments(s.events, RollupWindowPlan(f).raw, w, prices);
    SegmentsCounted(s.events, RollupWindowPlan(f).raw, w, prices);
    SameSelf(raw);
    RollupSegmentMatches(s, pending, g, w, prices);
    SameAdd(raw, raw, RollupTotal(s, g, w, prices),
            Total(ROWS, EventRow(prices), Select(Select(s.events, Outside(pending)), InHours(g, w))));
  }

  lemma RawPlanMatches(s: Store, f: Filter, w: Where, prices: Prices)
    requires RollupWindowPlan(f).rollup.None?
    ensures Same(PlanTotal(s, RollupWindowPlan(f), w, prices), RawTotal(s.events, f, w, prices))
  {
    WindowSplits(s.events, f, w, prices);
    SegmentsCounted(s.events, RollupWindowPlan(f).raw, w, prices);
    SameSelf(RawSegments(s.events, RollupWindowPlan(f).raw, w, prices));
  }

  /** Reading through the plan gives the raw aggregate when no pending event falls into its rollup hours. */
  lemma PlanMatchesRaw(s: Store, pending: set<UsageEvent>, f: Filter, w: Where, prices: Prices)
    requires Consistent(s, pending)
    requires var p := RollupWindowPlan(f); p.rollup.Some? ==>
      Renders(w, p.rollup.value, s.events) && forall e :: e in pending ==> !InHours(p.rollup.value, w)(e)
    ensures Same(PlanTotal(s, RollupWindowPlan(f), w, prices), RawTotal(s.events, f, w, prices))
  {
    if RollupWindowPlan(f).rollup.Some? {
      var g := RollupWindowPlan(f).rollup.value;
      WindowSplits(s.events, f, w, prices);
      SelectTwice(s.events, Outside(pending), InHours(g, w), InHours(g, w));
      PlanReads(s, pending, f, w, prices, g);
    } else {
      RawPlanMatches(s, f, w, prices);
    }
  }

  lemma {:induction false} RequestsOfRows(es: seq<UsageEvent>, prices: Prices)
    ensures Total(ROWS, EventRow(prices), es).requests == |es|
  {
    if es != [] {
      RequestsOfRows(es[1..], prices);
    }
  }

  function InHoursOutside(g: Filter, w: Where, pending: set<UsageEvent>): UsageEvent -> bool {
    (e: UsageEvent) => e !in pending && InHours(g, w)(e)
  }

  /** A pending event in the rollup hours makes the plan report fewer requests than the raw scan. */
  lemma PlanUndercounts(s: Store, pending: set<UsageEvent>, f: Filter, w: Where, prices: Prices, g: Filter,
                        missed: UsageEvent)
    requires Consistent(s, pending) && missed in pending
    requires RollupWindowPlan(f).rollup == Some(g) && Renders(w, g, s.events) && InHours(g, w)(missed)
    ensures PlanTotal(s, RollupWindowPlan(f), w, prices).requests < RawTotal(s.events, f, w, prices).requests
  {
    WindowSplits(s.events, f, w, prices);
    PlanReads(s, pending, f, w, prices, g);
    SelectTwice(s.events, Outside(pending), InHours(g, w), InHoursOutside(g, w, pending));
    SelectShorter(s.events, InHoursOutside(g, w, pending), InHours(g, w), missed);
    RequestsOfRows(Select(s.events, InHoursOutside(g, w, pending)), prices);
    RequestsOfRows(Select(s.events, InHours(g, w)), prices);
  }

  /** The exact condition: the plan reports the raw summary if and only if no pending event lies in the
      hours it reads from rollups. */
  lemma PlanMatchesRawIff(s: Store, pending: set<UsageEvent>, f: Filter, w: Where, prices: Prices, g: Filter)
    requires Consistent(s, pending)
    requires RollupWindowPlan(f).rollup == Some(g) && Renders(w, g, s.events)
    ensures MapSummary(PlanTotal(s, RollupWindowPlan(f), w, prices)) == MapSummary(RawTotal(s.events, f, w, prices))
            <==> forall e :: e in pending ==> !InHours(g, w)(e)
  {
    if missed :| missed in pending && InHours(g, w)(missed) {
      PlanUndercounts(s, pending, f, w, prices, g, missed);
    } else {
      PlanMatchesRaw(s, pending, f, w, prices);
      SameSummary(PlanTotal(s, RollupWindowPlan(f), w, prices), RawTotal(s.events, f, w, prices));
    }
  }
}

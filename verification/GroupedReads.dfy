/** Grouped analytics over a window plan: trend buckets, models, providers and heatmap cells are all
    groups of a dimension that either source can render (internal/repository/analytics_core.go,
    analytics_aggregate_source.go, analytics_rollup_provider_model.go). */
module GroupedReads {
  import opened Accounting
  import opened AggregateRows
  import opened Aggregation
  import opened AnalyticsPlan
  import opened MixedReads
  import opened RollupIndex
  import opened UsageEvents
  import opened UsageStore
  import opened WindowPlan

  /** The grouping expression, rendered for an event and for a rollup row. */
  datatype Dimension<!B> = Dimension(event: UsageEvent -> B, key: RollupKey -> B)

  /** One group of a restricted query. */
  function AtGroup<B(==)>(w: Where, d: Dimension<B>, b: B): Where {
    Where(e => w.event(e) && d.event(e) == b, k => w.key(k) && d.key(k) == b)
  }

  function RawGroups<B(==)>(es: seq<UsageEvent>, f: Filter, w: Where, d: Dimension<B>, prices: Prices):
    map<B, AggregateRow> {
    GroupBy(ROWS, d.event, EventRow(prices), Select(es, InRaw(f, w)))
  }

  ghost function RollupGroups<B>(s: Store, g: Filter, w: Where, d: Dimension<B>, prices: Prices): map<B, AggregateRow> {
    map b | b in (set k | k in RollupKeysIn(s, g, w) :: d.key(k)) :: RollupTotal(s, g, AtGroup(w, d, b), prices)
  }

  /** The groups of the raw segments, merged one segment at a time. */
  function SegmentGroups<B(==)>(es: seq<UsageEvent>, fs: seq<Filter>, w: Where, d: Dimension<B>, prices: Prices):
    map<B, AggregateRow> {
    if fs == [] then map[]
    else MergeGroups(ROWS, SegmentGroups(es, fs[..|fs| - 1], w, d, prices), RawGroups(es, fs[|fs| - 1], w, d, prices))
  }

  ghost function PlanGroups<B>(s: Store, p: Plan, w: Where, d: Dimension<B>, prices: Prices): map<B, AggregateRow> {
    var raw := SegmentGroups(s.events, p.raw, w, d, prices);
    if p.rollup.None? then raw else MergeGroups(ROWS, raw, RollupGroups(s, p.rollup.value, w, d, prices))
  }

  lemma RequestsAdd(a: AggregateRow, b: AggregateRow)
    ensures AddRows(a, b).requests == a.requests + b.requests
  {
  }

  lemma RawGroupAt<B(!new)>(es: seq<UsageEvent>, f: Filter, w: Where, d: Dimension<B>, prices: Prices, b: B)
    ensures GroupAt(ROWS, RawGroups(es, f, w, d, prices), b) == RawTotal(es, f, AtGroup(w, d, b), prices)
  {
    var some := Select(es, InRaw(f, w));
    SelectTwice(es, InRaw(f, w), At(d.event, b), InRaw(f, AtGroup(w, d, b)));
    GroupByAt(ROWS, d.event, EventRow(prices), some, b);
  }

  lemma RawGroupPresent<B(!new)>(es: seq<UsageEvent>, f: Filter, w: Where, d: Dimension<B>, prices: Prices, b: B)
    ensures b in RawGroups(es, f, w, d, prices) <==> 0 < RawTotal(es, f, AtGroup(w, d, b), prices).requests
    ensures 0 <= RawTotal(es, f, AtGroup(w, d, b), prices).requests
  {
    var some := Select(es, InRaw(f, w));
    SelectTwice(es, InRaw(f, w), At(d.event, b), InRaw(f, AtGroup(w, d, b)));
    RequestsOfRows(Select(some, At(d.event, b)), prices);
    if b in Keys(d.event, some) {
      var e :| e in some && d.event(e) == b;
      SelectIn(some, At(d.event, b), e);
    } else {
      SelectNone(some, At(d.event, b));
    }
  }

  lemma {:induction false} SegmentGroupAt<B(!new)>(es: seq<UsageEvent>, fs: seq<Filter>, w: Where, d: Dimension<B>,
      prices: Prices, b: B)
    ensures GroupAt(ROWS, SegmentGroups(es, fs, w, d, prices), b) == RawSegments(es, fs, AtGroup(w, d, b), prices)
  {
    if fs != [] {
      var front, last := fs[..|fs| - 1], fs[|fs| - 1];
      SegmentGroupAt(es, front, w, d, prices, b);
      RawGroupAt(es, last, w, d, prices, b);
      RowsLawful();
      MergedAt(ROWS, SegmentGroups(es, front, w, d, prices), RawGroups(es, last, w, d, prices), b);
    }
  }

  lemma {:induction false} SegmentGroupPresent<B(!new)>(es: seq<UsageEvent>, fs: seq<Filter>, w: Where, d: Dimension<B>,
      prices: Prices, b: B)
    ensures b in SegmentGroups(es, fs, w, d, prices) <==> 0 < RawSegments(es, fs, AtGroup(w, d, b), prices).requests
    ensures 0 <= RawSegments(es, fs, AtGroup(w, d, b), prices).requests
  {
    if fs != [] {
      var front, last := fs[..|fs| - 1], fs[|fs| - 1];
      SegmentGroupPresent(es, front, w, d, prices, b);
      RawGroupPresent(es, last, w, d, prices, b);
      RequestsAdd(RawSegments(es, front, AtGroup(w, d, b), prices), RawTotal(es, last, AtGroup(w, d, b), prices));
    }
  }

  /** The dimension reads the same from an event as from its rollup row. */
  ghost predicate Stable<B(!new)>(d: Dimension<B>, g: Filter, es: seq<UsageEvent>) {
    forall e :: e in es && Covers(g, HourOf(e.timestamp)) ==> d.event(e) == d.key(KeyOf(e))
  }

  lemma GroupRenders<B(!new)>(w: Where, d: Dimension<B>, g: Filter, es: seq<UsageEvent>, b: B)
    requires Renders(w, g, es) && Stable(d, g, es)
    ensures Renders(AtGroup(w, d, b), g, es)
  {
  }

  /** A rollup group that has no row has no indexed event. */
  lemma RollupGroupMissing<B(!new)>(s: Store, g: Filter, w: Where, d: Dimension<B>, prices: Prices, b: B)
    requires b !in RollupGroups(s, g, w, d, prices)
    ensures RollupTotal(s, g, AtGroup(w, d, b), prices) == EMPTY_ROW
  {
    assert RollupKeysIn(s, g, AtGroup(w, d, b)) == {};
  }

  lemma RollupGroupWitness<B(!new)>(s: Store, pending: set<UsageEvent>, g: Filter, w: Where, d: Dimension<B>,
                                    prices: Prices, b: B)
    requires Consistent(s, pending) && Renders(w, g, s.events) && Stable(d, g, s.events)
    requires b in RollupGroups(s, g, w, d, prices)
    ensures Select(Select(s.events, Outside(pending)), InHours(g, AtGroup(w, d, b))) != []
  {
    var at, indexed := AtGroup(w, d, b), Select(s.events, Outside(pending));
    GroupRenders(w, d, g, s.events, b);
    var k :| k in RollupKeysIn(s, g, w) && d.key(k) == b;
    var e :| e in indexed && KeyOf(e) == k;
    RollupKeysAreEvents(s, pending, g, at, e);
    SelectIn(indexed, InHours(g, at), e);
  }

  lemma RollupGroupPresent<B(!new)>(s: Store, pending: set<UsageEvent>, g: Filter, w: Where, d: Dimension<B>,
                                    prices: Prices, b: B)
    requires Consistent(s, pending) && Renders(w, g, s.events) && Stable(d, g, s.events)
    ensures 0 <= RollupTotal(s, g, AtGroup(w, d, b), prices).requests
    ensures b in RollupGroups(s, g, w, d, prices) <==> 0 < RollupTotal(s, g, AtGroup(w, d, b), prices).requests
  {
    if b in RollupGroups(s, g, w, d, prices) {
      var at := AtGroup(w, d, b);
      GroupRenders(w, d, g, s.events, b);
      RollupSegmentMatches(s, pending, g, at, prices);
      RequestsOfRows(Select(Select(s.events, Outside(pending)), InHours(g, at)), prices);
      RollupGroupWitness(s, pending, g, w, d, prices, b);
    } else {
      RollupGroupMissing(s, g, w, d, prices, b);
    }
  }

  lemma RollupGroupAt<B>(s: Store, g: Filter, w: Where, d: Dimension<B>, prices: Prices, b: B)
    ensures GroupAt(ROWS, RollupGroups(s, g, w, d, prices), b) == RollupTotal(s, g, AtGroup(w, d, b), prices)
  {
    if b !in RollupGroups(s, g, w, d, prices) {
      assert RollupKeysIn(s, g, AtGroup(w, d, b)) == {};
    }
  }

  lemma MixedGroupAt<B(!new)>(s: Store, fs: seq<Filter>, g: Filter, w: Where, d: Dimension<B>, prices: Prices, b: B)
    ensures GroupAt(ROWS,
                    MergeGroups(ROWS, SegmentGroups(s.events, fs, w, d, prices), RollupGroups(s, g, w, d, prices)), b)
         == AddRows(RawSegments(s.events, fs, AtGroup(w, d, b), prices), RollupTotal(s, g, AtGroup(w, d, b), prices))
  {
    var raw, hours := SegmentGroups(s.events, fs, w, d, prices), RollupGroups(s, g, w, d, prices);
    assert GroupAt(ROWS, raw, b) == RawSegments(s.events, fs, AtGroup(w, d, b), prices) by {
      SegmentGroupAt(s.events, fs, w, d, prices, b);
    }
    assert GroupAt(ROWS, hours, b) == RollupTotal(s, g, AtGroup(w, d, b), prices) by {
      RollupGroupAt(s, g, w, d, prices, b);
    }
    MergedRows(raw, hours, b);
  }

  lemma PlanGroupAt<B(!new)>(s: Store, p: Plan, w: Where, d: Dimension<B>, prices: Prices, b: B)
    ensures GroupAt(ROWS, PlanGroups(s, p, w, d, prices), b) == PlanTotal(s, p, AtGroup(w, d, b), prices)
  {
    if p.rollup.Some? {
      MixedGroupAt(s, p.raw, p.rollup.value, w, d, prices, b);
    } else {
      SegmentGroupAt(s.events, p.raw, w, d, prices, b);
    }
  }

  lemma MergedRows<B>(a: map<B, AggregateRow>, c: map<B, AggregateRow>, b: B)
    ensures GroupAt(ROWS, MergeGroups(ROWS, a, c), b) == AddRows(GroupAt(ROWS, a, b), GroupAt(ROWS, c, b))
  {
    RowsLawful();
    MergedAt(ROWS, a, c, b);
  }

  lemma PlanGroupPresent<B(!new)>(s: Store, pending: set<UsageEvent>, p: Plan, w: Where, d: Dimension<B>,
                                  prices: Prices, b: B)
    requires Consistent(s, pending)
    requires p.rollup.Some? ==> Renders(w, p.rollup.value, s.events) && Stable(d, p.rollup.value, s.events)
    ensures b in PlanGroups(s, p, w, d, prices) <==> 0 < PlanTotal(s, p, AtGroup(w, d, b), prices).requests
  {
    SegmentGroupPresent(s.events, p.raw, w, d, prices, b);
    if p.rollup.Some? {
      RollupGroupPresent(s, pending, p.rollup.value, w, d, prices, b);
      RequestsAdd(RawSegments(s.events, p.raw, AtGroup(w, d, b), prices),
                  RollupTotal(s, p.rollup.value, AtGroup(w, d, b), prices));
    }
  }

  /** Merging the segments of a plan gives the groups of one raw scan: the same groups, with the same
      values up to the eligibility counts. */
  lemma PlanGroupsMatchRaw<B(!new)>(s: Store, pending: set<UsageEvent>, f: Filter, w: Where, d: Dimension<B>,
                                    prices: Prices)
    requires Consistent(s, pending)
    requires var p := RollupWindowPlan(f); p.rollup.Some? ==>
      && Renders(w, p.rollup.value, s.events) && Stable(d, p.rollup.value, s.events)
      && forall e :: e in pending ==> !InHours(p.rollup.value, w)(e)
    ensures var merged, raw := PlanGroups(s, RollupWindowPlan(f), w, d, prices), RawGroups(s.events, f, w, d, prices);
      merged.Keys == raw.Keys && forall b :: b in raw ==> Same(merged[b], raw[b])
  {
    var merged, raw := PlanGroups(s, RollupWindowPlan(f), w, d, prices), RawGroups(s.events, f, w, d, prices);
    forall b
      ensures (b in merged <==> b in raw) && (b in raw ==> Same(merged[b], raw[b]))
    {
      PlanGroupAt(s, RollupWindowPlan(f), w, d, prices, b);
      PlanGroupPresent(s, pending, RollupWindowPlan(f), w, d, prices, b);
      RawGroupAt(s.events, f, w, d, prices, b);
      RawGroupPresent(s.events, f, w, d, prices, b);
      if RollupWindowPlan(f).rollup.Some? {
        GroupRenders(w, d, RollupWindowPlan(f).rollup.value, s.events, b);
      }
      PlanMatchesRaw(s, pending, f, AtGroup(w, d, b), prices);
    }
    assert merged.Keys == raw.Keys;
  }
}

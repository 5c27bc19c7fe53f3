/** Core analytics: choosing raw or rollup reads, and the loops that merge the segments of the chosen
    plan (internal/repository/analytics_core.go). */
module AnalyticsCore {
  import opened Accounting
  import opened AggregateRows
  import opened Aggregation
  import opened AnalyticsPlan
  import opened GroupedReads
  import opened RowSums
  import opened UsageEvents
  import opened UsageStore
  import opened WindowPlan

  /** The rollup plan when there is one and rollup reads are allowed, the raw plan otherwise. */
  function ChosenPlan(s: Store, f: Filter): Plan {
    var p := RollupWindowPlan(f);
    if p.rollup.Some? && !RollupReadAllowed(s.backfill) then RawPlan(f) else p
  }

  /** Rollups are read exactly when the window has a full hour and the backfill is completed and has covered its
      target. */
  lemma PlanChoice(s: Store, f: Filter)
    ensures ChosenPlan(s, f).rollup.Some? <==>
      && (exists h :: Aligned(h) && f.start.Some? && f.end.Some? && f.start.value <= h && h + HOUR - 1 <= f.end.value)
      && s.backfill.phase.Completed? && s.backfill.target.Some? && s.backfill.covered.Some?
      && HourOf(s.backfill.covered.value) >= HourOf(s.backfill.target.value)
    ensures ChosenPlan(s, f).rollup.None? ==> ChosenPlan(s, f).raw == [f]
  {
    if f.start.Some? && f.end.Some? {
      FullBuckets(f.start.value, f.end.value);
      forall h | Aligned(h)
        ensures (RollupWindowPlan(f).rollup.Some? && Covers(RollupWindowPlan(f).rollup.value, h))
            <==> (f.start.value <= h && h + HOUR - 1 <= f.end.value)
      {
        RollupHoursAreTheFullHours(f, h);
      }
      if RollupWindowPlan(f).rollup.Some? {
        var h := RollupWindowPlan(f).rollup.value.start.value;
        assert Aligned(h) && Covers(RollupWindowPlan(f).rollup.value, h);
      }
    }
  }

  // The loops

  method SumRollupRows(rows: map<RollupKey, AggregateRow>, ks: set<RollupKey>) returns (total: AggregateRow)
    requires ks <= rows.Keys
    ensures total == SumOver(ROWS, rows, ks)
  {
    RowsLawful();
    total := EMPTY_ROW;
    var rest := ks;
    while rest != {}
      invariant rest <= ks
      invariant total == SumOver(ROWS, rows, ks - rest)
    {
      var k :| k in rest;
      assert (ks - (rest - {k})) - {k} == ks - rest;
      SumOverAny(ROWS, rows, ks - (rest - {k}), k);
      total := AddRows(total, rows[k]);
      rest := rest - {k};
    }
    assert ks - rest == ks;
  }

  lemma RawSegmentsSnoc(es: seq<UsageEvent>, fs: seq<Filter>, i: nat, w: Where, prices: Prices)
    requires i < |fs|
    ensures RawSegments(es, fs[..i + 1], w, prices)
      == AddRows(RawSegments(es, fs[..i], w, prices), RawTotal(es, fs[i], w, prices))
  {
    assert fs[..i + 1][..i] == fs[..i];
  }

  method SumRawSegments(es: seq<UsageEvent>, fs: seq<Filter>, w: Where, prices: Prices) returns (combined: AggregateRow)
    ensures combined == RawSegments(es, fs, w, prices)
  {
    combined := EMPTY_ROW;
    for i := 0 to |fs|
      invariant combined == RawSegments(es, fs[..i], w, prices)
    {
      RawSegmentsSnoc(es, fs, i, w, prices);
      combined := AddRows(combined, RawTotal(es, fs[i], w, prices));
    }
    assert fs[..|fs|] == fs;
  }

  method SumRollupSegment(s: Store, g: Filter, w: Where, prices: Prices) returns (row: AggregateRow)
    ensures row == RollupTotal(s, g, w, prices)
  {
    var ks := set k | k in s.rollups && InRollup(g, w, k);
    row := SumRollupRows(Rendered(s.rollups, prices), ks);
  }

  /** `buildAnalyticsCoreSummary`. */
  method BuildSummary(s: Store, p: Plan, prices: Prices) returns (summary: Summary)
    ensures summary == MapSummary(PlanTotal(s, p, EVERYTHING, prices))
  {
    var combined := SumRawSegments(s.events, p.raw, EVERYTHING, prices);
    if p.rollup.Some? {
      var row := SumRollupSegment(s, p.rollup.value, EVERYTHING, prices);
      combined := AddRows(combined, row);
    }
    summary := MapSummary(combined);
  }

  /** `addAnalyticsAggregateRowsByBucket`: every group of `rows` is added into `dst`. */
  method AddRowsByGroup<B(==)>(dst: map<B, AggregateRow>, rows: map<B, AggregateRow>) returns (r: map<B, AggregateRow>)
    ensures r == MergeGroups(ROWS, dst, rows)
  {
    r := dst;
    var rest := rows.Keys;
    while rest != {}
      invariant rest <= rows.Keys
      invariant r.Keys == dst.Keys + (rows.Keys - rest)
      invariant forall b :: b in r ==>
        r[b] == if b in rows && b !in rest then MergeGroups(ROWS, dst, rows)[b] else dst[b]
    {
      var b :| b in rest;
      var combined := if b in r then r[b] else EMPTY_ROW;
      EmptyIsNeutral(rows[b]);
      r := r[b := AddRows(combined, rows[b])];
      rest := rest - {b};
    }
  }

  lemma EmptyIsNeutral(r: AggregateRow)
    ensures AddRows(EMPTY_ROW, r) == r
  {
  }

  /** Rows grouped one by one. */
  method GroupRows<K(==, !new), B(==, !new)>(rows: map<K, AggregateRow>, ks: set<K>, part: K -> B)
    returns (r: map<B, AggregateRow>)
    requires ks <= rows.Keys
    ensures r == Regroup(ROWS, rows, ks, part)
  {
    RowsLawful();
    r := map[];
    var rest := ks;
    while rest != {}
      invariant rest <= ks
      invariant r == Regroup(ROWS, rows, ks - rest, part)
    {
      var k :| k in rest;
      assert ks - (rest - {k}) - {k} == ks - rest;
      RegroupStep(ROWS, rows, ks - (rest - {k}), part, k);
      r := r[part(k) := AddRows(GroupAt(ROWS, r, part(k)), rows[k])];
      rest := rest - {k};
    }
    assert ks - rest == ks;
  }

  /** Rollup rows grouped by a dimension. */
  method GroupRollupRows<B(==, !new)>(s: Store, g: Filter, w: Where, d: Dimension<B>, prices: Prices)
    returns (r: map<B, AggregateRow>)
    ensures r == RollupGroups(s, g, w, d, prices)
  {
    var ks := set k | k in s.rollups && InRollup(g, w, k);
    r := GroupRows(Rendered(s.rollups, prices), ks, d.key);
    RollupGroupsAreRegrouped(s, g, w, d, prices);
  }

  lemma RollupGroupsAreRegrouped<B(!new)>(s: Store, g: Filter, w: Where, d: Dimension<B>, prices: Prices)
    ensures Regroup(ROWS, Rendered(s.rollups, prices), RollupKeysIn(s, g, w), d.key) == RollupGroups(s, g, w, d, prices)
  {
    forall b | b in RollupGroups(s, g, w, d, prices)
      ensures Part(RollupKeysIn(s, g, w), d.key, b) == RollupKeysIn(s, g, AtGroup(w, d, b))
    {
    }
  }

  lemma SegmentGroupsSnoc<B(!new)>(es: seq<UsageEvent>, fs: seq<Filter>, i: nat, w: Where, d: Dimension<B>,
                                   prices: Prices)
    requires i < |fs|
    ensures SegmentGroups(es, fs[..i + 1], w, d, prices)
         == MergeGroups(ROWS, SegmentGroups(es, fs[..i], w, d, prices), RawGroups(es, fs[i], w, d, prices))
  {
    assert fs[..i + 1][..i] == fs[..i];
  }

  method GroupRawSegments<B(==, !new)>(es: seq<UsageEvent>, fs: seq<Filter>, w: Where, d: Dimension<B>, prices: Prices)
    returns (combined: map<B, AggregateRow>)
    ensures combined == SegmentGroups(es, fs, w, d, prices)
  {
    combined := map[];
    for i := 0 to |fs|
      invariant combined == SegmentGroups(es, fs[..i], w, d, prices)
    {
      SegmentGroupsSnoc(es, fs, i, w, d, prices);
      combined := AddRowsByGroup(combined, RawGroups(es, fs[i], w, d, prices));
    }
    assert fs[..|fs|] == fs;
  }

  /** The loop of `buildAnalyticsCoreTrend` for any dimension. */
  method BuildGroups<B(==, !new)>(s: Store, p: Plan, w: Where, d: Dimension<B>, prices: Prices)
    returns (combined: map<B, AggregateRow>)
    ensures combined == PlanGroups(s, p, w, d, prices)
  {
    combined := GroupRawSegments(s.events, p.raw, w, d, prices);
    if p.rollup.Some? {
      var rows := GroupRollupRows(s, p.rollup.value, w, d, prices);
      combined := AddRowsByGroup(combined, rows);
    }
  }
}

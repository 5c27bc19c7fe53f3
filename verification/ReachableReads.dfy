/** What analytics report in every reachable store, and for which trend keys. */
module ReachableReads {
  import opened Accounting
  import opened AggregateRows
  import opened Aggregation
  import opened AnalyticsCore
  import opened AnalyticsPlan
  import opened BackfillRuns
  import opened GroupedReads
  import opened MixedReads
  import opened RollupIndex
  import opened UsageEvents
  import opened UsageStore
  import opened WindowPlan

  lemma OneSegment(es: seq<UsageEvent>, f: Filter, w: Where, prices: Prices, total: AggregateRow)
    requires total == RawTotal(es, f, w, prices)
    ensures RawSegments(es, [f], w, prices) == AddRows(EMPTY_ROW, total)
  {
    assert [f][..0] == [];
  }

  lemma RawPlanIsRaw(s: Store, f: Filter, w: Where, prices: Prices)
    ensures PlanTotal(s, RawPlan(f), w, prices) == RawTotal(s.events, f, w, prices)
  {
    var total := RawTotal(s.events, f, w, prices);
    OneSegment(s.events, f, w, prices, total);
    EmptyIsNeutral(total);
  }

  /** No event stored before the rollups lies past the backfill target. */
  predicate LegacyWithinTarget(t: Tracked, b: BackfillStatus) {
    b.target.Some? ==> forall e :: e in t.store.events ==> HourOf(e.timestamp) <= b.target.value
  }

  ghost predicate AllClean(s: Store) { forall e :: e in s.events ==> Clean(e) }

  lemma EverythingRenders(s: Store, g: Filter)
    requires AllClean(s)
    ensures Renders(EVERYTHING, g, s.events)
  {
  }

  lemma NothingPendingWhenAllowed(t: Tracked, steps: seq<Step>)
    requires Initial(t) && forall step :: step in steps ==> Production(step)
    requires LegacyWithinTarget(t, Run(t, steps).store.backfill)
    requires RollupReadAllowed(Run(t, steps).store.backfill)
    ensures Run(t, steps).pending == {} && Inv(Run(t, steps))
  {
    AllowedReadsExactIffLegacyWithinTarget(t, steps);
    AllowedReadsAreExactIff(t, steps);
    RunKeepsInv(t, steps);
  }

  lemma RawTotalIsSame(es: seq<UsageEvent>, f: Filter, w: Where, prices: Prices)
    ensures Same(RawTotal(es, f, w, prices), RawTotal(es, f, w, prices))
  {
    forall e ensures Counted(EventRow(prices)(e)) { EventRowCounted(prices, e); }
    TotalCounted(EventRow(prices), Select(es, InRaw(f, w)));
    SameSelf(RawTotal(es, f, w, prices));
  }

  /** In every reachable store, for every window, provider, price table and restriction that reads the same from
      events and rollup rows, the aggregate through the chosen plan is that of the raw events. */
  lemma ReachableTotalIsRaw(t: Tracked, steps: seq<Step>, f: Filter, w: Where, prices: Prices)
    requires Initial(t) && forall step :: step in steps ==> Production(step)
    requires LegacyWithinTarget(t, Run(t, steps).store.backfill)
    requires RollupWindowPlan(f).rollup.Some? ==>
      Renders(w, RollupWindowPlan(f).rollup.value, Run(t, steps).store.events)
    ensures var s := Run(t, steps).store;
      Same(PlanTotal(s, ChosenPlan(s, f), w, prices), RawTotal(s.events, f, w, prices))
  {
    var s := Run(t, steps).store;
    if ChosenPlan(s, f) == RawPlan(f) {
      RawPlanIsRaw(s, f, w, prices);
      RawTotalIsSame(s.events, f, w, prices);
    } else {
      NothingPendingWhenAllowed(t, steps);
      PlanMatchesRaw(s, {}, f, w, prices);
    }
  }

  /** So is the summary. */
  lemma ReachableSummaryIsRaw(t: Tracked, steps: seq<Step>, f: Filter, prices: Prices)
    requires Initial(t) && forall step :: step in steps ==> Production(step)
    requires AllClean(Run(t, steps).store) && LegacyWithinTarget(t, Run(t, steps).store.backfill)
    ensures var s := Run(t, steps).store;
      MapSummary(PlanTotal(s, ChosenPlan(s, f), EVERYTHING, prices))
        == MapSummary(RawTotal(s.events, f, EVERYTHING, prices))
  {
    var s := Run(t, steps).store;
    if RollupWindowPlan(f).rollup.Some? {
      EverythingRenders(s, RollupWindowPlan(f).rollup.value);
    }
    ReachableTotalIsRaw(t, steps, f, EVERYTHING, prices);
    SameSummary(PlanTotal(s, ChosenPlan(s, f), EVERYTHING, prices), RawTotal(s.events, f, EVERYTHING, prices));
  }

  /** Without any assumption on legacy events, windows whose rollup hours end by the target are exact. */
  lemma WindowsUpToTargetAreExact(t: Tracked, steps: seq<Step>, f: Filter, prices: Prices, g: Filter)
    requires Initial(t) && forall step :: step in steps ==> Polite(step)
    requires AllClean(Run(t, steps).store) && RollupReadAllowed(Run(t, steps).store.backfill)
    requires RollupWindowPlan(f).rollup == Some(g) && g.end.value <= Run(t, steps).store.backfill.target.value
    ensures var s := Run(t, steps).store;
      MapSummary(PlanTotal(s, ChosenPlan(s, f), EVERYTHING, prices))
        == MapSummary(RawTotal(s.events, f, EVERYTHING, prices))
  {
    RunKeepsInv(t, steps);
    AllowedReadsAreExactIff(t, steps);
    PendingPastWindow(Run(t, steps).store, Run(t, steps).pending, f, prices, g);
  }

  lemma PendingPastWindow(s: Store, pending: set<UsageEvent>, f: Filter, prices: Prices, g: Filter)
    requires Consistent(s, pending) && AllClean(s)
    requires RollupWindowPlan(f).rollup == Some(g) && forall e :: e in pending ==> g.end.value < HourOf(e.timestamp)
    ensures MapSummary(PlanTotal(s, RollupWindowPlan(f), EVERYTHING, prices))
      == MapSummary(RawTotal(s.events, f, EVERYTHING, prices))
  {
    EverythingRenders(s, g);
    PlanMatchesRawIff(s, pending, f, EVERYTHING, prices, g);
  }

  ghost predicate SameGroups<B(!new)>(merged: map<B, AggregateRow>, raw: map<B, AggregateRow>) {
    merged.Keys == raw.Keys && forall b :: b in raw ==> Same(merged[b], raw[b])
  }

  lemma {:induction false} OneSegmentGroups<B(!new)>(es: seq<UsageEvent>, f: Filter, w: Where, d: Dimension<B>,
      prices: Prices)
    ensures SegmentGroups(es, [f], w, d, prices) == RawGroups(es, f, w, d, prices)
  {
    var raw, fs := RawGroups(es, f, w, d, prices), [f];
    assert fs[..|fs| - 1] == [];
    assert MergeGroups(ROWS, SegmentGroups(es, [], w, d, prices), raw) == raw;
  }

  /** The groups of a plan without rollup segment are those of the raw scan. */
  lemma RawPlanGroupsAreRaw<B(!new)>(s: Store, f: Filter, w: Where, d: Dimension<B>, prices: Prices)
    ensures SameGroups(PlanGroups(s, RawPlan(f), w, d, prices), RawGroups(s.events, f, w, d, prices))
  {
    var raw := RawGroups(s.events, f, w, d, prices);
    OneSegmentGroups(s.events, f, w, d, prices);
    forall b | b in raw ensures Same(raw[b], raw[b]) {
      forall e ensures Counted(EventRow(prices)(e)) { EventRowCounted(prices, e); }
      TotalCounted(EventRow(prices), Select(Select(s.events, InRaw(f, w)), At(d.event, b)));
      SameSelf(raw[b]);
    }
  }

  /** The same for every grouping whose key an event shares with its rollup row, in every reachable store,
      through whichever plan is chosen: the same groups appear, with the same values. */
  lemma ReachableGroupsAreRaw<B(!new)>(t: Tracked, steps: seq<Step>, f: Filter, w: Where, d: Dimension<B>,
                                       prices: Prices)
    requires Initial(t) && forall step :: step in steps ==> Production(step)
    requires LegacyWithinTarget(t, Run(t, steps).store.backfill)
    requires RollupWindowPlan(f).rollup.Some? ==>
      Renders(w, RollupWindowPlan(f).rollup.value, Run(t, steps).store.events)
      && Stable(d, RollupWindowPlan(f).rollup.value, Run(t, steps).store.events)
    ensures var s := Run(t, steps).store;
      SameGroups(PlanGroups(s, ChosenPlan(s, f), w, d, prices), RawGroups(s.events, f, w, d, prices))
  {
    var s := Run(t, steps).store;
    if ChosenPlan(s, f) == RawPlan(f) {
      RawPlanGroupsAreRaw(s, f, w, d, prices);
    } else {
      NothingPendingWhenAllowed(t, steps);
      PlanGroupsMatchRaw(s, {}, f, w, d, prices);
    }
  }

  // Trend keys

  /** Hour buckets, as the hourly trend labels them. */
  const HOURLY: Dimension<int> := Dimension((e: UsageEvent) => HourOf(e.timestamp), (k: RollupKey) => k.bucketStart)

  lemma HourlyIsStable(g: Filter, es: seq<UsageEvent>)
    ensures Stable(HOURLY, g, es)
  {
  }

  /** The hourly trend: in every reachable store the same hours appear with the same values. */
  lemma ReachableHourlyTrendIsRaw(t: Tracked, steps: seq<Step>, f: Filter, prices: Prices)
    requires Initial(t) && forall step :: step in steps ==> Production(step)
    requires AllClean(Run(t, steps).store) && LegacyWithinTarget(t, Run(t, steps).store.backfill)
    ensures var s := Run(t, steps).store;
      SameGroups(PlanGroups(s, ChosenPlan(s, f), EVERYTHING, HOURLY, prices),
                 RawGroups(s.events, f, EVERYTHING, HOURLY, prices))
  {
    if RollupWindowPlan(f).rollup.Some? {
      EverythingRenders(Run(t, steps).store, RollupWindowPlan(f).rollup.value);
      HourlyIsStable(RollupWindowPlan(f).rollup.value, Run(t, steps).store.events);
    }
    ReachableGroupsAreRaw(t, steps, f, EVERYTHING, HOURLY, prices);
  }

  /** Local day buckets: raw events use the day of their instant, rollup rows the day of their hour. */
  function Daily(day: int -> int): Dimension<int> {
    Dimension((e: UsageEvent) => day(e.timestamp), (k: RollupKey) => day(k.bucketStart))
  }

  /** Local days begin on UTC hours within the rollup hours. */
  ghost predicate DaysBeginOnHours(day: int -> int, g: Filter) {
    forall t :: Covers(g, HourOf(t)) ==> day(t) == day(HourOf(t))
  }

  lemma DailyIsStable(day: int -> int, g: Filter, es: seq<UsageEvent>)
    requires DaysBeginOnHours(day, g)
    ensures Stable(Daily(day), g, es)
  {
  }

  /** The daily trend, when local days begin on UTC hours. */
  lemma ReachableDailyTrendIsRaw(t: Tracked, steps: seq<Step>, f: Filter, day: int -> int, prices: Prices)
    requires Initial(t) && forall step :: step in steps ==> Production(step)
    requires AllClean(Run(t, steps).store) && LegacyWithinTarget(t, Run(t, steps).store.backfill)
    requires RollupWindowPlan(f).rollup.Some? ==> DaysBeginOnHours(day, RollupWindowPlan(f).rollup.value)
    ensures var s := Run(t, steps).store;
      SameGroups(PlanGroups(s, ChosenPlan(s, f), EVERYTHING, Daily(day), prices),
                 RawGroups(s.events, f, EVERYTHING, Daily(day), prices))
  {
    if RollupWindowPlan(f).rollup.Some? {
      EverythingRenders(Run(t, steps).store, RollupWindowPlan(f).rollup.value);
      DailyIsStable(day, RollupWindowPlan(f).rollup.value, Run(t, steps).store.events);
    }
    ReachableGroupsAreRaw(t, steps, f, EVERYTHING, Daily(day), prices);
  }
}

/** Groupings by local time, in days or in cells of hours: exactly when reading them through rollups agrees with
    the raw events (internal/repository/analytics_trend.go, analytics_heatmap.go). */
module TimeKeyedReads {
  import opened Accounting
  import opened AggregateRows
  import opened Aggregation
  import opened AnalyticsCore
  import opened AnalyticsPlan
  import opened BackfillRuns
  import opened GroupedReads
  import opened MixedReads
  import opened OneEventRuns
  import opened ReachableReads
  import opened RollupIndex
  import opened Rollups
  import opened Trimming
  import opened UsageEvents
  import opened UsageStore
  import opened WindowPlan

  /** A grouping that looks at instants only, at that of an event and at the hour of a rollup row; at most one
      key is dropped. */
  ghost predicate TimeKeyed<B(!new)>(w: Where, d: Dimension<B>, kept: B -> bool, cell: int -> B) {
    && (forall e :: w.event(e) == kept(cell(e.timestamp)) && d.event(e) == cell(e.timestamp))
    && (forall k :: w.key(k) == kept(cell(k.bucketStart)) && d.key(k) == cell(k.bucketStart))
    && forall a, b :: !kept(a) && !kept(b) ==> a == b
  }

  /** No rollup hour is split between two keys. */
  ghost predicate WholeHours<B(!new)>(g: Filter, cell: int -> B) {
    forall t :: Covers(g, HourOf(t)) ==> cell(t) == cell(HourOf(t))
  }

  /** A reachable store whose rollups are read, with decoded texts and no legacy event past the target. */
  ghost predicate Readable(t: Tracked, steps: seq<Step>) {
    && Initial(t) && (forall step :: step in steps ==> Production(step))
    && AllClean(Run(t, steps).store) && LegacyWithinTarget(t, Run(t, steps).store.backfill)
    && RollupReadAllowed(Run(t, steps).store.backfill)
  }

  /** The groups read through the chosen plan are the raw ones. */
  ghost predicate ReportIsRaw<B(!new)>(s: Store, f: Filter, w: Where, d: Dimension<B>, prices: Prices) {
    SameGroups(PlanGroups(s, ChosenPlan(s, f), w, d, prices), RawGroups(s.events, f, w, d, prices))
  }

  /** The provider of a filter, trimmed, is found by both sources. */
  lemma TrimmedProviderIsClean(f: Filter, at: int)
    ensures var e := OneEvent(TrimSpace(f.provider), at);
      Clean(e) && ProviderMatches(f, e.provider) && TrimSpace(e.provider) == TrimSpace(f.provider)
  {
    TrimIdempotent(f.provider);
    TrimIdempotent("");
  }

  /** The one event of a split hour is shown under the key of its hour, which no raw event has. */
  lemma {:induction false} HourKeyIsShown<B(!new)>(s: Store, f: Filter, g: Filter, w: Where, d: Dimension<B>,
      kept: B -> bool, cell: int -> B, at: int, prices: Prices)
    requires RollupWindowPlan(f).rollup == Some(g) && TimeKeyed(w, d, kept, cell) && Covers(g, HourOf(at))
    requires s.events == [OneEvent(TrimSpace(f.provider), at)] && s.rollups == Group(s.events)
    requires cell(at) != cell(HourOf(at)) && kept(cell(HourOf(at)))
    ensures cell(HourOf(at)) in PlanGroups(s, RollupWindowPlan(f), w, d, prices)
    ensures cell(HourOf(at)) !in RawGroups(s.events, f, w, d, prices)
  {
    var e := s.events[0];
    TrimmedProviderIsClean(f, at);
    InRollupGroup(s, e, f, g, w, d, prices);
    NotInRawGroup(s.events, f, w, d, prices, cell(HourOf(at)));
  }

  /** One event of the rollup hours is the only request, and no raw segment reads it. */
  lemma {:induction false} OnlyRequest(e: UsageEvent, f: Filter, g: Filter, w: Where, prices: Prices)
    requires RollupWindowPlan(f).rollup == Some(g) && InHours(g, w)(e)
    requires 0 <= RawSegments([e], RollupWindowPlan(f).raw, w, prices).requests
    ensures 0 < RawTotal([e], f, w, prices).requests
    ensures RawSegments([e], RollupWindowPlan(f).raw, w, prices).requests == 0
  {
    var hours := Select([e], InHours(g, w));
    WindowSplits([e], f, w, prices);
    RequestsAdd(RawSegments([e], RollupWindowPlan(f).raw, w, prices), Total(ROWS, EventRow(prices), hours));
    SelectAtMost([e], InHours(g, w));
    SelectAtMost([e], InRaw(f, w));
    SelectIn([e], InHours(g, w), e);
    RequestsOfRows(hours, prices);
    RequestsOfRows(Select([e], InRaw(f, w)), prices);
  }

  lemma {:induction false} OnlyEventInHours<B(!new)>(e: UsageEvent, f: Filter, g: Filter, w: Where, d: Dimension<B>,
                                                     prices: Prices, b: B)
    requires RollupWindowPlan(f).rollup == Some(g) && InHours(g, AtGroup(w, d, b))(e)
    ensures b in RawGroups([e], f, w, d, prices)
    ensures b !in SegmentGroups([e], RollupWindowPlan(f).raw, w, d, prices)
  {
    RawGroupPresent([e], f, w, d, prices, b);
    SegmentGroupPresent([e], RollupWindowPlan(f).raw, w, d, prices, b);
    OnlyRequest(e, f, g, AtGroup(w, d, b), prices);
  }

  /** Or it is dropped with its hour, although its own key is kept. */
  lemma {:induction false} OwnKeyIsDropped<B(!new)>(s: Store, f: Filter, g: Filter, w: Where, d: Dimension<B>,
      kept: B -> bool, cell: int -> B, at: int, prices: Prices)
    requires RollupWindowPlan(f).rollup == Some(g) && TimeKeyed(w, d, kept, cell) && Covers(g, HourOf(at))
    requires s.events == [OneEvent(TrimSpace(f.provider), at)] && s.rollups == Group(s.events)
    requires kept(cell(at)) && !kept(cell(HourOf(at)))
    ensures cell(at) !in PlanGroups(s, RollupWindowPlan(f), w, d, prices)
    ensures cell(at) in RawGroups(s.events, f, w, d, prices)
  {
    var e := s.events[0];
    TrimmedProviderIsClean(f, at);
    OnlyEventInHours(e, f, g, w, d, prices, cell(at));
    assert RollupKeysIn(s, g, w) == {};
  }

  lemma {:induction false} OneEventIsReadable(f: Filter, at: int, now: int)
    ensures var steps := OneEventSteps(TrimSpace(f.provider), at, now);
      var s := Run(NEW_INSTALLATION, steps).store;
      && Readable(NEW_INSTALLATION, steps) && ChosenPlan(s, f) == RollupWindowPlan(f)
      && s.events == [OneEvent(TrimSpace(f.provider), at)] && Exact(s)
  {
    OneEventRun(TrimSpace(f.provider), at, now);
    TrimmedProviderIsClean(f, at);
  }

  lemma OtherKeys<B(!new)>(s: Store, f: Filter, w: Where, d: Dimension<B>, prices: Prices, b: B)
    requires b in PlanGroups(s, ChosenPlan(s, f), w, d, prices) <==> b !in RawGroups(s.events, f, w, d, prices)
    ensures !ReportIsRaw(s, f, w, d, prices)
  {
  }

  /** A split hour is reported differently by a store of one event, in a run of production. */
  lemma {:induction false} SplitHourDiffers<B(!new)>(f: Filter, g: Filter, w: Where, d: Dimension<B>, kept: B -> bool,
                                                     cell: int -> B, at: int, now: int, prices: Prices)
    requires RollupWindowPlan(f).rollup == Some(g) && TimeKeyed(w, d, kept, cell) && Covers(g, HourOf(at))
    requires cell(at) != cell(HourOf(at))
    ensures var steps := OneEventSteps(TrimSpace(f.provider), at, now);
      Readable(NEW_INSTALLATION, steps) && !ReportIsRaw(Run(NEW_INSTALLATION, steps).store, f, w, d, prices)
  {
    var s := Run(NEW_INSTALLATION, OneEventSteps(TrimSpace(f.provider), at, now)).store;
    OneEventIsReadable(f, at, now);
    SplitEventDiffers(s, f, g, w, d, kept, cell, at, prices);
  }

  lemma {:induction false} SplitEventDiffers<B(!new)>(s: Store, f: Filter, g: Filter, w: Where, d: Dimension<B>,
                                                      kept: B -> bool, cell: int -> B, at: int, prices: Prices)
    requires RollupWindowPlan(f).rollup == Some(g) && TimeKeyed(w, d, kept, cell) && Covers(g, HourOf(at))
    requires s.events == [OneEvent(TrimSpace(f.provider), at)] && s.rollups == Group(s.events)
    requires ChosenPlan(s, f) == RollupWindowPlan(f) && cell(at) != cell(HourOf(at))
    ensures !ReportIsRaw(s, f, w, d, prices)
  {
    if kept(cell(HourOf(at))) {
      HourKeyIsShown(s, f, g, w, d, kept, cell, at, prices);
      OtherKeys(s, f, w, d, prices, cell(HourOf(at)));
    } else {
      OwnKeyIsDropped(s, f, g, w, d, kept, cell, at, prices);
      OtherKeys(s, f, w, d, prices, cell(at));
    }
  }

  /** Every readable store reports the raw groups if and only if no rollup hour is split between two keys. */
  lemma {:induction false} ReportsAreRawIff<B(!new)>(f: Filter, g: Filter, w: Where, d: Dimension<B>, kept: B -> bool,
      cell: int -> B, prices: Prices)
    requires RollupWindowPlan(f).rollup == Some(g) && TimeKeyed(w, d, kept, cell)
    ensures (forall t, steps :: Readable(t, steps) ==> ReportIsRaw(Run(t, steps).store, f, w, d, prices))
      <==> WholeHours(g, cell)
  {
    if WholeHours(g, cell) {
      forall t, steps | Readable(t, steps) ensures ReportIsRaw(Run(t, steps).store, f, w, d, prices) {
        ReachableGroupsAreRaw(t, steps, f, w, d, prices);
      }
    } else {
      var at :| Covers(g, HourOf(at)) && cell(at) != cell(HourOf(at));
      SplitHourDiffers(f, g, w, d, kept, cell, at, 0, prices);
    }
  }

  // Days

  lemma DailyIsTimeKeyed(day: int -> int)
    ensures TimeKeyed(EVERYTHING, Daily(day), (d: int) => true, day)
  {
  }

  /** Daily trends: every readable store shows the raw one if and only if local days begin on UTC hours in the
      rollup hours. */
  lemma {:induction false} DailyTrendIsRawIff(f: Filter, g: Filter, day: int -> int, prices: Prices)
    requires RollupWindowPlan(f).rollup == Some(g)
    ensures (forall t, steps :: Readable(t, steps) ==>
      ReportIsRaw(Run(t, steps).store, f, EVERYTHING, Daily(day), prices))
      <==> DaysBeginOnHours(day, g)
  {
    DailyIsTimeKeyed(day);
    ReportsAreRawIff(f, g, EVERYTHING, Daily(day), (d: int) => true, day, prices);
  }

  /** An hour that straddles local midnight: one event in it is reported on two different days. */
  lemma {:induction false} MisalignedDayDiffers(day: int -> int, f: Filter, g: Filter, at: int, now: int,
                                                prices: Prices)
    requires RollupWindowPlan(f).rollup == Some(g) && Covers(g, HourOf(at)) && day(at) != day(HourOf(at))
    ensures var steps := OneEventSteps(TrimSpace(f.provider), at, now);
      var s := Run(NEW_INSTALLATION, steps).store;
      && Readable(NEW_INSTALLATION, steps) && Exact(s)
      && day(HourOf(at)) in PlanGroups(s, ChosenPlan(s, f), EVERYTHING, Daily(day), prices)
      && day(HourOf(at)) !in RawGroups(s.events, f, EVERYTHING, Daily(day), prices)
  {
    var s := Run(NEW_INSTALLATION, OneEventSteps(TrimSpace(f.provider), at, now)).store;
    OneEventIsReadable(f, at, now);
    DailyIsTimeKeyed(day);
    HourKeyIsShown(s, f, g, EVERYTHING, Daily(day), (d: int) => true, day, at, prices);
  }
}

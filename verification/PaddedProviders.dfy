/** Provider filters over stored providers that Go and SQLite trim differently: exactly when reading
    through rollups still agrees with the raw rows (internal/repository/analytics_core.go,
    analytics_trend.go). */
module PaddedProviders {
  import opened Accounting
  import opened AggregateRows
  import opened Aggregation
  import opened AnalyticsCore
  import opened AnalyticsPlan
  import opened BackfillRuns
  import opened GroupedReads
  import opened MixedReads
  import opened OneEventRuns
  import opened ReachableReads
  import opened RollupIndex
  import opened Rollups
  import opened RowSums
  import opened Trimming
  import opened UsageEvents
  import opened UsageStore
  import opened WindowPlan

  predicate SameRequests(a: AggregateRow, b: AggregateRow) { a.requests == b.requests }

  lemma RequestsCompatible()
    ensures Compatible(ROWS, SameRequests)
  {
  }

  lemma GroupRowRequests(es: seq<UsageEvent>, k: RollupKey, prices: Prices)
    requires k in Group(es)
    ensures Rendered(Group(es), prices)[k].requests == |Select(es, At(KeyOf, k))|
  {
    assert Group(es)[k] == TotalAt(ROLLUPS, KeyOf, RowOf, es, k);
    RequestsAreCounted(Select(es, At(KeyOf, k)));
  }

  /** Rollup rows report as many requests as the events they group, whatever their texts are. */
  lemma KeyRequests(es: seq<UsageEvent>, ks: set<RollupKey>, prices: Prices)
    requires ks <= Group(es).Keys
    ensures SumOver(ROWS, Rendered(Group(es), prices), ks).requests == |Select(es, Among(KeyOf, ks))|
  {
    var rows := Rendered(Group(es), prices);
    forall k | k in ks ensures SameRequests(rows[k], Total(ROWS, EventRow(prices), Select(es, At(KeyOf, k)))) {
      GroupRowRequests(es, k, prices);
      RequestsOfRows(Select(es, At(KeyOf, k)), prices);
    }
    RowsLawful();
    RequestsCompatible();
    SumOverMatches(ROWS, SameRequests, rows, KeyOf, EventRow(prices), es, ks);
    RequestsOfRows(Select(es, Among(KeyOf, ks)), prices);
  }

  /** An event whose rollup row the filter finds. */
  function TrimmedIn(g: Filter): UsageEvent -> bool {
    (e: UsageEvent) => Covers(g, HourOf(e.timestamp)) && ProviderMatches(g, TrimSpace(e.provider))
  }

  lemma TrimmedIffKey(s: Store, g: Filter, e: UsageEvent)
    requires s.rollups == Group(s.events) && e in s.events
    ensures TrimmedIn(g)(e) <==> KeyOf(e) in RollupKeysIn(s, g, EVERYTHING)
  {
    assert KeyOf(e) in Group(s.events);
  }

  lemma RollupRequests(s: Store, g: Filter, prices: Prices)
    requires Consistent(s, {})
    ensures RollupTotal(s, g, EVERYTHING, prices).requests == |Select(s.events, TrimmedIn(g))|
  {
    SelectAll(s.events, Outside({}));
    var ks := RollupKeysIn(s, g, EVERYTHING);
    KeyRequests(s.events, ks, prices);
    forall e | e in s.events ensures TrimmedIn(g)(e) == Among(KeyOf, ks)(e) {
      TrimmedIffKey(s, g, e);
    }
    SelectSame(s.events, TrimmedIn(g), Among(KeyOf, ks));
  }

  /** A stored provider that the filter names once it is trimmed in Go, but that SQLite trims to something
      else. */
  predicate Padded(e: UsageEvent, f: Filter) {
    TrimSpace(e.provider) == TrimSpace(f.provider) && SqlTrim(e.provider) != TrimSpace(e.provider)
  }

  /** A raw row that the filter finds is also found through its rollup row; the converse fails exactly for
      padded providers. */
  lemma FoundByBothIff(e: UsageEvent, f: Filter, g: Filter)
    requires g.provider == f.provider && TrimSpace(f.provider) != "" && Covers(g, HourOf(e.timestamp))
    ensures InHours(g, EVERYTHING)(e) ==> TrimmedIn(g)(e)
    ensures TrimmedIn(g)(e) && !InHours(g, EVERYTHING)(e) <==> Padded(e, f)
  {
    var clean := TrimSpace(f.provider);
    TrimIdempotent(f.provider);
    TrimIdempotent(e.provider);
    if SqlTrim(e.provider) == clean {
      SqlTrimmedIsTrimmed(e.provider, clean);
    }
  }

  lemma PlanRequests(s: Store, f: Filter, prices: Prices, g: Filter)
    requires Consistent(s, {}) && RollupWindowPlan(f).rollup == Some(g)
    ensures PlanTotal(s, RollupWindowPlan(f), EVERYTHING, prices).requests
        - RawTotal(s.events, f, EVERYTHING, prices).requests
         == |Select(s.events, TrimmedIn(g))| - |Select(s.events, InHours(g, EVERYTHING))|
  {
    WindowSplits(s.events, f, EVERYTHING, prices);
    RollupRequests(s, g, prices);
    RequestsOfRows(Select(s.events, InHours(g, EVERYTHING)), prices);
  }

  /** The exact condition, for every exact store and every provider filter: through rollups never fewer
      requests are reported than by the raw scan, and as many if and only if no event in the rollup hours
      has a padded provider. */
  lemma ProviderReadsAgreeIff(s: Store, f: Filter, prices: Prices, g: Filter)
    requires Consistent(s, {}) && RollupWindowPlan(f).rollup == Some(g) && TrimSpace(f.provider) != ""
    ensures RawTotal(s.events, f, EVERYTHING, prices).requests
      <= PlanTotal(s, RollupWindowPlan(f), EVERYTHING, prices).requests
    ensures PlanTotal(s, RollupWindowPlan(f), EVERYTHING, prices).requests
      == RawTotal(s.events, f, EVERYTHING, prices).requests
      <==> forall e :: e in s.events && Covers(g, HourOf(e.timestamp)) ==> !Padded(e, f)
  {
    PlanRequests(s, f, prices, g);
    forall e | e in s.events && Covers(g, HourOf(e.timestamp))
      ensures InHours(g, EVERYTHING)(e) ==> TrimmedIn(g)(e)
      ensures TrimmedIn(g)(e) && !InHours(g, EVERYTHING)(e) <==> Padded(e, f)
    {
      FoundByBothIff(e, f, g);
    }
    SelectNoLonger(s.events, InHours(g, EVERYTHING), TrimmedIn(g));
    if e :| e in s.events && Covers(g, HourOf(e.timestamp)) && Padded(e, f) {
      SelectShorter(s.events, InHours(g, EVERYTHING), TrimmedIn(g), e);
    } else {
      SelectSame(s.events, InHours(g, EVERYTHING), TrimmedIn(g));
    }
  }

  /** In every reachable store whose rollups are read, with no legacy event past the target. */
  lemma ReachableProviderReadsAgreeIff(t: Tracked, steps: seq<Step>, f: Filter, prices: Prices, g: Filter)
    requires Initial(t) && forall step :: step in steps ==> Production(step)
    requires LegacyWithinTarget(t, Run(t, steps).store.backfill) && RollupReadAllowed(Run(t, steps).store.backfill)
    requires RollupWindowPlan(f).rollup == Some(g) && TrimSpace(f.provider) != ""
    ensures var s := Run(t, steps).store;
      var shown, raw := PlanTotal(s, ChosenPlan(s, f), EVERYTHING, prices), RawTotal(s.events, f, EVERYTHING, prices);
      && raw.requests <= shown.requests
      && (shown.requests == raw.requests <==>
          forall e :: e in s.events && Covers(g, HourOf(e.timestamp)) ==> !Padded(e, f))
  {
    NothingPendingWhenAllowed(t, steps);
    ProviderReadsAgreeIff(Run(t, steps).store, f, prices, g);
  }

  /** A provider that SQLite does not trim as Go does is found through the rollup row, whose key is fully trimmed,
      but not in the raw rows: one event is enough, in a run of production. */
  lemma {:induction false} PaddedProviderDiffers(f: Filter, g: Filter, at: int, padded: string, now: int,
                                                 prices: Prices)
    requires RollupWindowPlan(f).rollup == Some(g) && Covers(g, HourOf(at))
    requires TrimSpace(f.provider) != "" && TrimSpace(padded) == TrimSpace(f.provider)
      && SqlTrim(padded) != TrimSpace(padded)
    ensures var steps := OneEventSteps(padded, at, now);
      var s := Run(NEW_INSTALLATION, steps).store;
      && Initial(NEW_INSTALLATION) && (forall step :: step in steps ==> Production(step))
      && RollupReadAllowed(s.backfill) && Exact(s) && s.events == [OneEvent(padded, at)]
      && HourOf(at) in PlanGroups(s, ChosenPlan(s, f), EVERYTHING, HOURLY, prices)
      && HourOf(at) !in RawGroups(s.events, f, EVERYTHING, HOURLY, prices)
      && RawTotal(s.events, f, EVERYTHING, prices).requests
         < PlanTotal(s, ChosenPlan(s, f), EVERYTHING, prices).requests
  {
    var s := Run(NEW_INSTALLATION, OneEventSteps(padded, at, now)).store;
    OneEventRun(padded, at, now);
    InRollupGroup(s, s.events[0], f, g, EVERYTHING, HOURLY, prices);
    NotInRawGroup(s.events, f, EVERYTHING, HOURLY, prices, HourOf(at));
    ProviderReadsAgreeIff(s, f, prices, g);
    assert Padded(s.events[0], f);
  }
}

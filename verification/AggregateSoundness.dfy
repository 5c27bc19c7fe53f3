/** The accounting identities of every aggregate that analytics report, from raw events, from rollup rows
    or merged from both (internal/repository/analytics_aggregate_source.go, analytics_core.go). */
module AggregateSoundness {
  import opened Accounting
  import opened AggregateRows
  import opened Aggregation
  import opened AnalyticsPlan
  import opened BackfillRuns
  import opened GroupedReads
  import opened RollupIndex
  import opened RollupSoundness
  import opened Rollups
  import opened RowSums
  import opened UsageEvents
  import opened UsageStore
  import opened WindowPlan

  /** Requests split by outcome, by accounting and by whether their cost is known; valid ones by quality. */
  predicate CountsAddUp(r: AggregateRow) {
    && 0 <= r.successes && 0 <= r.failures && 0 <= r.absent && 0 <= r.missing && 0 <= r.known
    && 0 <= r.complete && 0 <= r.inconsistent && 0 <= r.unclassifiedAttempts
    && r.requests == r.successes + r.failures
    && r.requests == r.absent + r.valid
    && r.valid == r.complete + r.inconsistent + r.unclassifiedAttempts
    && r.requests == r.missing + r.known
    && 0 <= r.latencyTotal && 0 <= r.latencySamples <= r.requests
  }

  /** The canonical buckets add up, and the reported token columns are taken from them. */
  predicate TokensAddUp(r: AggregateRow) {
    && SoundBuckets(r.canonical)
    && r.input == r.canonical.input && r.cacheReadObserved == r.canonical.input
    && r.output == r.canonical.output && r.reasoning == r.canonical.reasoning
    && r.cached == r.canonical.cacheRead && r.cacheRead == r.canonical.cacheRead
    && r.total == r.canonical.total
  }

  predicate SoundAggregate(r: AggregateRow) { CountsAddUp(r) && TokensAddUp(r) }

  lemma RenderedCounts(r: HourlyRollup, price: Option<Price>)
    requires SoundCounts(r)
    ensures CountsAddUp(Render(r, price))
  {
  }

  lemma RenderedTokens(r: HourlyRollup, price: Option<Price>)
    requires SoundTokens(r)
    ensures TokensAddUp(Render(r, price))
  {
  }

  /** A priced row of a sound rollup row is sound, whether or not there is a price. */
  lemma RenderedSound(r: HourlyRollup, price: Option<Price>)
    requires Sound(r)
    ensures SoundAggregate(Render(r, price))
  {
    RenderedCounts(r, price);
    RenderedTokens(r, price);
  }

  lemma AddedCounts(a: AggregateRow, b: AggregateRow)
    requires CountsAddUp(a) && CountsAddUp(b)
    ensures CountsAddUp(AddRows(a, b))
  {
  }

  lemma AddedTokens(a: AggregateRow, b: AggregateRow)
    requires TokensAddUp(a) && TokensAddUp(b)
    ensures TokensAddUp(AddRows(a, b))
  {
  }

  lemma CountsOfNothing(r: AggregateRow)
    requires r == EMPTY_ROW
    ensures CountsAddUp(r)
  {
  }

  lemma ZeroTokens(t: Tokens)
    requires t == NO_TOKENS
    ensures t.total == 0 && t.input == 0 && t.output == 0 && t.reasoning == 0 && t.cacheRead == 0
  {
  }

  lemma EmptyColumns(r: AggregateRow)
    requires r == EMPTY_ROW
    ensures r.input == 0 && r.cacheReadObserved == 0 && r.output == 0 && r.reasoning == 0 && r.cached == 0
      && r.cacheRead == 0 && r.total == 0
    ensures r.canonical == NO_TOKENS
  {
  }

  lemma TokensOfNothing(r: AggregateRow, t: Tokens)
    requires r.input == 0 && r.cacheReadObserved == 0 && r.output == 0 && r.reasoning == 0 && r.cached == 0
      && r.cacheRead == 0 && r.total == 0
    requires r.canonical == t && SoundBuckets(t) && t.total == 0 && t.input == 0 && t.output == 0 && t.reasoning == 0
      && t.cacheRead == 0
    ensures TokensAddUp(r)
  {
  }

  lemma NothingSound(r: AggregateRow)
    requires r == EMPTY_ROW
    ensures SoundAggregate(r)
  {
    CountsOfNothing(r);
    EmptyColumns(r);
    ZeroTokens(r.canonical);
    NoTokensSound(r.canonical);
    TokensOfNothing(r, r.canonical);
  }

  lemma AddedSound(a: AggregateRow, b: AggregateRow)
    requires SoundAggregate(a) && SoundAggregate(b)
    ensures SoundAggregate(AddRows(a, b))
  {
    AddedCounts(a, b);
    AddedTokens(a, b);
  }

  /** A property of aggregates that holds of every priced sound row and is kept by every merge. */
  ghost predicate Additive(good: AggregateRow -> bool) {
    Kept(ROWS, good) && forall r, price :: Sound(r) ==> good(Render(r, price))
  }

  const SOUND: AggregateRow -> bool := (r: AggregateRow) => SoundAggregate(r)

  lemma SoundIs(r: AggregateRow)
    ensures SOUND(r) <==> SoundAggregate(r)
  {
  }

  lemma SoundNothing(r: AggregateRow)
    requires r == EMPTY_ROW
    ensures SOUND(r)
  {
    NothingSound(r);
    SoundIs(r);
  }

  lemma SoundSum(a: AggregateRow, b: AggregateRow, sum: AggregateRow)
    requires SOUND(a) && SOUND(b) && sum == AddRows(a, b)
    ensures SOUND(sum)
  {
    SoundIs(a);
    SoundIs(b);
    AddedSound(a, b);
    SoundIs(sum);
  }

  lemma SoundRow(r: HourlyRollup, price: Option<Price>, row: AggregateRow)
    requires Sound(r) && row == Render(r, price)
    ensures SOUND(row)
  {
    RenderedSound(r, price);
    SoundIs(row);
  }

  lemma AdditiveIf(good: AggregateRow -> bool)
    requires forall r :: r == EMPTY_ROW ==> good(r)
    requires forall a, b :: good(a) && good(b) ==> good(AddRows(a, b))
    requires forall r, price :: Sound(r) ==> good(Render(r, price))
    ensures Additive(good)
  {
    forall a, b | good(a) && good(b) ensures good(ROWS.plus(a, b)) {
      assert good(AddRows(a, b));
    }
  }

  lemma SoundnessIsAdditive()
    ensures Additive(SOUND)
  {
    var good := SOUND;
    forall r | r == EMPTY_ROW ensures good(r) { SoundNothing(r); }
    forall a, b | good(a) && good(b) ensures good(AddRows(a, b)) { SoundSum(a, b, AddRows(a, b)); }
    forall r, price | Sound(r) ensures good(Render(r, price)) { SoundRow(r, price, Render(r, price)); }
    AdditiveIf(good);
  }

  /** What has every additive property is sound. */
  lemma SoundIfAlways(r: AggregateRow)
    requires forall good: AggregateRow -> bool :: Additive(good) ==> good(r)
    ensures SoundAggregate(r)
  {
    SoundnessIsAdditive();
    assert SOUND(r);
    SoundIs(r);
  }

  lemma SumKeeps(a: AggregateRow, b: AggregateRow, good: AggregateRow -> bool)
    requires Additive(good) && good(a) && good(b)
    ensures good(AddRows(a, b))
  {
    assert good(ROWS.plus(a, b));
  }

  lemma EventRowKeeps(e: UsageEvent, prices: Prices, good: AggregateRow -> bool)
    requires Additive(good) && Admitted(e)
    ensures good(EventRow(prices)(e))
  {
    AdmittedRowSound(e);
    RowsAgree(e);
    assert good(Render(RowOf(e), PriceOf(prices, e.model)));
  }

  /** It holds of the aggregate of a raw scan, */
  lemma RawTotalKeeps(es: seq<UsageEvent>, f: Filter, w: Where, prices: Prices, good: AggregateRow -> bool)
    requires Additive(good) && forall e :: e in es ==> Admitted(e)
    ensures good(RawTotal(es, f, w, prices))
  {
    var some := Select(es, InRaw(f, w));
    forall e | e in some ensures good(EventRow(prices)(e)) {
      SelectIn(es, InRaw(f, w), e);
      EventRowKeeps(e, prices, good);
    }
    TotalKeeps(ROWS, EventRow(prices), some, good);
  }

  lemma {:induction false} SegmentsKeep(es: seq<UsageEvent>, fs: seq<Filter>, w: Where, prices: Prices,
                                        good: AggregateRow -> bool)
    requires Additive(good) && forall e :: e in es ==> Admitted(e)
    ensures good(RawSegments(es, fs, w, prices))
  {
    if fs != [] {
      SegmentsKeep(es, fs[..|fs| - 1], w, prices, good);
      RawTotalKeeps(es, fs[|fs| - 1], w, prices, good);
      assert good(ROWS.plus(RawSegments(es, fs[..|fs| - 1], w, prices), RawTotal(es, fs[|fs| - 1], w, prices)));
    }
  }

  /** of the rollup segment, also while events are missing from the rollups, */
  lemma RollupTotalKeeps(s: Store, pending: set<UsageEvent>, g: Filter, w: Where, prices: Prices,
                         good: AggregateRow -> bool)
    requires Additive(good) && Consistent(s, pending)
    ensures good(RollupTotal(s, g, w, prices))
  {
    var rows := Rendered(s.rollups, prices);
    forall k | k in RollupKeysIn(s, g, w) ensures good(rows[k]) {
      RollupRowKeeps(s, pending, k, prices, good);
    }
    RowsLawful();
    SumOverKeeps(ROWS, rows, RollupKeysIn(s, g, w), good);
  }

  lemma RollupRowKeeps(s: Store, pending: set<UsageEvent>, k: RollupKey, prices: Prices, good: AggregateRow -> bool)
    requires Additive(good) && Consistent(s, pending) && k in s.rollups
    ensures good(Rendered(s.rollups, prices)[k])
  {
    var indexed := Select(s.events, Outside(pending));
    forall e | e in indexed ensures Admitted(e) { SelectIn(s.events, Outside(pending), e); }
    GroupRowsSound(indexed, k);
  }

  /** and of the merged aggregate of any plan. */
  lemma PlanTotalKeeps(s: Store, pending: set<UsageEvent>, p: Plan, w: Where, prices: Prices,
                       good: AggregateRow -> bool)
    requires Additive(good) && Consistent(s, pending)
    ensures good(PlanTotal(s, p, w, prices))
  {
    SegmentsKeep(s.events, p.raw, w, prices, good);
    if p.rollup.Some? {
      RollupTotalKeeps(s, pending, p.rollup.value, w, prices, good);
      SumKeeps(RawSegments(s.events, p.raw, w, prices), RollupTotal(s, p.rollup.value, w, prices), good);
    }
  }

  lemma ReachableAggregatesKeep(t: Tracked, steps: seq<Step>, p: Plan, f: Filter, w: Where, prices: Prices,
                                good: AggregateRow -> bool)
    requires Initial(t) && forall step :: step in steps ==> Polite(step)
    requires Additive(good)
    ensures good(PlanTotal(Run(t, steps).store, p, w, prices))
    ensures good(RawTotal(Run(t, steps).store.events, f, w, prices))
  {
    RunKeepsInv(t, steps);
    PlanTotalKeeps(Run(t, steps).store, Run(t, steps).pending, p, w, prices, good);
    RawTotalKeeps(Run(t, steps).store.events, f, w, prices, good);
  }

  /** In every reachable store, for every plan, restriction and price table, requests = successes +
      failures = absent + valid = missing + known, valid = its three qualities, and the tokens add up,
      whether or not the rollups are complete yet. */
  lemma ReachableAggregatesAreSound(t: Tracked, steps: seq<Step>, p: Plan, f: Filter, w: Where, prices: Prices)
    requires Initial(t) && forall step :: step in steps ==> Polite(step)
    ensures SoundAggregate(PlanTotal(Run(t, steps).store, p, w, prices))
    ensures SoundAggregate(RawTotal(Run(t, steps).store.events, f, w, prices))
  {
    forall good: AggregateRow -> bool | Additive(good)
      ensures good(PlanTotal(Run(t, steps).store, p, w, prices))
        && good(RawTotal(Run(t, steps).store.events, f, w, prices))
    {
      ReachableAggregatesKeep(t, steps, p, f, w, prices, good);
    }
    SoundIfAlways(PlanTotal(Run(t, steps).store, p, w, prices));
    SoundIfAlways(RawTotal(Run(t, steps).store.events, f, w, prices));
  }

  /** The same for every group of a trend or breakdown. */
  lemma ReachableGroupsAreSound<B(!new)>(t: Tracked, steps: seq<Step>, p: Plan, w: Where, d: Dimension<B>,
                                         prices: Prices, b: B)
    requires Initial(t) && forall step :: step in steps ==> Polite(step)
    requires b in PlanGroups(Run(t, steps).store, p, w, d, prices)
    ensures SoundAggregate(PlanGroups(Run(t, steps).store, p, w, d, prices)[b])
  {
    ReachableAggregatesAreSound(t, steps, p, Filter(None, None, ""), AtGroup(w, d, b), prices);
    PlanGroupAt(Run(t, steps).store, p, w, d, prices, b);
  }
}

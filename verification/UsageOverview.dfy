/** The overview's in-memory evaluation of tokens, cost and cost completeness, event by event and bucket by bucket
    (internal/repository/usage_overview.go, usage.go, cost_completeness.go). */
module UsageOverview {
  import opened Accounting
  import opened AggregateRows
  import opened Aggregation
  import opened AnalyticsCore
  import opened AnalyticsPlan
  import opened BackfillRuns
  import opened EventFigures
  import opened EventSeries
  import opened MixedReads
  import opened ReachableReads
  import opened ReportedFigures
  import opened Rollups
  import opened Trimming
  import opened UsageEvents
  import opened WindowPlan

  /** `usageEventHasCompleteAccounting`: read from the facts, not from the stored state. */
  predicate HasComplete(e: UsageEvent) { !FactsAbsent(e.facts) && e.facts.quality == Some(Complete) }

  predicate RequiresPricing(e: UsageEvent) {
    HasComplete(e)
      && (0 < OrZero(e.facts.uncached) || 0 < OrZero(e.facts.cacheWrite) || 0 < OrZero(e.facts.cacheRead)
         || 0 < OrZero(e.facts.output))
  }

  function PricingOf(prices: Prices, e: UsageEvent): Option<Price> {
    if TrimSpace(e.model) in prices then Some(prices[TrimSpace(e.model)]) else None
  }

  /** `calculateUsageEventCost`; without a price the zero price applies. */
  function EventCost(e: UsageEvent, price: Option<Price>): real {
    if !HasComplete(e) || price.None? then 0.0
    else PerMillion(OrZero(e.facts.uncached) + OrZero(e.facts.cacheWrite), price.value.prompt)
         + PerMillion(OrZero(e.facts.output), price.value.completion)
         + PerMillion(OrZero(e.facts.cacheRead), price.value.cache)
  }

  predicate CostKnown(e: UsageEvent, price: Option<Price>) { HasComplete(e) && (!RequiresPricing(e) || price.Some?) }

  /** `usageEventCanonicalTokenStats` and the cost of one event. */
  function EventMeasures(prices: Prices, e: UsageEvent): Measures {
    var price, t := PricingOf(prices, e), if FactsAbsent(e.facts) then NO_TOKENS else TokensOf(e.facts);
    Measures(t.total, t.input, t.output, t.cacheRead, t.reasoning, if FactsAbsent(e.facts) then 0 else 1,
             EventCost(e, price), if CostKnown(e, price) then 0 else 1, if CostKnown(e, price) then 1 else 0)
  }

  /** The columns of an analytics row that the overview shows, too. */
  function MeasuresOf(row: AggregateRow): Measures {
    Measures(row.total, row.input, row.output, row.cached, row.reasoning, row.valid, row.cost, row.missing, row.known)
  }

  /** On a stored event the in-memory evaluation agrees with the SQL columns. */
  lemma EventMeasuresAgree(prices: Prices, e: UsageEvent)
    requires Admitted(e) && Clean(e)
    ensures EventMeasures(prices, e) == MeasuresOf(EventRow(prices)(e))
  {
    var price := PricingOf(prices, e);
    assert price == PriceOf(prices, e.model);
    CostOfRow(e, price);
    KnownOfRow(e, price);
    TokensOfRow(e, price);
  }

  lemma TokensOfRow(e: UsageEvent, price: Option<Price>)
    requires Admitted(e)
    ensures var r := Render(InMemoryRowOf(e), price);
      var t := if FactsAbsent(e.facts) then NO_TOKENS else TokensOf(e.facts);
      && r.total == t.total && r.input == t.input && r.output == t.output && r.cached == t.cacheRead
         && r.reasoning == t.reasoning
      && r.valid == if FactsAbsent(e.facts) then 0 else 1
  {
    if !FactsAbsent(e.facts) {
      assert NonNegative(TokensOf(e.facts));
    }
  }

  lemma CostOfRow(e: UsageEvent, price: Option<Price>)
    requires Admitted(e)
    ensures EventCost(e, price) == Render(InMemoryRowOf(e), price).cost
  {
    assert HasComplete(e) <==> QualityIs(e, Complete);
    if !HasComplete(e) && price.Some? {
      assert PerMillion(0, price.value.prompt) == 0.0 && PerMillion(0, price.value.completion) == 0.0
        && PerMillion(0, price.value.cache) == 0.0;
    }
  }

  /** Complete facts without a billed token are counted as such. */
  lemma BilledOfRow(e: UsageEvent)
    requires Admitted(e)
    ensures InMemoryRowOf(e).requests == 1 && InMemoryRowOf(e).complete == (if HasComplete(e) then 1 else 0)
    ensures InMemoryRowOf(e).completeZero == (if HasComplete(e) && !RequiresPricing(e) then 1 else 0)
  {
    assert HasComplete(e) <==> QualityIs(e, Complete);
    if HasComplete(e) {
      assert NonNegative(TokensOf(e.facts));
    }
  }

  lemma KnownOfRow(e: UsageEvent, price: Option<Price>)
    requires Admitted(e)
    ensures Render(InMemoryRowOf(e), price).known == (if CostKnown(e, price) then 1 else 0)
    ensures Render(InMemoryRowOf(e), price).missing == (if CostKnown(e, price) then 0 else 1)
  {
    BilledOfRow(e);
    KnownOf(InMemoryRowOf(e), price);
  }

  lemma KnownOf(r: HourlyRollup, price: Option<Price>)
    ensures Render(r, price).known == (if price.Some? then r.complete else r.completeZero)
    ensures Render(r, price).missing == r.requests - Render(r, price).known
  {
  }

  // Totals

  function ValueOf(prices: Prices): Evaluation { (e: UsageEvent) => EventMeasures(prices, e) }

  lemma MeasuresAdd(a: AggregateRow, b: AggregateRow)
    ensures MeasuresOf(AddRows(a, b)) == AddMeasures(MeasuresOf(a), MeasuresOf(b))
  {
  }

  lemma NothingMeasured()
    ensures MeasuresOf(EMPTY_ROW) == NO_MEASURES
  {
  }

  /** The in-memory totals are the SQL totals. */
  lemma {:induction false} MeasuresAgree(prices: Prices, es: seq<UsageEvent>)
    requires forall e :: e in es ==> Admitted(e) && Clean(e)
    ensures Measured(ValueOf(prices), es) == MeasuresOf(Total(ROWS, EventRow(prices), es))
  {
    if es == [] {
      NothingMeasured();
    } else {
      assert es[0] in es;
      EventMeasuresAgree(prices, es[0]);
      MeasuresAgree(prices, es[1..]);
      MeasuresAdd(EventRow(prices)(es[0]), Total(ROWS, EventRow(prices), es[1..]));
    }
  }

  /** The branches of the overview loop. */
  method EvaluateEvent(e: UsageEvent, prices: Prices) returns (one: Measures)
    ensures one == ValueOf(prices)(e)
  {
    var price := PricingOf(prices, e);
    one := NO_MEASURES.(cost := EventCost(e, price));
    if !FactsAbsent(e.facts) {
      var t := TokensOf(e.facts);
      one := one.(total := t.total, input := t.input, output := t.output, cached := t.cacheRead,
                  reasoning := t.reasoning, valid := 1);
    }
    if !HasComplete(e) {
      one := one.(missing := 1);
    } else if !RequiresPricing(e) || price.Some? {
      one := one.(known := 1);
    } else {
      one := one.(missing := 1);
    }
  }

  /** The loop of the overview: its totals are those of the analytics aggregate over the same events. */
  method OverviewTotals(events: seq<UsageEvent>, prices: Prices) returns (totals: Measures)
    requires forall e :: e in events ==> Admitted(e) && Clean(e)
    ensures totals == MeasuresOf(Total(ROWS, EventRow(prices), events))
  {
    var value := ValueOf(prices);
    totals := NO_MEASURES;
    for i := 0 to |events|
      invariant totals == Measured(value, events[..i])
    {
      MeasuredSnoc(value, events[..i], events[i]);
      assert events[..i + 1] == events[..i] + [events[i]];
      var one := EvaluateEvent(events[i], prices);
      totals := AddMeasures(totals, one);
    }
    assert events[..|events|] == events;
    MeasuresAgree(prices, events);
  }

  /** The overview over a window reports the tokens, the total cost and the cost availability that analytics
      report for it, whichever sources analytics read, in every reachable store. */
  lemma OverviewMatchesAnalytics(t: Tracked, steps: seq<Step>, f: Filter, prices: Prices, totals: Measures)
    requires Initial(t) && forall step :: step in steps ==> Production(step)
    requires AllClean(Run(t, steps).store) && LegacyWithinTarget(t, Run(t, steps).store.backfill)
    requires totals
      == MeasuresOf(Total(ROWS, EventRow(prices), Select(Run(t, steps).store.events, InRaw(f, EVERYTHING))))
    ensures var s := Run(t, steps).store;
      var summary := MapSummary(PlanTotal(s, ChosenPlan(s, f), EVERYTHING, prices));
      && summary.totals.cost == totals.cost && summary.totals.total == totals.total
      && summary.totals.cached == totals.cached && summary.totals.reasoning == totals.reasoning
      && summary.totals.valid == totals.valid
      && (Select(s.events, InRaw(f, EVERYTHING)) != [] ==>
         summary.cost == AssessCostCompleteness(totals.missing, totals.known))
  {
    var s := Run(t, steps).store;
    ReachableSummaryIsRaw(t, steps, f, prices);
    RequestsOfRows(Select(s.events, InRaw(f, EVERYTHING)), prices);
  }

  lemma EventsDecide(prices: Prices)
    ensures Decides(ValueOf(prices))
  {
  }

  /** `normalizeUsageOverviewDimension`. */
  function ModelName(e: UsageEvent): string { if TrimSpace(e.model) == "" then "unknown" else TrimSpace(e.model) }

  lemma ModelNameIsTrimmed(e: UsageEvent)
    ensures ModelName(e) != "" && TrimSpace(ModelName(e)) == ModelName(e)
    ensures TrimSpace(e.model) != "" ==> ModelName(e) == TrimSpace(e.model)
  {
    TrimIdempotent(e.model);
    NoEdgeIsTrimmed("unknown", IsSpace);
  }

  /** One series of the overview, and the same for each model. */
  method BuildOverviewSeries(events: seq<UsageEvent>, keep: UsageEvent -> bool, bucket: UsageEvent -> string,
                             minutes: Minutes, prices: Prices)
    returns (series: Series)
    ensures IsSeries(series, Select(events, keep), bucket, ModelName, ValueOf(prices), minutes)
  {
    EventsDecide(prices);
    series := OverviewSeries(events, keep, bucket, ModelName, ValueOf(prices), minutes);
  }

  /** A cell shows what the analytics row of its group shows. */
  predicate Shows(cell: SeriesCell, row: AggregateRow, minutes: Minutes) {
    && cell.requests == row.requests && cell.cost == row.cost
       && cell.status == AssessCostCompleteness(row.missing, row.known).status
    && cell.total == row.total && cell.input == row.input && cell.output == row.output && cell.cached == row.cached
    && cell.reasoning == row.reasoning && cell.valid == row.valid
    && cell.rpm == row.requests as real / minutes as real && cell.tpm == row.total as real / minutes as real
  }

  lemma SeriesCellIsAnalyticsRow<K>(events: seq<UsageEvent>, bucket: UsageEvent -> K, minutes: Minutes, prices: Prices,
                                    b: K)
    requires (forall e :: e in events ==> Admitted(e) && Clean(e)) && b in Keys(bucket, events)
    ensures Shows(ByBucket(events, bucket, CellOf(ValueOf(prices), minutes))[b],
                  GroupBy(ROWS, bucket, EventRow(prices), events)[b], minutes)
  {
    var some := Select(events, At(bucket, b));
    forall e | e in some ensures Admitted(e) && Clean(e) { SelectIn(events, At(bucket, b), e); }
    MeasuresAgree(prices, some);
    RequestsOfRows(some, prices);
  }

  predicate CellCounts(cell: SeriesCell, es: seq<UsageEvent>) {
    && cell.requests == |es| && cell.valid == CountBy(es, (e: UsageEvent) => e.state.Valid?)
    && cell.total == SumBy(es, (e: UsageEvent) => BucketOf(e, e.facts.total))
    && cell.input == SumBy(es, (e: UsageEvent) => BucketOf(e, e.facts.input))
    && cell.output == SumBy(es, (e: UsageEvent) => BucketOf(e, e.facts.output))
    && cell.cached == SumBy(es, (e: UsageEvent) => BucketOf(e, e.facts.cacheRead))
    && cell.reasoning == SumBy(es, (e: UsageEvent) => BucketOf(e, e.facts.reasoning))
  }

  predicate StatusTells(status: CostStatus, es: seq<UsageEvent>, prices: Prices) {
    && (status.Available? <==> forall e :: e in es ==> CostIsKnown(prices, e))
    && (status.Unavailable? <==> forall e :: e in es ==> !CostIsKnown(prices, e))
  }

  /** A cell told from its events: how many, their tokens, what they cost and whether that is known, and both per
      minute. */
  predicate CellTells(cell: SeriesCell, es: seq<UsageEvent>, prices: Prices, minutes: Minutes) {
    && CellCounts(cell, es)
    && cell.cost == AmountBy(es, (e: UsageEvent) => PaidFor(prices, e)) && StatusTells(cell.status, es, prices)
    && IsPerMinute(cell.rpm, |es|, minutes) && IsPerMinute(cell.tpm, cell.total, minutes)
  }

  predicate IsPerMinute(rate: real, n: int, minutes: Minutes) { rate * minutes as real == n as real }

  lemma PerMinute(n: int, minutes: Minutes, rate: real)
    requires rate == n as real / minutes as real
    ensures IsPerMinute(rate, n, minutes)
  {
    assert rate * minutes as real == n as real;
  }

  lemma RowCounts(row: AggregateRow, cell: SeriesCell, es: seq<UsageEvent>)
    requires TellsStates(row, es) && TellsTokens(row, es) && cell.requests == |es|
    requires cell.total == row.total && cell.input == row.input && cell.output == row.output
    requires cell.cached == row.cached && cell.reasoning == row.reasoning && cell.valid == row.valid
    ensures CellCounts(cell, es)
  {
  }

  lemma RowStatus(missing: int, known: int, es: seq<UsageEvent>, prices: Prices)
    requires es != [] && missing == CountBy(es, (e: UsageEvent) => !CostIsKnown(prices, e))
    requires known == CountBy(es, (e: UsageEvent) => CostIsKnown(prices, e))
    ensures StatusTells(AssessCostCompleteness(missing, known).status, es, prices)
  {
    CostStatusTells(AssessCostCompleteness(missing, known), missing, known, es, prices);
  }

  lemma RowShowsCell(row: AggregateRow, m: Measures, cell: SeriesCell, es: seq<UsageEvent>, prices: Prices,
                     minutes: Minutes)
    requires es != [] && m == MeasuresOf(row)
    requires cell == CellFor(|es|, m, AssessCostCompleteness(m.missing, m.known).status, minutes)
    requires TellsStates(row, es) && TellsTokens(row, es) && TellsMoney(row, es, prices)
    ensures CellTells(cell, es, prices, minutes)
  {
    RowStatus(m.missing, m.known, es, prices);
    RowCounts(row, cell, es);
    PerMinute(|es|, minutes, cell.rpm);
    PerMinute(cell.total, minutes, cell.tpm);
  }

  /** The cell of any stored events with valid texts. */
  lemma CellOfEventsTells(es: seq<UsageEvent>, minutes: Minutes, prices: Prices)
    requires es != [] && forall e :: e in es ==> Admitted(e) && Clean(e)
    ensures CellTells(CellOf(ValueOf(prices), minutes)(es), es, prices, minutes)
  {
    MeasuresAgree(prices, es);
    TotalTells(es, prices);
    RowShowsCell(Total(ROWS, EventRow(prices), es), Measured(ValueOf(prices), es), CellOf(ValueOf(prices), minutes)(es),
                 es, prices, minutes);
  }

  /** So every cell of an overview series, of a bucket or of a model in a bucket, tells exactly its own events. */
  lemma SeriesTells(series: Series, events: seq<UsageEvent>, bucket: UsageEvent -> string, minutes: Minutes,
                    prices: Prices, m: string, b: string)
    requires IsSeries(series, events, bucket, ModelName, ValueOf(prices), minutes)
    requires forall e :: e in events ==> Admitted(e) && Clean(e)
    ensures var some := Select(events, InBucket(bucket, b));
      (b in series.buckets <==> some != [])
        && (b in series.buckets ==> CellTells(series.buckets[b], some, prices, minutes))
    ensures var some := Select(events, OfModelIn(ModelName, m, bucket, b));
      ((m, b) in series.models <==> some != [])
        && ((m, b) in series.models ==> CellTells(series.models[(m, b)], some, prices, minutes))
  {
    CellsOfSeries(series, events, bucket, ModelName, ValueOf(prices), minutes, m, b);
    forall e | e in Select(events, InBucket(bucket, b)) ensures Admitted(e) && Clean(e) {
      SelectIn(events, InBucket(bucket, b), e);
    }
    forall e | e in Select(events, OfModelIn(ModelName, m, bucket, b)) ensures Admitted(e) && Clean(e) {
      SelectIn(events, OfModelIn(ModelName, m, bucket, b), e);
    }
    if b in series.buckets {
      CellOfEventsTells(Select(events, InBucket(bucket, b)), minutes, prices);
    }
    if (m, b) in series.models {
      CellOfEventsTells(Select(events, OfModelIn(ModelName, m, bucket, b)), minutes, prices);
    }
  }
}

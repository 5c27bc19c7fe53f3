/** What the figures of an analytics report are, told from the columns of the events it is about: counts of selected
    attempts, sums of their token buckets, and money at the price of their model
    (internal/repository/analytics_aggregate_source.go, analytics_sql.go, analytics_summary.go). */
module ReportedFigures {
  import opened Accounting
  import opened AggregateRows
  import opened Aggregation
  import opened AnalyticsCore
  import opened AnalyticsPlan
  import opened BackfillRuns
  import opened EventFigures
  import opened GroupedReads
  import opened MixedReads
  import opened ReachableReads
  import opened RollupCounts
  import opened Rollups
  import opened Trimming
  import opened UsageEvents
  import opened WindowPlan

  // The events a report is about

  /** Inclusive time bounds and the trimmed provider. */
  predicate InScope(f: Filter, e: UsageEvent) {
    && (f.start.Some? ==> f.start.value <= e.timestamp)
    && (f.end.Some? ==> e.timestamp <= f.end.value)
    && (TrimSpace(f.provider) != "" ==> SqlTrim(e.provider) == TrimSpace(f.provider))
  }

  function Scope(f: Filter): UsageEvent -> bool { (e: UsageEvent) => InScope(f, e) }

  /** Under a further restriction. */
  predicate Asked(f: Filter, w: Where, e: UsageEvent) { InScope(f, e) && w.event(e) }

  function AskedFor(f: Filter, w: Where): UsageEvent -> bool { (e: UsageEvent) => Asked(f, w, e) }

  // What an event costs and saves

  predicate Priced(prices: Prices, e: UsageEvent) { SqlTrim(e.model) in prices }

  function PaidFor(prices: Prices, e: UsageEvent): real {
    if HasQuality(e, Complete) && Priced(prices, e) then
      var price := prices[SqlTrim(e.model)];
      (PromptOf(e) as real * price.prompt + BucketOf(e, e.facts.output) as real * price.completion
       + BucketOf(e, e.facts.cacheRead) as real * price.cache) / 1000000.0
    else 0.0
  }

  /** A complete attempt that read from the cache. */
  predicate ReadCache(e: UsageEvent) { HasQuality(e, Complete) && 0 < BucketOf(e, e.facts.cacheRead) }

  /** Its model is priced no lower for prompts than for cache reads. */
  predicate CheaperCached(prices: Prices, e: UsageEvent) {
    Priced(prices, e) && prices[SqlTrim(e.model)].prompt >= prices[SqlTrim(e.model)].cache
  }

  function SavedOn(prices: Prices, e: UsageEvent): real {
    if ReadCache(e) && CheaperCached(prices, e) then
      var price := prices[SqlTrim(e.model)];
      BucketOf(e, e.facts.cacheRead) as real * (price.prompt - price.cache) / 1000000.0
    else 0.0
  }

  /** The cost is known of complete attempts that are priced or billed nothing. */
  predicate CostIsKnown(prices: Prices, e: UsageEvent) {
    HasQuality(e, Complete) && (Priced(prices, e) || BilledNothing(e))
  }

  // The columns

  predicate TellsOutcomes(r: AggregateRow, es: seq<UsageEvent>) {
    && r.requests == |es|
    && r.successes == CountBy(es, (e: UsageEvent) => !e.failed)
    && r.failures == CountBy(es, (e: UsageEvent) => e.failed)
  }

  predicate TellsLatency(r: AggregateRow, es: seq<UsageEvent>) {
    && r.latencySamples == CountBy(es, (e: UsageEvent) => 0 < e.latencyMs)
    && r.latencyTotal == SumBy(es, (e: UsageEvent) => if 0 < e.latencyMs then e.latencyMs as int else 0)
  }

  predicate TellsStates(r: AggregateRow, es: seq<UsageEvent>) {
    && r.absent == CountBy(es, (e: UsageEvent) => e.state.Absent?)
    && r.valid == CountBy(es, (e: UsageEvent) => e.state.Valid?)
    && r.complete == CountBy(es, (e: UsageEvent) => HasQuality(e, Complete))
    && r.inconsistent == CountBy(es, (e: UsageEvent) => HasQuality(e, Inconsistent))
    && r.unclassifiedAttempts == CountBy(es, (e: UsageEvent) => HasQuality(e, Unclassified))
  }

  predicate TellsTokens(r: AggregateRow, es: seq<UsageEvent>) {
    && r.input == SumBy(es, (e: UsageEvent) => BucketOf(e, e.facts.input))
    && r.output == SumBy(es, (e: UsageEvent) => BucketOf(e, e.facts.output))
    && r.reasoning == SumBy(es, (e: UsageEvent) => BucketOf(e, e.facts.reasoning))
    && r.cacheRead == SumBy(es, (e: UsageEvent) => BucketOf(e, e.facts.cacheRead))
    && r.total == SumBy(es, (e: UsageEvent) => BucketOf(e, e.facts.total))
    && r.cached == r.cacheRead && r.cacheReadObserved == r.input
  }

  predicate TellsMoney(r: AggregateRow, es: seq<UsageEvent>, prices: Prices) {
    && r.cost == AmountBy(es, (e: UsageEvent) => PaidFor(prices, e))
    && r.savings == AmountBy(es, (e: UsageEvent) => SavedOn(prices, e))
    && r.known == CountBy(es, (e: UsageEvent) => CostIsKnown(prices, e))
    && r.missing == CountBy(es, (e: UsageEvent) => !CostIsKnown(prices, e))
  }

  predicate TellsEligibility(r: AggregateRow, es: seq<UsageEvent>, prices: Prices) {
    && r.eligible == CountBy(es, (e: UsageEvent) => ReadCache(e) && CheaperCached(prices, e))
    && r.ineligible == CountBy(es, (e: UsageEvent) => ReadCache(e) && !CheaperCached(prices, e))
  }

  predicate TellsCanonical(t: Tokens, es: seq<UsageEvent>) {
    SumsInput(t, es) && SumsOutput(t, es) && SumsParts(t, es)
  }

  /** Every column of the aggregate row of some events. */
  predicate Tells(r: AggregateRow, es: seq<UsageEvent>, prices: Prices) {
    && TellsOutcomes(r, es) && TellsLatency(r, es) && TellsStates(r, es) && TellsTokens(r, es)
    && TellsCanonical(r.canonical, es) && TellsMoney(r, es, prices) && TellsEligibility(r, es, prices)
  }

  // What one event puts into them

  predicate PutsOutcome(r: AggregateRow, e: UsageEvent) {
    && r.requests == 1 && r.successes == (if e.failed then 0 else 1) && r.failures == (if e.failed then 1 else 0)
    && r.latencySamples == (if 0 < e.latencyMs then 1 else 0)
    && r.latencyTotal == (if 0 < e.latencyMs then e.latencyMs as int else 0)
    && r.absent == (if e.state.Absent? then 1 else 0) && r.valid == (if e.state.Valid? then 1 else 0)
    && r.complete == (if HasQuality(e, Complete) then 1 else 0)
    && r.inconsistent == (if HasQuality(e, Inconsistent) then 1 else 0)
    && r.unclassifiedAttempts == (if HasQuality(e, Unclassified) then 1 else 0)
  }

  predicate PutsTokens(r: AggregateRow, e: UsageEvent) {
    && r.input == BucketOf(e, e.facts.input) && r.output == BucketOf(e, e.facts.output)
    && r.reasoning == BucketOf(e, e.facts.reasoning) && r.cacheRead == BucketOf(e, e.facts.cacheRead)
    && r.total == BucketOf(e, e.facts.total) && r.cached == r.cacheRead && r.cacheReadObserved == r.input
  }

  predicate PutsCanonical(t: Tokens, e: UsageEvent) {
    && t.total == BucketOf(e, e.facts.total)
    && t.input == BucketOf(e, e.facts.input) && t.uncached == BucketOf(e, e.facts.uncached)
    && t.cacheRead == BucketOf(e, e.facts.cacheRead) && t.cacheWrite == BucketOf(e, e.facts.cacheWrite)
    && t.output == BucketOf(e, e.facts.output) && t.nonReasoning == BucketOf(e, e.facts.nonReasoning)
    && t.reasoning == BucketOf(e, e.facts.reasoning) && t.unclassified == BucketOf(e, e.facts.unclassified)
  }

  predicate PutsMoney(r: AggregateRow, e: UsageEvent, prices: Prices) {
    && r.cost == PaidFor(prices, e) && r.savings == SavedOn(prices, e)
    && r.known == (if CostIsKnown(prices, e) then 1 else 0) && r.missing == (if CostIsKnown(prices, e) then 0 else 1)
    && r.eligible == (if ReadCache(e) && CheaperCached(prices, e) then 1 else 0)
    && r.ineligible == (if ReadCache(e) && !CheaperCached(prices, e) then 1 else 0)
  }

  lemma EventPutsOutcome(prices: Prices, e: UsageEvent)
    ensures PutsOutcome(EventRow(prices)(e), e)
  {
  }

  lemma EventPutsTokens(prices: Prices, e: UsageEvent)
    requires Admitted(e)
    ensures PutsTokens(EventRow(prices)(e), e)
  {
  }

  lemma EventPutsCanonical(prices: Prices, e: UsageEvent)
    ensures PutsCanonical(EventRow(prices)(e).canonical, e)
  {
  }

  lemma PaidPerMillion(prompt: int, output: int, cached: int, p: Price)
    ensures Cost(prompt, output, cached, Some(p))
      == (prompt as real * p.prompt + output as real * p.completion + cached as real * p.cache) / 1000000.0
  {
    OnePerMillion(prompt, p.prompt);
    OnePerMillion(output, p.completion);
    OnePerMillion(cached, p.cache);
    var a, b, c := prompt as real * p.prompt, output as real * p.completion, cached as real * p.cache;
    assert (a + b + c) / 1000000.0 == a / 1000000.0 + b / 1000000.0 + c / 1000000.0;
  }

  lemma OnePerMillion(tokens: int, price: real)
    ensures PerMillion(tokens, price) == tokens as real * price / 1000000.0
  {
    var n, m := tokens as real, tokens as real / 1000000.0;
    assert n == m * 1000000.0;
    assert n * price == m * price * 1000000.0;
  }

  lemma EventPutsCost(prices: Prices, e: UsageEvent)
    ensures EventRow(prices)(e).cost == PaidFor(prices, e)
  {
    var r, price := InMemoryRowOf(e), PriceOf(prices, e.model);
    if price.Some? {
      PaidPerMillion(r.completePrompt, r.completeOutput, r.completeCacheRead, price.value);
    }
  }

  lemma EventPutsSavings(prices: Prices, e: UsageEvent)
    ensures var r := EventRow(prices)(e);
      && r.savings == SavedOn(prices, e)
      && r.eligible == (if ReadCache(e) && CheaperCached(prices, e) then 1 else 0)
      && r.ineligible == (if ReadCache(e) && !CheaperCached(prices, e) then 1 else 0)
  {
    var price := PriceOf(prices, e.model);
    if price.Some? {
      OnePerMillion(InMemoryRowOf(e).completeCacheRead, price.value.prompt - price.value.cache);
    }
  }

  lemma EventPutsKnown(prices: Prices, e: UsageEvent)
    requires Admitted(e)
    ensures EventRow(prices)(e).known == (if CostIsKnown(prices, e) then 1 else 0)
    ensures EventRow(prices)(e).missing == (if CostIsKnown(prices, e) then 0 else 1)
  {
    RowsAgree(e);
  }

  lemma EventPutsMoney(prices: Prices, e: UsageEvent)
    requires Admitted(e)
    ensures PutsMoney(EventRow(prices)(e), e, prices)
  {
    EventPutsCost(prices, e);
    EventPutsSavings(prices, e);
    EventPutsKnown(prices, e);
  }

  // Adding up

  lemma OutcomesTold(es: seq<UsageEvent>, row: UsageEvent -> AggregateRow)
    requires forall e :: e in es ==> PutsOutcome(row(e), e)
    requires Total(ROWS, row, es).requests == |es|
    ensures TellsOutcomes(Total(ROWS, row, es), es) && TellsLatency(Total(ROWS, row, es), es)
  {
    ColumnCount(ROWS, row, (r: AggregateRow) => r.successes, es, (e: UsageEvent) => !e.failed);
    ColumnCount(ROWS, row, (r: AggregateRow) => r.failures, es, (e: UsageEvent) => e.failed);
    ColumnCount(ROWS, row, (r: AggregateRow) => r.latencySamples, es, (e: UsageEvent) => 0 < e.latencyMs);
    ColumnSum(ROWS, row, (r: AggregateRow) => r.latencyTotal, es,
              (e: UsageEvent) => if 0 < e.latencyMs then e.latencyMs as int else 0);
  }

  lemma StatesTold(es: seq<UsageEvent>, row: UsageEvent -> AggregateRow)
    requires forall e :: e in es ==> PutsOutcome(row(e), e)
    ensures TellsStates(Total(ROWS, row, es), es)
  {
    ColumnCount(ROWS, row, (r: AggregateRow) => r.absent, es, (e: UsageEvent) => e.state.Absent?);
    ColumnCount(ROWS, row, (r: AggregateRow) => r.valid, es, (e: UsageEvent) => e.state.Valid?);
    ColumnCount(ROWS, row, (r: AggregateRow) => r.complete, es, (e: UsageEvent) => HasQuality(e, Complete));
    ColumnCount(ROWS, row, (r: AggregateRow) => r.inconsistent, es, (e: UsageEvent) => HasQuality(e, Inconsistent));
    ColumnCount(ROWS, row, (r: AggregateRow) => r.unclassifiedAttempts, es,
                (e: UsageEvent) => HasQuality(e, Unclassified));
  }

  lemma TokensTold(es: seq<UsageEvent>, row: UsageEvent -> AggregateRow)
    requires forall e :: e in es ==> PutsTokens(row(e), e)
    ensures TellsTokens(Total(ROWS, row, es), es)
  {
    var input, cacheRead :=
      (e: UsageEvent) => BucketOf(e, e.facts.input), (e: UsageEvent) => BucketOf(e, e.facts.cacheRead);
    ColumnSum(ROWS, row, (r: AggregateRow) => r.input, es, input);
    ColumnSum(ROWS, row, (r: AggregateRow) => r.cacheReadObserved, es, input);
    ColumnSum(ROWS, row, (r: AggregateRow) => r.cacheRead, es, cacheRead);
    ColumnSum(ROWS, row, (r: AggregateRow) => r.cached, es, cacheRead);
    ColumnSum(ROWS, row, (r: AggregateRow) => r.output, es, (e: UsageEvent) => BucketOf(e, e.facts.output));
    ColumnSum(ROWS, row, (r: AggregateRow) => r.reasoning, es, (e: UsageEvent) => BucketOf(e, e.facts.reasoning));
    ColumnSum(ROWS, row, (r: AggregateRow) => r.total, es, (e: UsageEvent) => BucketOf(e, e.facts.total));
  }

  lemma CanonicalInputTold(es: seq<UsageEvent>, row: UsageEvent -> AggregateRow)
    requires forall e :: e in es ==> PutsCanonical(row(e).canonical, e)
    ensures SumsInput(Total(ROWS, row, es).canonical, es)
  {
    ColumnSum(ROWS, row, (r: AggregateRow) => r.canonical.input, es, (e: UsageEvent) => BucketOf(e, e.facts.input));
    ColumnSum(ROWS, row, (r: AggregateRow) => r.canonical.uncached, es,
              (e: UsageEvent) => BucketOf(e, e.facts.uncached));
    ColumnSum(ROWS, row, (r: AggregateRow) => r.canonical.cacheRead, es,
              (e: UsageEvent) => BucketOf(e, e.facts.cacheRead));
    ColumnSum(ROWS, row, (r: AggregateRow) => r.canonical.cacheWrite, es,
              (e: UsageEvent) => BucketOf(e, e.facts.cacheWrite));
  }

  lemma CanonicalOutputTold(es: seq<UsageEvent>, row: UsageEvent -> AggregateRow)
    requires forall e :: e in es ==> PutsCanonical(row(e).canonical, e)
    ensures SumsOutput(Total(ROWS, row, es).canonical, es)
  {
    ColumnSum(ROWS, row, (r: AggregateRow) => r.canonical.total, es, (e: UsageEvent) => BucketOf(e, e.facts.total));
    ColumnSum(ROWS, row, (r: AggregateRow) => r.canonical.output, es, (e: UsageEvent) => BucketOf(e, e.facts.output));
  }

  lemma CanonicalPartsTold(es: seq<UsageEvent>, row: UsageEvent -> AggregateRow)
    requires forall e :: e in es ==> PutsCanonical(row(e).canonical, e)
    ensures SumsParts(Total(ROWS, row, es).canonical, es)
  {
    ColumnSum(ROWS, row, (r: AggregateRow) => r.canonical.nonReasoning, es,
              (e: UsageEvent) => BucketOf(e, e.facts.nonReasoning));
    ColumnSum(ROWS, row, (r: AggregateRow) => r.canonical.reasoning, es,
              (e: UsageEvent) => BucketOf(e, e.facts.reasoning));
    ColumnSum(ROWS, row, (r: AggregateRow) => r.canonical.unclassified, es,
              (e: UsageEvent) => BucketOf(e, e.facts.unclassified));
  }

  lemma MoneyTold(es: seq<UsageEvent>, row: UsageEvent -> AggregateRow, prices: Prices)
    requires forall e :: e in es ==> PutsMoney(row(e), e, prices)
    ensures TellsMoney(Total(ROWS, row, es), es, prices) && TellsEligibility(Total(ROWS, row, es), es, prices)
  {
    ColumnAmount(ROWS, row, (r: AggregateRow) => r.cost, es, (e: UsageEvent) => PaidFor(prices, e));
    ColumnAmount(ROWS, row, (r: AggregateRow) => r.savings, es, (e: UsageEvent) => SavedOn(prices, e));
    ColumnCount(ROWS, row, (r: AggregateRow) => r.known, es, (e: UsageEvent) => CostIsKnown(prices, e));
    ColumnCount(ROWS, row, (r: AggregateRow) => r.missing, es, (e: UsageEvent) => !CostIsKnown(prices, e));
    ColumnCount(ROWS, row, (r: AggregateRow) => r.eligible, es,
                (e: UsageEvent) => ReadCache(e) && CheaperCached(prices, e));
    ColumnCount(ROWS, row, (r: AggregateRow) => r.ineligible, es,
                (e: UsageEvent) => ReadCache(e) && !CheaperCached(prices, e));
  }

  /** Every column of the aggregate of admitted events is the figure it is named after. */
  lemma TotalTells(es: seq<UsageEvent>, prices: Prices)
    requires forall e :: e in es ==> Admitted(e)
    ensures Tells(Total(ROWS, EventRow(prices), es), es, prices)
  {
    RequestsOfRows(es, prices);
    forall e | e in es
      ensures PutsOutcome(EventRow(prices)(e), e) && PutsTokens(EventRow(prices)(e), e)
      ensures PutsCanonical(EventRow(prices)(e).canonical, e) && PutsMoney(EventRow(prices)(e), e, prices)
    {
      EventPutsOutcome(prices, e);
      EventPutsTokens(prices, e);
      EventPutsCanonical(prices, e);
      EventPutsMoney(prices, e);
    }
    OutcomesTold(es, EventRow(prices));
    StatesTold(es, EventRow(prices));
    TokensTold(es, EventRow(prices));
    CanonicalInputTold(es, EventRow(prices));
    CanonicalOutputTold(es, EventRow(prices));
    CanonicalPartsTold(es, EventRow(prices));
    MoneyTold(es, EventRow(prices), prices);
  }

  /** A raw scan tells the figures of exactly the events asked for. */
  lemma RawTotalTells(es: seq<UsageEvent>, f: Filter, w: Where, prices: Prices)
    requires forall e :: e in es ==> Admitted(e)
    ensures Tells(RawTotal(es, f, w, prices), Select(es, AskedFor(f, w)), prices)
  {
    SelectSame(es, InRaw(f, w), AskedFor(f, w));
    forall e | e in Select(es, AskedFor(f, w)) ensures Admitted(e) {
      SelectIn(es, AskedFor(f, w), e);
    }
    TotalTells(Select(es, AskedFor(f, w)), prices);
  }

  /** So does each group of a grouped scan; the groups are those of the events asked for. */
  lemma RawGroupsTell<B(!new)>(es: seq<UsageEvent>, f: Filter, w: Where, d: Dimension<B>, prices: Prices, b: B)
    requires forall e :: e in es ==> Admitted(e)
    ensures b in RawGroups(es, f, w, d, prices) <==> exists e :: e in es && Asked(f, w, e) && d.event(e) == b
    ensures b in RawGroups(es, f, w, d, prices) ==>
      Tells(RawGroups(es, f, w, d, prices)[b], Select(es, AskedFor(f, AtGroup(w, d, b))), prices)
  {
    RawGroupAt(es, f, w, d, prices, b);
    RawTotalTells(es, f, AtGroup(w, d, b), prices);
    if e :| e in es && Asked(f, w, e) && d.event(e) == b {
      SelectIn(es, InRaw(f, w), e);
    }
    if b in RawGroups(es, f, w, d, prices) {
      var e :| e in Select(es, InRaw(f, w)) && d.event(e) == b;
      SelectIn(es, InRaw(f, w), e);
      assert Asked(f, w, e);
    }
  }

  // The summary

  lemma {:induction false} CountExtremes(es: seq<UsageEvent>, p: UsageEvent -> bool)
    ensures CountBy(es, p) <= |es|
    ensures CountBy(es, p) == |es| <==> forall e :: e in es ==> p(e)
    ensures CountBy(es, p) == 0 <==> forall e :: e in es ==> !p(e)
  {
    if es != [] {
      CountExtremes(es[1..], p);
      assert forall e :: e in es <==> e == es[0] || e in es[1..];
    }
  }

  lemma {:induction false} SumIsNatural(es: seq<UsageEvent>, value: UsageEvent -> int)
    requires forall e :: e in es ==> 0 <= value(e)
    ensures 0 <= SumBy(es, value)
  {
    if es != [] {
      assert es[0] in es && forall e :: e in es[1..] ==> e in es;
      SumIsNatural(es[1..], value);
    }
  }

  /** The cost is available when it is known of every attempt, unavailable when it is known of none. */
  predicate CostTells(cost: CostAssessment, es: seq<UsageEvent>, prices: Prices) {
    && (cost.available <==> cost.status.Available?)
    && (cost.status.Available? <==> es != [] && forall e :: e in es ==> CostIsKnown(prices, e))
    && (cost.status.Unavailable? <==> forall e :: e in es ==> !CostIsKnown(prices, e))
  }

  /** The share of input tokens read from the cache. */
  predicate ShareTells(cache: CacheEfficiency, input: int, read: int) {
    && (input == 0 ==> cache.state.NoPromptInput? && cache.share == 0.0 && cache.coverage == 0.0)
    && (input != 0 ==>
       cache.state.ShareAvailable? && cache.coverage == 100.0 && cache.share * input as real == 100.0 * read as real)
  }

  /** What that saved, when there was input, its whole cost is known, some attempt read from the cache and all that did
      are priced no higher for it. */
  predicate SavingsTell(savings: Option<real>, input: int, available: bool, es: seq<UsageEvent>, prices: Prices) {
    && (savings.Some? <==>
       && input != 0 && available && (exists e :: e in es && ReadCache(e))
       && forall e :: e in es && ReadCache(e) ==> CheaperCached(prices, e))
    && (savings.Some? ==> savings.value == AmountBy(es, (e: UsageEvent) => SavedOn(prices, e)))
  }

  predicate CacheTells(cache: CacheEfficiency, cost: CostAssessment, es: seq<UsageEvent>, prices: Prices) {
    var input := SumBy(es, (e: UsageEvent) => BucketOf(e, e.facts.input));
    && ShareTells(cache, input, SumBy(es, (e: UsageEvent) => BucketOf(e, e.facts.cacheRead)))
    && SavingsTell(cache.savings, input, cost.status.Available?, es, prices)
  }

  /** Percentages of all attempts: the succeeded ones and those with valid accounting. */
  predicate RatesTell(successRate: real, coverage: Option<real>, es: seq<UsageEvent>) {
    && (es == [] ==> successRate == 0.0 && coverage.None?)
    && (es != [] ==>
       && successRate * |es| as real == 100.0 * CountBy(es, (e: UsageEvent) => !e.failed) as real
       && coverage.Some?
       && coverage.value * |es| as real == 100.0 * CountBy(es, (e: UsageEvent) => e.state.Valid?) as real)
  }

  predicate SummaryTells(s: Summary, es: seq<UsageEvent>, prices: Prices) {
    && TellsOutcomes(s.totals, es) && TellsStates(s.totals, es) && TellsTokens(s.totals, es)
    && TellsCanonical(s.totals.canonical, es) && TellsMoney(s.totals, es, prices)
    && RatesTell(s.successRate, s.accountingCoverage, es)
    && CostTells(s.cost, es, prices) && CacheTells(s.cache, s.cost, es, prices)
  }

  lemma PercentOf(part: int, whole: int)
    requires whole != 0
    ensures Percent(part, whole) * whole as real == 100.0 * part as real
    ensures part == whole ==> Percent(part, whole) == 100.0
  {
    var q := part as real / whole as real;
    assert q * whole as real == part as real;
    assert q * 100.0 * whole as real == q * whole as real * 100.0;
  }

  lemma CostStatusTells(cost: CostAssessment, missing: int, known: int, es: seq<UsageEvent>, prices: Prices)
    requires missing == CountBy(es, (e: UsageEvent) => !CostIsKnown(prices, e))
    requires known == CountBy(es, (e: UsageEvent) => CostIsKnown(prices, e))
    requires es == [] ==> cost == CostAssessment(false, Unavailable)
    requires es != [] ==> cost == AssessCostCompleteness(missing, known)
    ensures CostTells(cost, es, prices)
  {
    CountExtremes(es, (e: UsageEvent) => !CostIsKnown(prices, e));
    CountExtremes(es, (e: UsageEvent) => CostIsKnown(prices, e));
    if es != [] {
      assert es[0] in es;
    }
  }

  lemma CacheEfficiencyMeans(input: int, read: int, savings: real, eligible: nat, ineligible: nat, available: bool)
    requires 0 <= input
    ensures var cache := CacheEfficiencyOf(input, input, read, savings, eligible, ineligible, available);
      && ShareTells(cache, input, read)
      && (cache.savings.Some? <==> input != 0 && available && eligible != 0 && ineligible == 0)
      && (cache.savings.Some? ==> cache.savings.value == savings)
  {
    if input != 0 {
      PercentOf(read, input);
      PercentOf(input, input);
    }
  }

  /** The share for any figures: it is over the tokens observed, complete once all of the input was observed. */
  lemma ShareMeans(input: int, observed: int, read: int, savings: real, eligible: int, ineligible: int, available: bool)
    ensures var cache := CacheEfficiencyOf(input, observed, read, savings, eligible, ineligible, available);
      && (input <= 0 ==> cache.state.NoPromptInput?)
      && (0 < input && observed <= 0 ==> cache.state.NoCacheData?)
      && (input <= 0 || observed <= 0 ==> cache.share == 0.0 && cache.coverage == 0.0)
      && (0 < input && 0 < observed ==>
         && cache.share * observed as real == 100.0 * read as real
         && (if input <= observed then cache.state.ShareAvailable? && cache.coverage == 100.0
             else cache.state.SharePartial? && cache.coverage * input as real == 100.0 * observed as real))
      && (cache.savings.Some? ==> cache.state.ShareAvailable? && cache.savings.value == savings)
  {
    if 0 < input && 0 < observed {
      PercentOf(read, observed);
      PercentOf(observed, input);
      PercentGrows(observed, input);
    }
  }

  lemma PercentGrows(part: int, whole: int)
    requires 0 < whole
    ensures Percent(part, whole) >= 100.0 <==> part >= whole
  {
    var q := part as real / whole as real;
    assert q * whole as real == part as real;
    if q < 1.0 {
      assert q * whole as real < whole as real;
    } else {
      assert q * whole as real >= whole as real;
    }
  }

  lemma EligibilityMeans(eligible: nat, ineligible: nat, es: seq<UsageEvent>, prices: Prices)
    requires eligible == CountBy(es, (e: UsageEvent) => ReadCache(e) && CheaperCached(prices, e))
    requires ineligible == CountBy(es, (e: UsageEvent) => ReadCache(e) && !CheaperCached(prices, e))
    ensures eligible != 0 && ineligible == 0 <==>
      (exists e :: e in es && ReadCache(e)) && forall e :: e in es && ReadCache(e) ==> CheaperCached(prices, e)
  {
    CountExtremes(es, (e: UsageEvent) => ReadCache(e) && CheaperCached(prices, e));
    CountExtremes(es, (e: UsageEvent) => ReadCache(e) && !CheaperCached(prices, e));
  }

  lemma InputIsNatural(es: seq<UsageEvent>)
    requires forall e :: e in es ==> Admitted(e)
    ensures 0 <= SumBy(es, (e: UsageEvent) => BucketOf(e, e.facts.input))
  {
    SumIsNatural(es, (e: UsageEvent) => BucketOf(e, e.facts.input));
  }

  function CacheOf(r: AggregateRow, available: bool): CacheEfficiency {
    CacheEfficiencyOf(r.input, r.cacheReadObserved, r.cacheRead, r.savings, r.eligible, r.ineligible, available)
  }

  lemma CacheEfficiencyTells(r: AggregateRow, cost: CostAssessment, es: seq<UsageEvent>, prices: Prices)
    requires 0 <= SumBy(es, (e: UsageEvent) => BucketOf(e, e.facts.input))
    requires TellsTokens(r, es) && TellsMoney(r, es, prices) && TellsEligibility(r, es, prices)
    ensures CacheTells(CacheOf(r, cost.status.Available?), cost, es, prices)
  {
    EligibilityMeans(r.eligible, r.ineligible, es, prices);
    CacheEfficiencyMeans(r.input, r.cacheRead, r.savings, r.eligible, r.ineligible, cost.status.Available?);
  }

  lemma RatesOf(r: AggregateRow, es: seq<UsageEvent>)
    requires TellsOutcomes(r, es) && TellsStates(r, es)
    ensures RatesTell(MapSummary(r).successRate, MapSummary(r).accountingCoverage, es)
  {
    if 0 < r.requests {
      PercentOf(r.successes, r.requests);
      PercentOf(r.valid, r.requests);
    }
  }

  /** The summary mapped from an aggregate that tells the figures of some events tells them, too. */
  lemma MapSummaryTells(r: AggregateRow, es: seq<UsageEvent>, prices: Prices)
    requires Tells(r, es, prices) && forall e :: e in es ==> Admitted(e)
    ensures SummaryTells(MapSummary(r), es, prices)
  {
    var s := MapSummary(r);
    RatesOf(r, es);
    CostStatusTells(s.cost, r.missing, r.known, es, prices);
    InputIsNatural(es);
    CacheEfficiencyTells(r, s.cost, es, prices);
    assert s.cache == CacheOf(r, s.cost.status.Available?);
    TotalsTell(r, s.totals, es, prices);
  }

  lemma TotalsTell(r: AggregateRow, totals: AggregateRow, es: seq<UsageEvent>, prices: Prices)
    requires Tells(r, es, prices)
    requires totals == r.(eligible := 0, ineligible := 0, latencyTotal := 0, latencySamples := 0)
    ensures TellsOutcomes(totals, es) && TellsStates(totals, es) && TellsTokens(totals, es)
    ensures TellsCanonical(totals.canonical, es) && TellsMoney(totals, es, prices)
  {
  }

  /** The summary of a raw scan tells the figures of exactly the events in its scope. */
  lemma RawSummaryTells(es: seq<UsageEvent>, f: Filter, prices: Prices)
    requires forall e :: e in es ==> Admitted(e)
    ensures SummaryTells(MapSummary(RawTotal(es, f, EVERYTHING, prices)), Select(es, Scope(f)), prices)
  {
    RawTotalTells(es, f, EVERYTHING, prices);
    SelectSame(es, AskedFor(f, EVERYTHING), Scope(f));
    forall e | e in Select(es, Scope(f)) ensures Admitted(e) {
      SelectIn(es, Scope(f), e);
    }
    MapSummaryTells(RawTotal(es, f, EVERYTHING, prices), Select(es, Scope(f)), prices);
  }

  /** In every reachable store with no legacy event past the target, the summary reported for a window and a provider,
      through whichever plan is chosen, tells the figures of exactly the stored events asked for. */
  lemma ReachableSummaryTells(t: Tracked, steps: seq<Step>, f: Filter, prices: Prices)
    requires Initial(t) && forall step :: step in steps ==> Production(step)
    requires AllClean(Run(t, steps).store) && LegacyWithinTarget(t, Run(t, steps).store.backfill)
    ensures var s := Run(t, steps).store;
      SummaryTells(MapSummary(PlanTotal(s, ChosenPlan(s, f), EVERYTHING, prices)),
                   Select(s.events, Scope(f)), prices)
  {
    RunKeepsInv(t, steps);
    ReachableSummaryIsRaw(t, steps, f, prices);
    RawSummaryTells(Run(t, steps).store.events, f, prices);
  }

  // Groups

  /** What a group reports of some events; whether any of them counts for savings is not reported. */
  predicate GroupTells(r: AggregateRow, es: seq<UsageEvent>, prices: Prices) {
    && TellsOutcomes(r, es) && TellsLatency(r, es) && TellsStates(r, es) && TellsTokens(r, es)
    && TellsCanonical(r.canonical, es) && TellsMoney(r, es, prices)
  }

  lemma SameTells(a: AggregateRow, b: AggregateRow, es: seq<UsageEvent>, prices: Prices)
    requires Same(a, b) && Tells(b, es, prices)
    ensures GroupTells(a, es, prices)
  {
  }

  /** In every reachable store the groups through the chosen plan are those of the events asked for, with their figures,
      for every dimension that an event shares with its rollup row. */
  lemma ReachableGroupsTell<B(!new)>(t: Tracked, steps: seq<Step>, f: Filter, w: Where, d: Dimension<B>, prices: Prices,
                                     b: B)
    requires Initial(t) && forall step :: step in steps ==> Production(step)
    requires LegacyWithinTarget(t, Run(t, steps).store.backfill)
    requires RollupWindowPlan(f).rollup.Some? ==>
      Renders(w, RollupWindowPlan(f).rollup.value, Run(t, steps).store.events)
      && Stable(d, RollupWindowPlan(f).rollup.value, Run(t, steps).store.events)
    ensures var s := Run(t, steps).store;
      var groups := PlanGroups(s, ChosenPlan(s, f), w, d, prices);
      && (b in groups <==> exists e :: e in s.events && Asked(f, w, e) && d.event(e) == b)
      && (b in groups ==> GroupTells(groups[b], Select(s.events, AskedFor(f, AtGroup(w, d, b))), prices))
  {
    var s := Run(t, steps).store;
    RunKeepsInv(t, steps);
    ReachableGroupsAreRaw(t, steps, f, w, d, prices);
    RawGroupsTell(s.events, f, w, d, prices, b);
    var groups, raw := PlanGroups(s, ChosenPlan(s, f), w, d, prices), RawGroups(s.events, f, w, d, prices);
    if b in groups {
      SameTells(groups[b], raw[b], Select(s.events, AskedFor(f, AtGroup(w, d, b))), prices);
    }
  }

  /** The attempts asked for within one hour. */
  function WithinHour(f: Filter, hour: int): UsageEvent -> bool {
    (e: UsageEvent) => InScope(f, e) && hour <= e.timestamp < hour + 3_600_000_000_000
  }

  lemma WithinHourIsGroup(es: seq<UsageEvent>, f: Filter, hour: int, d: Dimension<int>)
    requires Aligned(hour) && d == HOURLY
    ensures Select(es, AskedFor(f, AtGroup(EVERYTHING, d, hour))) == Select(es, WithinHour(f, hour))
    ensures (exists e :: e in es && Asked(f, EVERYTHING, e) && d.event(e) == hour)
        <==> Select(es, WithinHour(f, hour)) != []
  {
    forall e: UsageEvent ensures d.event(e) == hour <==> hour <= e.timestamp < hour + 3_600_000_000_000 {
      HourUnique(e.timestamp, hour);
    }
    SelectSame(es, AskedFor(f, AtGroup(EVERYTHING, d, hour)), WithinHour(f, hour));
    if e :| e in es && Asked(f, EVERYTHING, e) && d.event(e) == hour {
      SelectIn(es, WithinHour(f, hour), e);
    } else {
      SelectNone(es, WithinHour(f, hour));
    }
  }

  /** The hourly trend of any reachable store: a row for exactly the hours with an attempt, with the figures of the
      attempts of that hour. */
  lemma ReachableHourlyTrendTells(t: Tracked, steps: seq<Step>, f: Filter, prices: Prices, hour: int)
    requires Initial(t) && (forall step :: step in steps ==> Production(step)) && Aligned(hour)
    requires AllClean(Run(t, steps).store) && LegacyWithinTarget(t, Run(t, steps).store.backfill)
    ensures var s := Run(t, steps).store;
      var trend, some :=
        PlanGroups(s, ChosenPlan(s, f), EVERYTHING, HOURLY, prices), Select(s.events, WithinHour(f, hour));
      (hour in trend <==> some != []) && (hour in trend ==> GroupTells(trend[hour], some, prices))
  {
    var s := Run(t, steps).store;
    if RollupWindowPlan(f).rollup.Some? {
      EverythingRenders(s, RollupWindowPlan(f).rollup.value);
      HourlyIsStable(RollupWindowPlan(f).rollup.value, s.events);
    }
    ReachableGroupsTell(t, steps, f, EVERYTHING, HOURLY, prices, hour);
    WithinHourIsGroup(s.events, f, hour, HOURLY);
  }

  /** The attempts asked for on one local day. */
  function OnDay(f: Filter, day: int -> int, date: int): UsageEvent -> bool {
    (e: UsageEvent) => InScope(f, e) && day(e.timestamp) == date
  }

  /** The daily trend likewise, where local days begin on UTC hours. */
  lemma ReachableDailyTrendTells(t: Tracked, steps: seq<Step>, f: Filter, day: int -> int, prices: Prices, date: int)
    requires Initial(t) && forall step :: step in steps ==> Production(step)
    requires AllClean(Run(t, steps).store) && LegacyWithinTarget(t, Run(t, steps).store.backfill)
    requires RollupWindowPlan(f).rollup.Some? ==> DaysBeginOnHours(day, RollupWindowPlan(f).rollup.value)
    ensures var s := Run(t, steps).store;
      var trend := PlanGroups(s, ChosenPlan(s, f), EVERYTHING, Daily(day), prices);
      var some := Select(s.events, OnDay(f, day, date));
      (date in trend <==> some != []) && (date in trend ==> GroupTells(trend[date], some, prices))
  {
    var s := Run(t, steps).store;
    if RollupWindowPlan(f).rollup.Some? {
      EverythingRenders(s, RollupWindowPlan(f).rollup.value);
      DailyIsStable(day, RollupWindowPlan(f).rollup.value, s.events);
    }
    ReachableGroupsTell(t, steps, f, EVERYTHING, Daily(day), prices, date);
    SelectSame(s.events, AskedFor(f, AtGroup(EVERYTHING, Daily(day), date)), OnDay(f, day, date));
    if e :| e in s.events && Asked(f, EVERYTHING, e) && Daily(day).event(e) == date {
      SelectIn(s.events, OnDay(f, day, date), e);
    } else {
      SelectNone(s.events, OnDay(f, day, date));
    }
  }
}

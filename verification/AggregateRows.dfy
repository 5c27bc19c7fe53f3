/** The analytics aggregate row: its per-row expressions, shared by the raw and the rollup source, and
    the summary derived from it (internal/repository/analytics_aggregate_source.go, analytics_sql.go,
    analytics_summary.go, cost_completeness.go). */
module AggregateRows {
  import opened Accounting
  import opened Aggregation
  import opened RollupSoundness
  import opened Rollups

  datatype Price = Price(prompt: real, completion: real, cache: real)

  /** The additive columns of summary, trend, provider and model rows. */
  datatype AggregateRow = AggregateRow(
    requests: int, successes: int, failures: int,
    input: int, output: int, reasoning: int, cached: int, total: int,
    cacheRead: int, cacheReadObserved: int,
    cost: real, savings: real, eligible: int, ineligible: int,
    missing: int, known: int,
    absent: int, valid: int, complete: int, inconsistent: int, unclassifiedAttempts: int,
    canonical: Tokens,
    latencyTotal: int, latencySamples: int)

  const EMPTY_ROW := AggregateRow(0, 0, 0, 0, 0, 0, 0, 0, 0, 0, 0.0, 0.0, 0, 0, 0, 0, 0, 0, 0, 0, 0, NO_TOKENS, 0, 0)

  /** `addAnalyticsAggregateRow`. */
  function AddRows(a: AggregateRow, b: AggregateRow): AggregateRow {
    AggregateRow(
      a.requests + b.requests, a.successes + b.successes, a.failures + b.failures,
      a.input + b.input, a.output + b.output, a.reasoning + b.reasoning, a.cached + b.cached, a.total + b.total,
      a.cacheRead + b.cacheRead, a.cacheReadObserved + b.cacheReadObserved,
      a.cost + b.cost, a.savings + b.savings, a.eligible + b.eligible, a.ineligible + b.ineligible,
      a.missing + b.missing, a.known + b.known,
      a.absent + b.absent, a.valid + b.valid, a.complete + b.complete, a.inconsistent + b.inconsistent,
      a.unclassifiedAttempts + b.unclassifiedAttempts,
      PlusTokens(a.canonical, b.canonical),
      a.latencyTotal + b.latencyTotal, a.latencySamples + b.latencySamples)
  }

  const ROWS: Monoid<AggregateRow> := Monoid(EMPTY_ROW, AddRows)

  lemma RowsLawful()
    ensures Lawful(ROWS)
  {
  }

  function Positive(n: int): int { if 0 < n then n else 0 }

  function PerMillion(tokens: int, price: real): real { tokens as real / 1000000.0 * price }

  function Cost(prompt: int, output: int, cached: int, price: Option<Price>): real {
    match price
    case None => 0.0
    case Some(p) => PerMillion(prompt, p.prompt) + PerMillion(output, p.completion) + PerMillion(cached, p.cache)
  }

  predicate SavesOnCache(price: Option<Price>) { price.Some? && price.value.prompt >= price.value.cache }

  /** The aggregate columns one source row contributes, given the price its model joins with. A raw event
      is the source row of one attempt, a rollup row that of a whole group. */
  function Render(r: HourlyRollup, price: Option<Price>): AggregateRow {
    var cached := Positive(r.completeCacheRead);
    var known := if price.Some? then r.complete else r.completeZero;
    AggregateRow(
      r.requests, r.successes, r.failures,
      Positive(r.tokens.input), Positive(r.tokens.output), Positive(r.tokens.reasoning),
      Positive(r.tokens.cacheRead), r.tokens.total,
      Positive(r.tokens.cacheRead), Positive(r.tokens.input),
      Cost(r.completePrompt, r.completeOutput, r.completeCacheRead, price),
      if 0 < cached && SavesOnCache(price) then PerMillion(cached, price.value.prompt - price.value.cache) else 0.0,
      if 0 < cached && SavesOnCache(price) then r.complete else 0,
      if 0 < cached && !SavesOnCache(price) then r.complete else 0,
      r.requests - known, known,
      r.absent, r.valid, r.complete, r.inconsistent, r.unclassifiedAttempts,
      r.tokens,
      r.latencyTotal, r.latencySamples)
  }

  /** Equal up to how many rows count as (in)eligible for cache savings; whether any does still agrees. */
  predicate Same(a: AggregateRow, b: AggregateRow) {
    && a.(eligible := 0, ineligible := 0) == b.(eligible := 0, ineligible := 0)
    && 0 <= a.eligible && 0 <= b.eligible && (a.eligible == 0 <==> b.eligible == 0)
    && 0 <= a.ineligible && 0 <= b.ineligible && (a.ineligible == 0 <==> b.ineligible == 0)
  }

  lemma SameAdd(a: AggregateRow, b: AggregateRow, c: AggregateRow, d: AggregateRow)
    requires Same(a, b) && Same(c, d)
    ensures Same(AddRows(a, c), AddRows(b, d))
  {
  }

  lemma PerMillionAdds(a: int, b: int, price: real)
    ensures PerMillion(a + b, price) == PerMillion(a, price) + PerMillion(b, price)
  {
    var x, y := a as real / 1000000.0, b as real / 1000000.0;
    assert (a + b) as real / 1000000.0 == x + y;
  }

  /** Pricing a sum of rows of one model is summing the priced rows. */
  lemma RenderAdds(a: HourlyRollup, b: HourlyRollup, price: Option<Price>)
    requires Sound(a) && Sound(b)
    ensures Same(Render(Plus(a, b), price), AddRows(Render(a, price), Render(b, price)))
  {
    if price.Some? {
      PerMillionAdds(a.completePrompt, b.completePrompt, price.value.prompt);
      PerMillionAdds(a.completeOutput, b.completeOutput, price.value.completion);
      PerMillionAdds(a.completeCacheRead, b.completeCacheRead, price.value.cache);
      PerMillionAdds(a.completeCacheRead, b.completeCacheRead, price.value.prompt - price.value.cache);
      assert PerMillion(0, price.value.prompt - price.value.cache) == 0.0;
    }
  }

  // The summary

  datatype CostStatus = Available | Partial | Unavailable

  datatype CostAssessment = CostAssessment(available: bool, status: CostStatus)

  function AssessCostCompleteness(missing: int, known: int): CostAssessment {
    if missing == 0 then CostAssessment(true, Available)
    else if 0 < known then CostAssessment(false, Partial)
    else CostAssessment(false, Unavailable)
  }

  datatype CacheShareState = NoPromptInput | NoCacheData | ShareAvailable | SharePartial

  datatype CacheEfficiency = CacheEfficiency(share: real, coverage: real, state: CacheShareState, savings: Option<real>)

  function Percent(part: int, whole: int): real
    requires whole != 0
  {
    part as real / whole as real * 100.0
  }

  function CacheEfficiencyOf(input: int, observed: int, cacheRead: int, savings: real, eligible: int, ineligible: int,
                             pricingComplete: bool): CacheEfficiency {
    var (share, coverage, state) :=
      if input <= 0 then (0.0, 0.0, NoPromptInput)
      else if observed <= 0 then (0.0, 0.0, NoCacheData)
      else if Percent(observed, input) >= 100.0 then (Percent(cacheRead, observed), 100.0, ShareAvailable)
      else (Percent(cacheRead, observed), Percent(observed, input), SharePartial);
    if !state.ShareAvailable? || !pricingComplete || eligible == 0 || 0 < ineligible then
      CacheEfficiency(share, coverage, state, None)
    else CacheEfficiency(share, coverage, state, Some(savings))
  }

  datatype Summary = Summary(
    totals: AggregateRow,
    successRate: real,
    cost: CostAssessment,
    cache: CacheEfficiency,
    accountingCoverage: Option<real>)

  /** The reported summary; the two eligibility counts are read but not reported, latency is not selected. */
  function MapSummary(row: AggregateRow): Summary {
    var cost :=
      if row.requests == 0 then CostAssessment(false, Unavailable) else AssessCostCompleteness(row.missing, row.known);
    Summary(
      row.(eligible := 0, ineligible := 0, latencyTotal := 0, latencySamples := 0),
      if 0 < row.requests then Percent(row.successes, row.requests) else 0.0,
      cost,
      CacheEfficiencyOf(row.input, row.cacheReadObserved, row.cacheRead, row.savings, row.eligible, row.ineligible,
                        cost.status.Available?),
      if 0 < row.requests then Some(Percent(row.valid, row.requests)) else None)
  }

  lemma SameSummary(a: AggregateRow, b: AggregateRow)
    requires Same(a, b)
    ensures MapSummary(a) == MapSummary(b)
  {
  }
}

/** Stored usage events, their hour bucket and rollup dimensions, and the per-attempt reading of one event. */
module UsageEvents {
  import opened Accounting
  import opened Trimming

  /** Instants are nanoseconds since the Unix epoch. */
  const HOUR: int := 3_600_000_000_000

  predicate Aligned(t: int) { t % 3_600_000_000_000 == 0 }

  /** `t.UTC().Truncate(time.Hour)`. */
  function HourOf(t: int): (h: int)
    ensures Aligned(h) && h <= t < h + HOUR
  {
    t - t % 3_600_000_000_000
  }

  /** The hour of an instant is the only aligned instant at most an hour before it. */
  lemma HourUnique(t: int, h: int)
    requires Aligned(h)
    ensures h <= t < h + HOUR <==> HourOf(t) == h
    ensures h <= t <==> h <= HourOf(t)
  {
  }

  /** Whole hours apart. */
  lemma AlignedPlus(a: int, hours: int)
    requires Aligned(a)
    ensures Aligned(a + hours * HOUR) && HourOf(a) == a
  {
  }

  datatype AccountingState = Absent | Valid

  datatype UsageEvent = UsageEvent(
    id: nat,
    eventKey: string,
    apiGroupKey: string,
    provider: string,
    authType: string,
    model: string,
    timestamp: int,
    source: string,
    authIndex: string,
    failed: bool,
    latencyMs: int64,
    ttftMs: Option<int64>,
    state: AccountingState,
    facts: UsageAccounting,
    generate: Option<bool>,
    stream: Option<bool>)

  datatype RollupKey = RollupKey(
    bucketStart: int, provider: string, model: string, authType: string, authIndex: string, apiKeyIdentity: string)

  predicate HasPrefix(s: string, prefix: string) { prefix <= s }

  function ApiKeyIdentity(e: UsageEvent): string {
    if HasPrefix(TrimSpace(e.apiGroupKey), "sk-") then TrimSpace(e.apiGroupKey)
    else if TrimSpace(e.authType) == "apikey" && HasPrefix(TrimSpace(e.source), "sk-") then TrimSpace(e.source)
    else ""
  }

  function KeyOf(e: UsageEvent): RollupKey {
    RollupKey(HourOf(e.timestamp), TrimSpace(e.provider), TrimSpace(e.model),
              TrimSpace(e.authType), TrimSpace(e.authIndex), ApiKeyIdentity(e))
  }

  /** The materialised state agrees with the facts, and present facts are a valid breakdown. */
  predicate Admitted(e: UsageEvent) {
    Admissible(e.facts) && (e.state.Absent? <==> FactsAbsent(e.facts))
  }

  /** The throughput facts of one attempt; `NilDereference` stands for the panic on a nil token pointer. */
  datatype AttemptFacts =
    | NilDereference
    | AttemptFacts(state: AccountingState, endToEndOutputTps: Option<real>, outputTps: Option<real>)

  function EndToEndOutputTps(outputTokens: int64, latencyMs: int64): Option<real> {
    if outputTokens <= 0 || latencyMs <= 0 then None
    else Some(outputTokens as real * 1000.0 / latencyMs as real)
  }

  function OutputTps(outputTokens: int64, latencyMs: int64, ttftMs: Option<int64>): Option<real> {
    if outputTokens <= 0 || ttftMs.None? || ttftMs.value <= 0 || latencyMs <= ttftMs.value then None
    else Some(outputTokens as real * 1000.0 / (latencyMs as int - ttftMs.value as int) as real)
  }

  function InterpretUsageAttempt(e: UsageEvent): AttemptFacts {
    var state := if FactsAbsent(e.facts) then Absent else Valid;
    if state.Absent? || e.facts.quality != Some(Complete) then AttemptFacts(state, None, None)
    else if e.generate != Some(true) || e.stream != Some(true) then AttemptFacts(state, None, None)
    else if e.facts.output.None? || e.facts.reasoning.None? then NilDereference
    else
      var endToEnd := EndToEndOutputTps(e.facts.output.value, e.latencyMs);
      var output :=
        if e.facts.reasoning.value == 0 then OutputTps(e.facts.output.value, e.latencyMs, e.ttftMs) else None;
      AttemptFacts(state, endToEnd, output)
  }

  /** On an admitted event the reading never dereferences nil, agrees with the materialised state, and
      the end-to-end rate is a lower bound of the generation rate. */
  lemma InterpretationIsTotal(e: UsageEvent)
    requires Admitted(e)
    ensures var f := InterpretUsageAttempt(e);
      && f.AttemptFacts?
      && f.state == e.state
      && (f.outputTps.Some? ==> f.endToEndOutputTps.Some? && f.endToEndOutputTps.value < f.outputTps.value)
  {
    var f := InterpretUsageAttempt(e);
    if f.AttemptFacts? && f.outputTps.Some? {
      var n := e.facts.output.value as real * 1000.0;
      var whole, rest := e.latencyMs as real, (e.latencyMs as int - e.ttftMs.value as int) as real;
      assert 0.0 < rest < whole && 0.0 < n;
      SmallerDivisor(n, whole, rest);
    }
  }

  /** The throughput of an attempt is told by its columns alone: it is shown for complete generating streams with
      output,
      over the whole latency, and over the time after the first token when no output token was reasoning; each rate
      times its time in milliseconds is a thousand times the output. */
  predicate RatesTell(e: UsageEvent, endToEnd: Option<real>, output: Option<real>) {
    var shown := e.state.Valid? && e.facts.quality == Some(Complete) && e.generate == Some(true)
      && e.stream == Some(true) && e.facts.output.Some? && 0 < e.facts.output.value;
    && (endToEnd.Some? <==> shown && 0 < e.latencyMs)
    && (endToEnd.Some? ==> endToEnd.value * e.latencyMs as real == e.facts.output.value as real * 1000.0)
    && (output.Some? <==>
       shown && e.facts.reasoning == Some(0) && e.ttftMs.Some? && 0 < e.ttftMs.value < e.latencyMs)
    && (output.Some? ==>
       output.value * (e.latencyMs as real - e.ttftMs.value as real) == e.facts.output.value as real * 1000.0)
  }

  lemma InterpretationTellsRates(e: UsageEvent)
    requires Admitted(e)
    ensures var f := InterpretUsageAttempt(e); f.AttemptFacts? && RatesTell(e, f.endToEndOutputTps, f.outputTps)
  {
    var f := InterpretUsageAttempt(e);
    if f.AttemptFacts? && f.endToEndOutputTps.Some? {
      QuotientTimes(e.facts.output.value as real * 1000.0, e.latencyMs as real);
    }
    if f.AttemptFacts? && f.outputTps.Some? {
      var rest := (e.latencyMs as int - e.ttftMs.value as int) as real;
      assert rest == e.latencyMs as real - e.ttftMs.value as real;
      QuotientTimes(e.facts.output.value as real * 1000.0, rest);
    }
  }

  lemma QuotientTimes(n: real, d: real)
    requires d != 0.0
    ensures n / d * d == n
  {
  }

  lemma SmallerDivisor(n: real, whole: real, rest: real)
    requires 0.0 < n && 0.0 < rest < whole
    ensures n / whole < n / rest
  {
    var a, b := n / whole, n / rest;
    assert a * whole == n && b * rest == n;
    assert a * rest < a * whole;
    assert b <= a ==> b * rest <= a * rest;
  }
}

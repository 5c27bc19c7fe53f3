/** Hourly rollup rows and the three ways they are computed: event by event in memory, by upsert
    increments, and by the SQL rebuild (internal/repository/usage_rollups_hourly.go). */
module Rollups {
  import opened Accounting
  import opened Aggregation
  import opened EventFigures
  import opened UsageEvents

  /** The counters of one rollup row; `lastEventAt` is `None` for Go's zero time. */
  datatype HourlyRollup = HourlyRollup(
    requests: int, successes: int, failures: int,
    absent: int, valid: int,
    complete: int, inconsistent: int, unclassifiedAttempts: int,
    completeZero: int, completePrompt: int, completeCacheRead: int, completeOutput: int,
    tokens: Tokens,
    latencyTotal: int, latencySamples: int,
    lastEventAt: Option<int>)

  const NO_TOKENS := Tokens(0, 0, 0, 0, 0, 0, 0, 0, 0)
  const EMPTY_ROLLUP := HourlyRollup(0, 0, 0, 0, 0, 0, 0, 0, 0, 0, 0, 0, NO_TOKENS, 0, 0, None)

  function PlusTokens(a: Tokens, b: Tokens): Tokens {
    Tokens(a.total + b.total, a.input + b.input, a.uncached + b.uncached, a.cacheRead + b.cacheRead,
           a.cacheWrite + b.cacheWrite, a.output + b.output, a.nonReasoning + b.nonReasoning,
           a.reasoning + b.reasoning, a.unclassified + b.unclassified)
  }

  function Latest(a: Option<int>, b: Option<int>): Option<int> {
    if a.None? then b else if b.None? then a else if a.value < b.value then b else a
  }

  /** One upsert conflict: every counter is added, the last event time is the maximum. */
  function Plus(a: HourlyRollup, b: HourlyRollup): HourlyRollup {
    HourlyRollup(a.requests + b.requests, a.successes + b.successes, a.failures + b.failures,
                 a.absent + b.absent, a.valid + b.valid,
                 a.complete + b.complete, a.inconsistent + b.inconsistent,
                 a.unclassifiedAttempts + b.unclassifiedAttempts,
                 a.completeZero + b.completeZero, a.completePrompt + b.completePrompt,
                 a.completeCacheRead + b.completeCacheRead, a.completeOutput + b.completeOutput,
                 PlusTokens(a.tokens, b.tokens),
                 a.latencyTotal + b.latencyTotal, a.latencySamples + b.latencySamples,
                 Latest(a.lastEventAt, b.lastEventAt))
  }

  const ROLLUPS: Monoid<HourlyRollup> := Monoid(EMPTY_ROLLUP, Plus)

  lemma RollupsLawful()
    ensures Lawful(ROLLUPS)
  {
  }

  function Bit(b: bool): int { if b then 1 else 0 }

  predicate QualityIs(e: UsageEvent, quality: TokenQuality) { e.state.Valid? && e.facts.quality == Some(quality) }

  /** The row the SQL rebuild sums for one event: one CASE expression per column. */
  function RowOf(e: UsageEvent): HourlyRollup { RowWith(e, TokensOf(e.facts)) }

  function RowWith(e: UsageEvent, t: Tokens): HourlyRollup {
    var complete := QualityIs(e, Complete);
    HourlyRollup(
      1, Bit(!e.failed), Bit(e.failed),
      Bit(e.state.Absent?), Bit(e.state.Valid?),
      Bit(complete), Bit(QualityIs(e, Inconsistent)), Bit(QualityIs(e, Unclassified)),
      Bit(complete && t.uncached == 0 && t.cacheRead == 0 && t.cacheWrite == 0 && t.output == 0),
      if complete then t.uncached + t.cacheWrite else 0,
      if complete then t.cacheRead else 0,
      if complete then t.output else 0,
      if e.state.Valid? then t else NO_TOKENS,
      if 0 < e.latencyMs then e.latencyMs as int else 0, Bit(0 < e.latencyMs),
      Some(e.timestamp))
  }

  /** The reference meaning of the rollup table: `GROUP BY` the six dimensions. */
  function Group(es: seq<UsageEvent>): map<RollupKey, HourlyRollup> { GroupBy(ROLLUPS, KeyOf, RowOf, es) }

  /** The rollups do not depend on the order in which events arrived. */
  lemma GroupIgnoresOrder(a: seq<UsageEvent>, b: seq<UsageEvent>)
    requires multiset(a) == multiset(b)
    ensures Group(a) == Group(b)
  {
    RollupsLawful();
    GroupPermuted(ROLLUPS, KeyOf, RowOf, a, b);
  }

  /** Upsert of every row of `more` into `table`. */
  function Merge(table: map<RollupKey, HourlyRollup>, more: map<RollupKey, HourlyRollup>):
    map<RollupKey, HourlyRollup> {
    MergeGroups(ROLLUPS, table, more)
  }

  lemma {:induction false} RequestsAreCounted(es: seq<UsageEvent>)
    ensures Total(ROLLUPS, RowOf, es).requests == |es|
  {
    if es != [] {
      RequestsAreCounted(es[1..]);
    }
  }

  /** The in-memory builder tests the prompt sum for zero where the SQL tests its two parts. */
  function InMemoryRowOf(e: UsageEvent): HourlyRollup {
    var t := TokensOf(e.facts);
    var zero := t.uncached + t.cacheWrite == 0 && t.cacheRead == 0 && t.output == 0;
    RowOf(e).(completeZero := Bit(QualityIs(e, Complete) && zero))
  }

  /** The two per-event rows agree on every admitted event. */
  lemma RowsAgree(e: UsageEvent)
    requires Admitted(e)
    ensures InMemoryRowOf(e) == RowOf(e)
  {
  }

  /** A negative write or prompt that cancels the other, with nothing else billed. */
  predicate PromptCancels(e: UsageEvent) {
    var t := TokensOf(e.facts);
    QualityIs(e, Complete) && t.uncached == -t.cacheWrite && t.uncached != 0 && t.cacheRead == 0 && t.output == 0
  }

  /** For every event whatever: the two rows are equal if and only if no prompt cancels. */
  lemma RowsAgreeIff(e: UsageEvent)
    ensures InMemoryRowOf(e) == RowOf(e) <==> !PromptCancels(e)
  {
    assert InMemoryRowOf(e) == RowOf(e) <==> InMemoryRowOf(e).completeZero == RowOf(e).completeZero;
  }

  /** Such an event is never admitted, whatever its other columns are. */
  lemma RowsDisagree(e: UsageEvent)
    requires PromptCancels(e)
    ensures InMemoryRowOf(e) != RowOf(e) && !Admitted(e)
  {
    RowsAgreeIff(e);
    assert !NonNegative(TokensOf(e.facts));
  }

  /** There is one: a prompt of one token and a write of minus one. */
  lemma CancellingPromptExists(e: UsageEvent)
    requires e.state.Valid?
    requires e.facts == NO_FACTS.(quality := Some(Complete), uncached := Some(1), cacheWrite := Some(-1))
    ensures PromptCancels(e)
  {
  }

  /** `after` counts the outcome, latency and time of one more event. */
  predicate AddsOutcome(row: HourlyRollup, after: HourlyRollup, e: UsageEvent) {
    && after.requests == row.requests + 1
    && after.failures == row.failures + (if e.failed then 1 else 0)
    && after.successes == row.successes + (if e.failed then 0 else 1)
    && after.latencySamples == row.latencySamples + (if e.latencyMs > 0 then 1 else 0)
    && after.latencyTotal == row.latencyTotal + (if e.latencyMs > 0 then e.latencyMs as int else 0)
    && after.lastEventAt.Some? && after.lastEventAt.value >= e.timestamp
    && (row.lastEventAt.Some? ==> after.lastEventAt.value >= row.lastEventAt.value)
    && (after.lastEventAt == row.lastEventAt || after.lastEventAt.value == e.timestamp)
  }

  /** `after` counts the state and the quality of one more event and its complete tokens. */
  predicate AddsAccounting(row: HourlyRollup, after: HourlyRollup, e: UsageEvent) {
    && after.absent == row.absent + (if e.state.Absent? then 1 else 0)
    && after.valid == row.valid + (if e.state.Valid? then 1 else 0)
    && after.complete == row.complete + WhenComplete(e, 1)
    && after.inconsistent == row.inconsistent + (if HasQuality(e, Inconsistent) then 1 else 0)
    && after.unclassifiedAttempts == row.unclassifiedAttempts + (if HasQuality(e, Unclassified) then 1 else 0)
    && after.completePrompt == row.completePrompt + WhenComplete(e, PromptOf(e))
    && after.completeCacheRead == row.completeCacheRead + WhenComplete(e, BucketOf(e, e.facts.cacheRead))
    && after.completeOutput == row.completeOutput + WhenComplete(e, BucketOf(e, e.facts.output))
    && after.completeZero == row.completeZero
       + (if HasQuality(e, Complete) && PromptOf(e) == 0 && BucketOf(e, e.facts.cacheRead) == 0
             && BucketOf(e, e.facts.output) == 0 then 1 else 0)
  }

  /** `after` holds each canonical bucket of one more event. */
  predicate AddsBuckets(row: Tokens, after: Tokens, e: UsageEvent) {
    && after.total == row.total + BucketOf(e, e.facts.total)
    && after.input == row.input + BucketOf(e, e.facts.input)
    && after.uncached == row.uncached + BucketOf(e, e.facts.uncached)
    && after.cacheRead == row.cacheRead + BucketOf(e, e.facts.cacheRead)
    && after.cacheWrite == row.cacheWrite + BucketOf(e, e.facts.cacheWrite)
    && after.output == row.output + BucketOf(e, e.facts.output)
    && after.nonReasoning == row.nonReasoning + BucketOf(e, e.facts.nonReasoning)
    && after.reasoning == row.reasoning + BucketOf(e, e.facts.reasoning)
    && after.unclassified == row.unclassified + BucketOf(e, e.facts.unclassified)
  }

  /** A row with the accounting columns of another. */
  function WithAccountingOf(row: HourlyRollup, r: HourlyRollup): HourlyRollup {
    r.(requests := row.requests, successes := row.successes, failures := row.failures,
       latencyTotal := row.latencyTotal, latencySamples := row.latencySamples, lastEventAt := row.lastEventAt)
  }

  lemma OutcomeAdded(row: HourlyRollup, e: UsageEvent)
    ensures AddsOutcome(row, Plus(row, InMemoryRowOf(e)), e)
  {
  }

  lemma AccountingAdded(row: HourlyRollup, e: UsageEvent)
    ensures AddsAccounting(row, Plus(row, InMemoryRowOf(e)), e)
  {
  }

  lemma BucketsAdded(row: HourlyRollup, e: UsageEvent)
    ensures AddsBuckets(row.tokens, Plus(row, InMemoryRowOf(e)).tokens, e)
  {
  }

  /** One event applied to a rollup row, field by field. */
  method ApplyUsageEventToHourlyRollup(row: HourlyRollup, e: UsageEvent) returns (r: HourlyRollup)
    ensures AddsOutcome(row, r, e) && AddsAccounting(row, r, e) && AddsBuckets(row.tokens, r.tokens, e)
    ensures r == Plus(row, InMemoryRowOf(e))
  {
    OutcomeAdded(row, e);
    AccountingAdded(row, e);
    BucketsAdded(row, e);
    r := row.(requests := row.requests + 1);
    if e.failed {
      r := r.(failures := r.failures + 1);
    } else {
      r := r.(successes := r.successes + 1);
    }
    r := ApplyUsageAccountingToHourlyRollup(r, e);
    if 0 < e.latencyMs {
      r := r.(latencyTotal := r.latencyTotal + e.latencyMs as int, latencySamples := r.latencySamples + 1);
    }
    if r.lastEventAt.None? || r.lastEventAt.value < e.timestamp {
      r := r.(lastEventAt := Some(e.timestamp));
    }
  }

  method ApplyUsageAccountingToHourlyRollup(row: HourlyRollup, e: UsageEvent) returns (r: HourlyRollup)
    ensures AddsAccounting(row, r, e) && AddsBuckets(row.tokens, r.tokens, e)
    ensures r == WithAccountingOf(row, Plus(row, InMemoryRowOf(e)))
  {
    AccountingAdded(row, e);
    BucketsAdded(row, e);
    r := row;
    match e.state
    case Absent =>
      r := r.(absent := r.absent + 1);
    case Valid =>
      r := r.(valid := r.valid + 1);
      var t := TokensOf(e.facts);
      if e.facts.quality == Some(Complete) {
        var prompt := t.uncached + t.cacheWrite;
        r := r.(complete := r.complete + 1, completePrompt := r.completePrompt + prompt,
                completeCacheRead := r.completeCacheRead + t.cacheRead, completeOutput := r.completeOutput + t.output);
        if prompt == 0 && t.cacheRead == 0 && t.output == 0 {
          r := r.(completeZero := r.completeZero + 1);
        }
      } else if e.facts.quality == Some(Inconsistent) {
        r := r.(inconsistent := r.inconsistent + 1);
      } else if e.facts.quality == Some(Unclassified) {
        r := r.(unclassifiedAttempts := r.unclassifiedAttempts + 1);
      }
      r := r.(tokens := PlusTokens(r.tokens, t));
  }

  function InBuckets(buckets: set<int>): UsageEvent -> bool { (e: UsageEvent) => HourOf(e.timestamp) in buckets }

  /** The rollup map built in memory from the events of the given buckets. */
  function Built(events: seq<UsageEvent>, buckets: set<int>): map<RollupKey, HourlyRollup> {
    GroupBy(ROLLUPS, KeyOf, InMemoryRowOf, Select(events, InBuckets(buckets)))
  }

  /** The map update one event causes. */
  function AddRow(rollups: map<RollupKey, HourlyRollup>, key: RollupKey, row: HourlyRollup):
    map<RollupKey, HourlyRollup> {
    rollups[key := if key in rollups then Plus(rollups[key], row) else row]
  }

  lemma BuiltStep(events: seq<UsageEvent>, i: nat, buckets: set<int>)
    requires i < |events|
    ensures Built(events[..i + 1], buckets) ==
      if HourOf(events[i].timestamp) !in buckets then Built(events[..i], buckets)
      else AddRow(Built(events[..i], buckets), KeyOf(events[i]), InMemoryRowOf(events[i]))
  {
    RollupsLawful();
    SelectStep(events, i, InBuckets(buckets));
    GroupStep(ROLLUPS, KeyOf, InMemoryRowOf, Select(events[..i], InBuckets(buckets)), events[i]);
  }

  lemma BuiltFromNothing(buckets: set<int>)
    ensures Built([], buckets) == map[]
  {
  }

  lemma AddRowFromEmpty(rollups: map<RollupKey, HourlyRollup>, key: RollupKey, row: HourlyRollup)
    ensures rollups[key := Plus(if key in rollups then rollups[key] else EMPTY_ROLLUP, row)]
      == AddRow(rollups, key, row)
  {
  }

  method AddEvent(rollups: map<RollupKey, HourlyRollup>, key: RollupKey, event: UsageEvent)
    returns (r: map<RollupKey, HourlyRollup>)
    ensures r == AddRow(rollups, key, InMemoryRowOf(event))
  {
    AddRowFromEmpty(rollups, key, InMemoryRowOf(event));
    var row := ApplyUsageEventToHourlyRollup(if key in rollups then rollups[key] else EMPTY_ROLLUP, event);
    r := rollups[key := row];
  }

  /** Grouping of the events that fall into the listed buckets, one event at a time. */
  method BuildUsageRollupsForBuckets(bucketList: seq<int>, events: seq<UsageEvent>)
    returns (rollups: map<RollupKey, HourlyRollup>)
    ensures rollups == Built(events, set b | b in bucketList :: HourOf(b))
  {
    var buckets := set b | b in bucketList :: HourOf(b);
    BuiltFromNothing(buckets);
    rollups := map[];
    for i := 0 to |events|
      invariant rollups == Built(events[..i], buckets)
    {
      BuiltStep(events, i, buckets);
      if HourOf(events[i].timestamp) in buckets {
        rollups := AddEvent(rollups, KeyOf(events[i]), events[i]);
      }
    }
    assert events[..|events|] == events;
  }
}

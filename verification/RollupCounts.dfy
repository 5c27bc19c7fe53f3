/** What the columns of a rollup row count, told from the columns of the events themselves
    (internal/repository/usage_rollups_hourly.go). */
module RollupCounts {
  import opened Accounting
  import opened Aggregation
  import opened BackfillRuns
  import opened EventFigures
  import opened RollupIndex
  import opened Rollups
  import opened Trimming
  import opened UsageEvents

  // Every column

  predicate CountsOutcomes(r: HourlyRollup, es: seq<UsageEvent>) {
    && r.requests == |es|
    && r.successes == CountBy(es, (e: UsageEvent) => !e.failed)
    && r.failures == CountBy(es, (e: UsageEvent) => e.failed)
    && r.absent == CountBy(es, (e: UsageEvent) => e.state.Absent?)
    && r.valid == CountBy(es, (e: UsageEvent) => e.state.Valid?)
    && r.latencySamples == CountBy(es, (e: UsageEvent) => 0 < e.latencyMs)
    && r.latencyTotal == SumBy(es, (e: UsageEvent) => if 0 < e.latencyMs then e.latencyMs as int else 0)
  }

  predicate CountsQualities(r: HourlyRollup, es: seq<UsageEvent>) {
    && r.complete == CountBy(es, (e: UsageEvent) => HasQuality(e, Complete))
    && r.inconsistent == CountBy(es, (e: UsageEvent) => HasQuality(e, Inconsistent))
    && r.unclassifiedAttempts == CountBy(es, (e: UsageEvent) => HasQuality(e, Unclassified))
  }

  predicate SumsComplete(r: HourlyRollup, es: seq<UsageEvent>) {
    && r.completeZero == CountBy(es, BilledNothing)
    && r.completePrompt == SumBy(es, (e: UsageEvent) => WhenComplete(e, PromptOf(e)))
    && r.completeCacheRead == SumBy(es, (e: UsageEvent) => WhenComplete(e, BucketOf(e, e.facts.cacheRead)))
    && r.completeOutput == SumBy(es, (e: UsageEvent) => WhenComplete(e, BucketOf(e, e.facts.output)))
  }

  predicate SumsInput(t: Tokens, es: seq<UsageEvent>) {
    && t.input == SumBy(es, (e: UsageEvent) => BucketOf(e, e.facts.input))
    && t.uncached == SumBy(es, (e: UsageEvent) => BucketOf(e, e.facts.uncached))
    && t.cacheRead == SumBy(es, (e: UsageEvent) => BucketOf(e, e.facts.cacheRead))
    && t.cacheWrite == SumBy(es, (e: UsageEvent) => BucketOf(e, e.facts.cacheWrite))
  }

  predicate SumsOutput(t: Tokens, es: seq<UsageEvent>) {
    && t.total == SumBy(es, (e: UsageEvent) => BucketOf(e, e.facts.total))
    && t.output == SumBy(es, (e: UsageEvent) => BucketOf(e, e.facts.output))
  }

  predicate SumsParts(t: Tokens, es: seq<UsageEvent>) {
    && t.nonReasoning == SumBy(es, (e: UsageEvent) => BucketOf(e, e.facts.nonReasoning))
    && t.reasoning == SumBy(es, (e: UsageEvent) => BucketOf(e, e.facts.reasoning))
    && t.unclassified == SumBy(es, (e: UsageEvent) => BucketOf(e, e.facts.unclassified))
  }

  /** The last event time is that of the latest event. */
  predicate IsLatest(last: Option<int>, es: seq<UsageEvent>) {
    && (last.None? <==> es == [])
    && (forall e :: e in es ==> last.Some? && e.timestamp <= last.value)
    && (last.Some? ==> exists e :: e in es && e.timestamp == last.value)
  }

  /** The row tells all this of these events. */
  predicate Counts(r: HourlyRollup, es: seq<UsageEvent>) {
    && CountsOutcomes(r, es) && CountsQualities(r, es) && SumsComplete(r, es)
    && SumsInput(r.tokens, es) && SumsOutput(r.tokens, es) && SumsParts(r.tokens, es)
    && IsLatest(r.lastEventAt, es)
  }

  lemma OutcomesCounted(es: seq<UsageEvent>)
    ensures CountsOutcomes(Total(ROLLUPS, RowOf, es), es)
  {
    RequestsAreCounted(es);
    ColumnCount(ROLLUPS, RowOf, (r: HourlyRollup) => r.successes, es, (e: UsageEvent) => !e.failed);
    ColumnCount(ROLLUPS, RowOf, (r: HourlyRollup) => r.failures, es, (e: UsageEvent) => e.failed);
    ColumnCount(ROLLUPS, RowOf, (r: HourlyRollup) => r.absent, es, (e: UsageEvent) => e.state.Absent?);
    ColumnCount(ROLLUPS, RowOf, (r: HourlyRollup) => r.valid, es, (e: UsageEvent) => e.state.Valid?);
    ColumnCount(ROLLUPS, RowOf, (r: HourlyRollup) => r.latencySamples, es, (e: UsageEvent) => 0 < e.latencyMs);
    ColumnSum(ROLLUPS, RowOf, (r: HourlyRollup) => r.latencyTotal, es,
              (e: UsageEvent) => if 0 < e.latencyMs then e.latencyMs as int else 0);
  }

  lemma QualityCounted(es: seq<UsageEvent>, quality: TokenQuality, column: HourlyRollup -> int)
    requires column(EMPTY_ROLLUP) == 0 && forall a, b :: column(Plus(a, b)) == column(a) + column(b)
    requires forall e :: column(RowOf(e)) == if HasQuality(e, quality) then 1 else 0
    ensures column(Total(ROLLUPS, RowOf, es)) == CountBy(es, (e: UsageEvent) => HasQuality(e, quality))
  {
    ColumnCount(ROLLUPS, RowOf, column, es, (e: UsageEvent) => HasQuality(e, quality));
  }

  lemma QualitiesAdded(es: seq<UsageEvent>)
    ensures CountsQualities(Total(ROLLUPS, RowOf, es), es)
  {
    QualityCounted(es, Complete, (r: HourlyRollup) => r.complete);
    QualityCounted(es, Inconsistent, (r: HourlyRollup) => r.inconsistent);
    QualityCounted(es, Unclassified, (r: HourlyRollup) => r.unclassifiedAttempts);
  }

  lemma BilledNothingCounted(es: seq<UsageEvent>)
    ensures Total(ROLLUPS, RowOf, es).completeZero == CountBy(es, BilledNothing)
  {
    ColumnCount(ROLLUPS, RowOf, (r: HourlyRollup) => r.completeZero, es, BilledNothing);
  }

  lemma PromptSummed(es: seq<UsageEvent>)
    ensures Total(ROLLUPS, RowOf, es).completePrompt == SumBy(es, (e: UsageEvent) => WhenComplete(e, PromptOf(e)))
  {
    ColumnSum(ROLLUPS, RowOf, (r: HourlyRollup) => r.completePrompt, es,
              (e: UsageEvent) => WhenComplete(e, PromptOf(e)));
  }

  lemma CompleteAdded(es: seq<UsageEvent>)
    ensures SumsComplete(Total(ROLLUPS, RowOf, es), es)
  {
    BilledNothingCounted(es);
    PromptSummed(es);
    ColumnSum(ROLLUPS, RowOf, (r: HourlyRollup) => r.completeCacheRead, es,
              (e: UsageEvent) => WhenComplete(e, BucketOf(e, e.facts.cacheRead)));
    ColumnSum(ROLLUPS, RowOf, (r: HourlyRollup) => r.completeOutput, es,
              (e: UsageEvent) => WhenComplete(e, BucketOf(e, e.facts.output)));
  }

  lemma InputSummed(es: seq<UsageEvent>)
    ensures SumsInput(Total(ROLLUPS, RowOf, es).tokens, es)
  {
    ColumnSum(ROLLUPS, RowOf, (r: HourlyRollup) => r.tokens.input, es, (e: UsageEvent) => BucketOf(e, e.facts.input));
    ColumnSum(ROLLUPS, RowOf, (r: HourlyRollup) => r.tokens.uncached, es,
              (e: UsageEvent) => BucketOf(e, e.facts.uncached));
    ColumnSum(ROLLUPS, RowOf, (r: HourlyRollup) => r.tokens.cacheRead, es,
              (e: UsageEvent) => BucketOf(e, e.facts.cacheRead));
    ColumnSum(ROLLUPS, RowOf, (r: HourlyRollup) => r.tokens.cacheWrite, es,
              (e: UsageEvent) => BucketOf(e, e.facts.cacheWrite));
  }

  lemma OutputSummed(es: seq<UsageEvent>)
    ensures SumsOutput(Total(ROLLUPS, RowOf, es).tokens, es)
  {
    ColumnSum(ROLLUPS, RowOf, (r: HourlyRollup) => r.tokens.total, es, (e: UsageEvent) => BucketOf(e, e.facts.total));
    ColumnSum(ROLLUPS, RowOf, (r: HourlyRollup) => r.tokens.output, es, (e: UsageEvent) => BucketOf(e, e.facts.output));
  }

  lemma PartsSummed(es: seq<UsageEvent>)
    ensures SumsParts(Total(ROLLUPS, RowOf, es).tokens, es)
  {
    ColumnSum(ROLLUPS, RowOf, (r: HourlyRollup) => r.tokens.nonReasoning, es,
              (e: UsageEvent) => BucketOf(e, e.facts.nonReasoning));
    ColumnSum(ROLLUPS, RowOf, (r: HourlyRollup) => r.tokens.reasoning, es,
              (e: UsageEvent) => BucketOf(e, e.facts.reasoning));
    ColumnSum(ROLLUPS, RowOf, (r: HourlyRollup) => r.tokens.unclassified, es,
              (e: UsageEvent) => BucketOf(e, e.facts.unclassified));
  }

  lemma {:induction false} LatestFound(es: seq<UsageEvent>)
    ensures IsLatest(Total(ROLLUPS, RowOf, es).lastEventAt, es)
  {
    if es != [] {
      var rest := es[1..];
      LatestFound(rest);
      assert es == [es[0]] + rest;
      var before, after := Total(ROLLUPS, RowOf, rest).lastEventAt, Total(ROLLUPS, RowOf, es).lastEventAt;
      assert after == Latest(Some(es[0].timestamp), before);
      if before.Some? {
        var e :| e in rest && e.timestamp == before.value;
        assert e in es && es[0] in es;
      } else {
        assert es[0] in es;
      }
    }
  }

  /** The row of some events counts exactly them. */
  lemma TotalCounts(es: seq<UsageEvent>)
    ensures Counts(Total(ROLLUPS, RowOf, es), es)
  {
    OutcomesCounted(es);
    QualitiesAdded(es);
    CompleteAdded(es);
    InputSummed(es);
    OutputSummed(es);
    PartsSummed(es);
    LatestFound(es);
  }

  // Which events a row is about

  /** The event belongs to a rollup row: its hour and its trimmed dimensions are those of the row's key. */
  predicate Belongs(e: UsageEvent, k: RollupKey) {
    && k.bucketStart % 3_600_000_000_000 == 0 && k.bucketStart <= e.timestamp < k.bucketStart + 3_600_000_000_000
    && k.provider == TrimSpace(e.provider) && k.model == TrimSpace(e.model)
    && k.authType == TrimSpace(e.authType) && k.authIndex == TrimSpace(e.authIndex)
    && IsApiKey(e, k.apiKeyIdentity)
  }

  /** The API key of an event: a group that is one, or else the source of an API-key call that is one. */
  predicate IsApiKey(e: UsageEvent, key: string) {
    var group, source := TrimSpace(e.apiGroupKey), TrimSpace(e.source);
    && ("sk-" <= group ==> key == group)
    && (!("sk-" <= group) && TrimSpace(e.authType) == "apikey" && "sk-" <= source ==> key == source)
    && (!("sk-" <= group) && !(TrimSpace(e.authType) == "apikey" && "sk-" <= source) ==> key == "")
  }

  lemma KeyBelongs(e: UsageEvent, k: RollupKey)
    ensures KeyOf(e) == k <==> Belongs(e, k)
  {
    if Aligned(k.bucketStart) {
      HourUnique(e.timestamp, k.bucketStart);
    }
  }

  function Of(k: RollupKey): UsageEvent -> bool { (e: UsageEvent) => Belongs(e, k) }

  /** The rollups of any events: a row for every key some event belongs to, counting exactly the events that do. */
  lemma GroupCounts(es: seq<UsageEvent>, k: RollupKey)
    ensures k in Group(es) <==> exists e :: e in es && Belongs(e, k)
    ensures k in Group(es) ==> Counts(Group(es)[k], Select(es, Of(k)))
  {
    forall e ensures KeyOf(e) == k <==> Belongs(e, k) {
      KeyBelongs(e, k);
    }
    SelectSame(es, At(KeyOf, k), Of(k));
    TotalCounts(Select(es, Of(k)));
    if k in Group(es) {
      assert Group(es)[k] == TotalAt(ROLLUPS, KeyOf, RowOf, es, k);
    }
  }

  /** In every reachable store each rollup row counts exactly the events of its hour and dimensions that are not
      pending. */
  lemma ReachableRowCounts(t: Tracked, steps: seq<Step>, k: RollupKey)
    requires Initial(t) && forall step :: step in steps ==> Polite(step)
    requires k in Run(t, steps).store.rollups
    ensures var r := Run(t, steps);
      Counts(r.store.rollups[k], Select(Select(r.store.events, Outside(r.pending)), Of(k)))
  {
    RunKeepsInv(t, steps);
    GroupCounts(Select(Run(t, steps).store.events, Outside(Run(t, steps).pending)), k);
  }
}

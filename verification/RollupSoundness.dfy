/** The accounting identities every rollup row and every sum of rows satisfies
    (internal/repository/usage_accounting.go, usage_rollups_hourly.go). */
module RollupSoundness {
  import opened Accounting
  import opened Aggregation
  import opened Rollups
  import opened UsageEvents

  predicate SoundCounts(r: HourlyRollup) {
    && 0 <= r.successes && 0 <= r.failures && 0 <= r.absent
    && 0 <= r.completeZero <= r.complete && 0 <= r.inconsistent && 0 <= r.unclassifiedAttempts
    && r.requests == r.successes + r.failures
    && r.requests == r.absent + r.valid
    && r.valid == r.complete + r.inconsistent + r.unclassifiedAttempts
    && 0 <= r.latencyTotal && 0 <= r.latencySamples <= r.requests
  }

  predicate SoundTokens(r: HourlyRollup) {
    && SoundBuckets(r.tokens)
    && 0 <= r.completePrompt && 0 <= r.completeCacheRead && 0 <= r.completeOutput
    && (0 < r.completeCacheRead ==> 0 < r.complete)
  }

  /** Requests split into absent and valid attempts, valid ones into the three qualities, and the token
      buckets add up. */
  predicate Sound(r: HourlyRollup) { SoundCounts(r) && SoundTokens(r) }

  predicate SoundBuckets(t: Tokens) { NonNegative(t) && Balanced(t) }

  lemma NoTokensSound(t: Tokens)
    requires t == NO_TOKENS
    ensures SoundBuckets(t)
  {
  }

  lemma WellFormedTokensSound(f: UsageAccounting)
    requires WellFormed(f)
    ensures SoundBuckets(TokensOf(f))
  {
  }

  lemma AbsentTokens(f: UsageAccounting)
    requires FactsAbsent(f)
    ensures TokensOf(f) == NO_TOKENS
  {
  }

  lemma AdmittedRowSound(e: UsageEvent)
    requires Admitted(e)
    ensures Sound(RowOf(e)) && RowOf(e).requests == 1
  {
    if FactsAbsent(e.facts) {
      AbsentTokens(e.facts);
      AbsentRowSound(e, TokensOf(e.facts));
    } else {
      WellFormedTokensSound(e.facts);
      ValidRowSound(e, TokensOf(e.facts));
    }
  }

  lemma BothSound(r: HourlyRollup)
    requires SoundCounts(r) && SoundTokens(r)
    ensures Sound(r)
  {
  }

  lemma ZeroTokensSound(r: HourlyRollup, t: Tokens)
    requires r.tokens == t && SoundBuckets(t)
    requires r.completePrompt == 0 && r.completeCacheRead == 0 && r.completeOutput == 0
    ensures SoundTokens(r)
  {
  }

  lemma AbsentCounts(e: UsageEvent, t: Tokens)
    requires e.state.Absent?
    ensures SoundCounts(RowWith(e, t)) && RowWith(e, t).requests == 1
  {
  }

  lemma AbsentRowTokens(e: UsageEvent, t: Tokens)
    requires e.state.Absent?
    ensures RowWith(e, t).tokens == NO_TOKENS
  {
  }

  lemma AbsentRowIncomplete(e: UsageEvent, t: Tokens)
    requires e.state.Absent?
    ensures var r := RowWith(e, t); r.completePrompt == 0 && r.completeCacheRead == 0 && r.completeOutput == 0
  {
  }

  lemma AbsentRowSound(e: UsageEvent, t: Tokens)
    requires e.state.Absent?
    ensures Sound(RowWith(e, t)) && RowWith(e, t).requests == 1
  {
    AbsentCounts(e, t);
    AbsentRowTokens(e, t);
    AbsentRowIncomplete(e, t);
    AbsentIsSound(RowWith(e, t), RowWith(e, t).tokens);
  }

  lemma AbsentIsSound(r: HourlyRollup, t: Tokens)
    requires SoundCounts(r) && r.tokens == t == NO_TOKENS
    requires r.completePrompt == 0 && r.completeCacheRead == 0 && r.completeOutput == 0
    ensures Sound(r)
  {
    NoTokensSound(t);
    ZeroTokensSound(r, t);
    BothSound(r);
  }

  lemma ValidRowSound(e: UsageEvent, t: Tokens)
    requires SoundBuckets(t)
    requires e.state.Valid? && e.facts.quality.Some? && !e.facts.quality.value.Unsupported?
    ensures Sound(RowWith(e, t)) && RowWith(e, t).requests == 1
  {
  }

  lemma PlusSound(a: HourlyRollup, b: HourlyRollup)
    requires Sound(a) && Sound(b)
    ensures Sound(Plus(a, b))
  {
  }

  lemma {:induction false} TotalOfSound(value: UsageEvent -> HourlyRollup, es: seq<UsageEvent>)
    requires forall e :: e in es ==> Sound(value(e))
    ensures Sound(Total(ROLLUPS, value, es))
  {
    if es == [] {
      EmptySound(Total(ROLLUPS, value, es));
    } else {
      TotalOfSound(value, es[1..]);
      assert es[0] in es;
      PlusSound(value(es[0]), Total(ROLLUPS, value, es[1..]));
    }
  }

  lemma EmptySound(r: HourlyRollup)
    requires r == EMPTY_ROLLUP
    ensures Sound(r)
  {
    EmptyCounts(r);
    NoTokensSound(r.tokens);
    ZeroTokensSound(r, r.tokens);
    BothSound(r);
  }

  lemma EmptyCounts(r: HourlyRollup)
    requires r == EMPTY_ROLLUP
    ensures SoundCounts(r)
  {
  }

  /** Every sum of event rows satisfies the accounting identities. */
  lemma TotalSound(es: seq<UsageEvent>)
    requires forall e :: e in es ==> Admitted(e)
    ensures Sound(Total(ROLLUPS, RowOf, es))
  {
    forall e | e in es ensures Sound(RowOf(e)) { AdmittedRowSound(e); }
    TotalOfSound(RowOf, es);
  }

  lemma SelectedSound(es: seq<UsageEvent>, keep: UsageEvent -> bool)
    requires forall e :: e in es ==> Admitted(e)
    ensures Sound(Total(ROLLUPS, RowOf, Select(es, keep)))
  {
    forall e | e in Select(es, keep) ensures Admitted(e) { SelectIn(es, keep, e); }
    TotalSound(Select(es, keep));
  }

  /** The row of a rollup key, in any grouping of admitted events. */
  lemma GroupRowsSound(es: seq<UsageEvent>, k: RollupKey)
    requires (forall e :: e in es ==> Admitted(e)) && k in Group(es)
    ensures Sound(Group(es)[k])
  {
    SelectedSound(es, At(KeyOf, k));
    assert Group(es)[k] == TotalAt(ROLLUPS, KeyOf, RowOf, es, k);
  }
}

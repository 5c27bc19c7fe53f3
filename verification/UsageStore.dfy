/** The usage tables as a value, and what each transaction makes of them: insertion with rollup
    increments, range rebuilds and backfill batches
    (internal/repository/db.go, usage_rollups_hourly.go, usage_rollup_backfill_runner.go). */
module UsageStore {
  import opened Accounting
  import opened Aggregation
  import opened EventInsertion
  import opened Rollups
  import opened UsageEvents

  datatype BackfillPhase = Pending | Running | Completed | Failed

  datatype BackfillStatus = BackfillStatus(phase: BackfillPhase, target: Option<int>, covered: Option<int>)

  datatype Store = Store(
    events: seq<UsageEvent>,
    rollups: map<RollupKey, HourlyRollup>,
    backfill: BackfillStatus)

  /** The state column insertion derives from the facts. */
  function Stamped(e: UsageEvent): UsageEvent { e.(state := if FactsAbsent(e.facts) then Absent else Valid) }

  function StampedAll(es: seq<UsageEvent>): seq<UsageEvent> { seq(|es|, i requires 0 <= i < |es| => Stamped(es[i])) }

  /** The committed insert transaction: new events are stored, and those found again by key are added to the rollups. */
  function Insert(s: Store, input: seq<UsageEvent>): Store {
    var table := InsertIgnore(s.events, StampedAll(input));
    InsertIgnoreGrows(s.events, StampedAll(input));
    var added := table[|s.events|..];
    s.(events := table, rollups := Merge(s.rollups, Group(Select(added, Indexable))))
  }

  predicate AllAdmissible(input: seq<UsageEvent>) { forall r :: r in input ==> Admissible(r.facts) }

  /** The insert call: it fails as a whole on inadmissible facts or a rolled-back transaction. */
  function InsertCall(s: Store, input: seq<UsageEvent>, commits: bool): Store {
    if commits && AllAdmissible(input) then Insert(s, input) else s
  }

  predicate HourIn(t: int, first: int, last: int) { first <= HourOf(t) <= last }

  function EventIn(first: int, last: int): UsageEvent -> bool { (e: UsageEvent) => HourIn(e.timestamp, first, last) }

  function TimestampIn(start: int, endExclusive: int): UsageEvent -> bool {
    (e: UsageEvent) => start <= e.timestamp < endExclusive
  }

  /** Delete the rows of the hours `first..last` and group them again from the raw events. */
  function RebuildRange(s: Store, first: int, last: int): Store {
    if last < first then s
    else s.(rollups :=
      (map k | k in s.rollups && !(first <= k.bucketStart <= last) :: s.rollups[k])
      + Group(Select(s.events, TimestampIn(first, last + HOUR))))
  }

  /** Whether the backfill has covered its target. */
  predicate TargetCovered(b: BackfillStatus) {
    b.target.Some? && b.covered.Some? && HourOf(b.target.value) <= HourOf(b.covered.value)
  }

  /** `analyticsRollupReadAllowed`. */
  predicate RollupReadAllowed(b: BackfillStatus) { b.phase.Completed? && TargetCovered(b) }

  function BackfillTarget(b: BackfillStatus, now: int): int {
    if b.target.Some? then HourOf(b.target.value) else HourOf(now) - HOUR
  }

  function EarliestHour(es: seq<UsageEvent>): Option<int> {
    if es == [] then None
    else
      var rest := EarliestHour(es[1..]);
      var h := HourOf(es[0].timestamp);
      if rest.Some? && rest.value < h then rest else Some(h)
  }

  /** The first and last hour a batch rebuilds; `None` when nothing is left to rebuild. */
  function NextBatch(s: Store, now: int, batchHours: int): Option<(int, int)> {
    var target, earliest := BackfillTarget(s.backfill, now), EarliestHour(s.events);
    if earliest.None? || target < earliest.value then None
    else
      var next := if s.backfill.covered.Some? then HourOf(s.backfill.covered.value) + HOUR else earliest.value;
      var end := next + (batchHours - 1) * HOUR;
      if target < next then None else Some((next, if target < end then target else end))
  }

  /** How a batch can go wrong: the first status write fails, or the rebuild transaction rolls back and
      the failure is then recorded or lost. */
  datatype BatchFault = NoFault | StatusWriteFails | TransactionFails(recorded: bool)

  const DEFAULT_BATCH_HOURS := 24

  function EffectiveHours(batchHours: int): int { if batchHours <= 0 then DEFAULT_BATCH_HOURS else batchHours }

  /** One call of the batch: the store it leaves behind. */
  function BackfillBatch(s: Store, now: int, batchHours: int, fault: BatchFault): Store {
    if RollupReadAllowed(s.backfill) || fault.StatusWriteFails? then s
    else
      var target := BackfillTarget(s.backfill, now);
      match NextBatch(s, now, EffectiveHours(batchHours))
      case None => s.(backfill := BackfillStatus(Completed, Some(target), Some(target)))
      case Some((next, end)) =>
        match fault
        case TransactionFails(recorded) =>
          s.(backfill := BackfillStatus(if recorded then Failed else Running, Some(target), s.backfill.covered))
        case _ =>
          var status := BackfillStatus(if target <= end then Completed else Running, Some(target), Some(end));
          RebuildRange(s, next, end).(backfill := status)
  }
}

/** Runs of the usage store: any interleaving of inserts, range rebuilds and backfill batches, with
    rolled-back inserts and failed batches (usage_rollup_backfill_runner.go, rollup_backfill_service.go). */
module BackfillRuns {
  import opened Accounting
  import opened Aggregation
  import opened EventInsertion
  import opened RollupIndex
  import opened UsageEvents
  import opened UsageStore

  datatype Step =
    | InsertStep(input: seq<UsageEvent>, commits: bool)
    | RebuildStep(first: int, last: int)
    | BatchStep(now: int, batchHours: int, fault: BatchFault)
    | PlanStep(now: int, batchHours: int) | SaveStep | CommitStep(commits: bool, recorded: bool) | AbandonStep

  /** What a batch under way has decided: its target and its hours, `None` when there is nothing to rebuild;
      `saved` once its first status write is done. */
  datatype BatchPlan = BatchPlan(target: int, hours: Option<(int, int)>, saved: bool)

  datatype Tracked = Tracked(store: Store, pending: set<UsageEvent>, plan: Option<BatchPlan>)

  predicate AllIndexable(input: seq<UsageEvent>) { forall r :: r in input ==> Indexable(r) }

  ghost function Rebuilt(t: Tracked, first: int, last: int): Tracked {
    if last < first then t
    else t.(store := RebuildRange(t.store, first, last), pending := PendingAfterRebuild(t.pending, first, last))
  }

  /** A batch as one step. */
  ghost function Batched(t: Tracked, now: int, hours: int, fault: BatchFault): Tracked {
    var after := BackfillBatch(t.store, now, hours, fault);
    match NextBatch(t.store, now, EffectiveHours(hours))
    case Some((next, end)) =>
      if fault.NoFault? && !RollupReadAllowed(t.store.backfill) then
        t.(store := after, pending := PendingAfterRebuild(t.pending, next, end))
      else t.(store := after)
    case None => t.(store := after)
  }

  /** The reads of a batch, on which it decides. */
  ghost function PlannedBatch(t: Tracked, now: int, hours: int): Tracked {
    if RollupReadAllowed(t.store.backfill) then t
    else
      var target := BackfillTarget(t.store.backfill, now);
      t.(plan := Some(BatchPlan(target, NextBatch(t.store, now, EffectiveHours(hours)), false)))
  }

  ghost function WithStatus(t: Tracked, status: BackfillStatus): Tracked { t.(store := t.store.(backfill := status)) }

  /** The first status write. */
  ghost function SavedPlan(t: Tracked, p: BatchPlan): Tracked {
    if p.hours.None? || p.saved then t
    else
      var running := BackfillStatus(Running, Some(p.target), t.store.backfill.covered);
      WithStatus(t, running).(plan := Some(p.(saved := true)))
  }

  /** The completion of a batch with nothing to rebuild, or the rebuild transaction, which reads the events anew. */
  ghost function CommittedPlan(t: Tracked, p: BatchPlan, commits: bool, recorded: bool): Tracked {
    match p.hours
    case None =>
      if commits then WithStatus(t, BackfillStatus(Completed, Some(p.target), Some(p.target))).(plan := None)
      else t.(plan := None)
    case Some((next, end)) =>
      if !p.saved then t
      else if commits then
        var status := BackfillStatus(if p.target <= end then Completed else Running, Some(p.target), Some(end));
        WithStatus(Rebuilt(t, next, end), status).(plan := None)
      else if recorded then
        WithStatus(t, BackfillStatus(Failed, Some(p.target), t.store.backfill.covered)).(plan := None)
      else t.(plan := None)
  }

  /** One runner makes one batch at a time; the other steps may fall between its sections. */
  ghost function Next(t: Tracked, step: Step): Tracked {
    match step
    case InsertStep(input, commits) =>
      if !commits || !AllAdmissible(input) then t
      else t.(store := Insert(t.store, input), pending := PendingAfterInsert(t.store, input, t.pending))
    case RebuildStep(first, last) => Rebuilt(t, HourOf(first), HourOf(last))
    case BatchStep(now, hours, fault) => if t.plan.Some? then t else Batched(t, now, hours, fault)
    case PlanStep(now, hours) => if t.plan.Some? then t else PlannedBatch(t, now, hours)
    case SaveStep => if t.plan.None? then t else SavedPlan(t, t.plan.value)
    case CommitStep(commits, recorded) =>
      if t.plan.None? then t else CommittedPlan(t, t.plan.value, commits, recorded)
    case AbandonStep => t.(plan := None)
  }

  ghost function Run(t: Tracked, steps: seq<Step>): Tracked {
    if steps == [] then t else Next(Run(t, steps[..|steps| - 1]), steps[|steps| - 1])
  }

  /** Coverage is aligned, stays at or below the target, completion means it reached it, and every event
      missing from the rollups lies past it. */
  ghost predicate Progress(b: BackfillStatus, pending: set<UsageEvent>) {
    && (b.target.Some? ==> Aligned(b.target.value))
    && (b.covered.Some? ==> b.target.Some? && Aligned(b.covered.value) && b.covered.value <= b.target.value)
    && (b.phase.Completed? ==> b.covered.Some? && b.covered == b.target)
    && (b.covered.Some? ==> forall e :: e in pending ==> b.covered.value < HourOf(e.timestamp))
  }

  /** The plan of a batch under way still fits: it misses no pending event and does not go back. */
  ghost predicate Fits(p: BatchPlan, b: BackfillStatus, pending: set<UsageEvent>) {
    && Aligned(p.target) && (b.target.Some? ==> b.target.value == p.target)
    && (b.covered.Some? ==> b.covered.value <= p.target)
    && match p.hours
       case None => forall e :: e in pending ==> p.target < HourOf(e.timestamp)
       case Some((next, end)) =>
         && Aligned(next) && Aligned(end) && next <= end <= p.target
         && (forall e :: e in pending ==> next <= HourOf(e.timestamp))
         && (b.covered.Some? ==> b.covered.value < next)
  }

  ghost predicate Inv(t: Tracked) {
    && Consistent(t.store, t.pending) && Progress(t.store.backfill, t.pending)
    && (t.plan.Some? ==> Fits(t.plan.value, t.store.backfill, t.pending))
  }

  /** Where a run starts: an empty rollup table over events stored before rollups existed. */
  ghost predicate Initial(t: Tracked) {
    && WellNumbered(t.store.events)
    && (forall e :: e in t.store.events ==> Admitted(e))
    && t.pending == (set e | e in t.store.events)
    && t.store.rollups == map[]
    && t.store.backfill == BackfillStatus(Pending, None, None) && t.plan.None?
  }

  /** Callers offer trimmed, non-blank event keys, as the inbox does. */
  predicate Polite(step: Step) { step.InsertStep? ==> AllIndexable(step.input) }

  lemma InitialInv(t: Tracked)
    requires Initial(t)
    ensures Inv(t)
  {
    SelectNone(t.store.events, Outside(t.pending));
  }

  lemma {:induction false} EarliestIsMinimum(es: seq<UsageEvent>)
    ensures EarliestHour(es).None? <==> es == []
    ensures EarliestHour(es).Some? ==>
      && Aligned(EarliestHour(es).value) && (forall e :: e in es ==> EarliestHour(es).value <= HourOf(e.timestamp))
      && exists e :: e in es && HourOf(e.timestamp) == EarliestHour(es).value
  {
    if es != [] {
      EarliestIsMinimum(es[1..]);
      assert es == [es[0]] + es[1..];
      assert es[0] in es && forall e :: e in es[1..] ==> e in es;
    }
  }

  lemma PendingAfterCovered(t: Tracked, e: UsageEvent)
    requires Inv(t) && t.store.backfill.covered.Some? && e in t.pending
    ensures t.store.backfill.covered.value + HOUR <= HourOf(e.timestamp)
  {
    AlignedPlus(t.store.backfill.covered.value, 1);
    HourUnique(e.timestamp, t.store.backfill.covered.value);
    HourUnique(e.timestamp, t.store.backfill.covered.value + HOUR);
  }

  /** Where the next batch would start. */
  ghost function NextHour(s: Store): int
    requires s.events != []
  {
    EarliestIsMinimum(s.events);
    if s.backfill.covered.Some? then HourOf(s.backfill.covered.value) + HOUR else EarliestHour(s.events).value
  }

  lemma NoPendingBeforeNextHour(t: Tracked, e: UsageEvent)
    requires Inv(t) && e in t.pending
    ensures t.store.events != [] && NextHour(t.store) <= HourOf(e.timestamp)
  {
    EarliestIsMinimum(t.store.events);
    if t.store.backfill.covered.Some? {
      PendingAfterCovered(t, e);
      AlignedPlus(t.store.backfill.covered.value, 0);
    }
  }

  lemma NextHourAligned(t: Tracked)
    requires Inv(t) && t.store.events != []
    ensures Aligned(NextHour(t.store))
    ensures t.store.backfill.covered.Some? ==> t.store.backfill.covered.value < NextHour(t.store)
  {
    EarliestIsMinimum(t.store.events);
    if t.store.backfill.covered.Some? {
      AlignedPlus(t.store.backfill.covered.value, 1);
    }
  }

  lemma BatchWindow(s: Store, now: int, hours: int)
    requires 0 < hours && s.events != [] && Aligned(NextHour(s))
    ensures var target := BackfillTarget(s.backfill, now);
      match NextBatch(s, now, hours)
      case None => target < NextHour(s) || target < EarliestHour(s.events).value
      case Some((next, end)) => next == NextHour(s) && Aligned(end) && next <= end <= target
  {
    EarliestIsMinimum(s.events);
    AlignedPlus(NextHour(s), hours - 1);
    TargetAligned(s.backfill, now);
  }

  lemma TargetAligned(b: BackfillStatus, now: int)
    ensures Aligned(BackfillTarget(b, now))
  {
    AlignedPlus(HourOf(now), -1);
  }

  /** The target a first batch chooses is the last hour that is over; later batches keep the chosen one. */
  lemma TargetIsLastFullHour(b: BackfillStatus, now: int)
    ensures var target := BackfillTarget(b, now);
      if b.target.Some? then Aligned(b.target.value) ==> target == b.target.value
      else target + HOUR <= now < target + HOUR + HOUR
  {
    if b.target.Some? && Aligned(b.target.value) { AlignedPlus(b.target.value, 0); }
  }

  /** The next batch starts right after what is covered, or at the earliest event, and misses no pending event. */
  lemma NextBatchStartsAtPending(t: Tracked, now: int, hours: int)
    requires Inv(t) && 0 < hours
    ensures var target := BackfillTarget(t.store.backfill, now);
      match NextBatch(t.store, now, hours)
      case None => forall e :: e in t.pending ==> target < HourOf(e.timestamp)
      case Some((next, end)) =>
        && Aligned(next) && Aligned(end) && next <= end <= target
        && (forall e :: e in t.pending ==> next <= HourOf(e.timestamp))
        && (t.store.backfill.covered.Some? ==> t.store.backfill.covered.value < next)
  {
    if t.store.events != [] {
      NextHourAligned(t);
      BatchWindow(t.store, now, hours);
      EarliestIsMinimum(t.store.events);
      forall e | e in t.pending ensures NextHour(t.store) <= HourOf(e.timestamp) {
        NoPendingBeforeNextHour(t, e);
      }
    }
  }

  /** Which hours a batch takes: as many as it is sized, from the hour after what is covered or else from the hour of
      the
      earliest event, but not past the target. */
  lemma BatchTakesTheNextHours(s: Store, now: int, hours: int, next: int, end: int)
    requires NextBatch(s, now, hours) == Some((next, end))
    requires s.backfill.covered.Some? ==> Aligned(s.backfill.covered.value)
    ensures s.backfill.covered.Some? ==> next == s.backfill.covered.value + HOUR
    ensures s.backfill.covered.None? ==>
      (exists e :: e in s.events && HourOf(e.timestamp) == next)
      && forall e :: e in s.events ==> next <= HourOf(e.timestamp)
    ensures var target := BackfillTarget(s.backfill, now);
      end <= target && end <= next + (hours - 1) * HOUR && (end == target || end == next + (hours - 1) * HOUR)
  {
    EarliestIsMinimum(s.events);
    if s.backfill.covered.Some? { AlignedPlus(s.backfill.covered.value, 0); }
  }

  lemma BatchKeepsInv(t: Tracked, now: int, hours: int, fault: BatchFault)
    requires Inv(t) && t.plan.None?
    ensures Inv(Batched(t, now, hours, fault))
  {
    var s := t.store;
    TargetAligned(s.backfill, now);
    if !RollupReadAllowed(s.backfill) && !fault.StatusWriteFails? {
      NextBatchStartsAtPending(t, now, EffectiveHours(hours));
      match NextBatch(s, now, EffectiveHours(hours))
      case None =>
      case Some((next, end)) =>
        if fault.NoFault? {
          RebuildKeepsConsistent(s, next, end, t.pending);
        }
    }
  }

  lemma PlanKeepsInv(t: Tracked, now: int, hours: int)
    requires Inv(t)
    ensures Inv(PlannedBatch(t, now, hours))
  {
    var b := t.store.backfill;
    TargetAligned(b, now);
    NextBatchStartsAtPending(t, now, EffectiveHours(hours));
    if b.target.Some? { AlignedPlus(b.target.value, 0); }
  }

  lemma CommitKeepsInv(t: Tracked, p: BatchPlan, commits: bool, recorded: bool)
    requires Inv(t) && t.plan == Some(p)
    ensures Inv(CommittedPlan(t, p, commits, recorded))
  {
    match p.hours
    case None =>
    case Some((next, end)) =>
      if p.saved && commits {
        RebuildKeepsConsistent(t.store, next, end, t.pending);
      }
  }

  lemma StepKeepsInv(t: Tracked, step: Step)
    requires Inv(t) && Polite(step)
    ensures Inv(Next(t, step))
  {
    match step
    case InsertStep(input, commits) =>
      if commits && AllAdmissible(input) {
        InsertKeepsConsistent(t.store, input, t.pending);
        IndexableInsertAddsNoPending(t.store, input, t.pending);
      }
    case RebuildStep(first, last) =>
      if HourOf(first) <= HourOf(last) {
        RebuildKeepsConsistent(t.store, HourOf(first), HourOf(last), t.pending);
      }
    case BatchStep(now, hours, fault) => if t.plan.None? { BatchKeepsInv(t, now, hours, fault); }
    case PlanStep(now, hours) => if t.plan.None? { PlanKeepsInv(t, now, hours); }
    case SaveStep =>
    case CommitStep(commits, recorded) => if t.plan.Some? { CommitKeepsInv(t, t.plan.value, commits, recorded); }
    case AbandonStep =>
  }

  /** Every reachable store is an index of its non-pending events, and none of those it is missing is covered. */
  lemma {:induction false} RunKeepsInv(t: Tracked, steps: seq<Step>)
    requires Initial(t) && forall step :: step in steps ==> Polite(step)
    ensures Inv(Run(t, steps))
  {
    if steps == [] {
      InitialInv(t);
    } else {
      RunKeepsInv(t, steps[..|steps| - 1]);
      StepKeepsInv(Run(t, steps[..|steps| - 1]), steps[|steps| - 1]);
    }
  }

  // When reads are allowed

  /** Once rollup reads are allowed, only events past the target can be missing, and the rollups are
      exact if and only if there are none. */
  lemma AllowedReadsAreExactIff(t: Tracked, steps: seq<Step>)
    requires Initial(t) && forall step :: step in steps ==> Polite(step)
    requires RollupReadAllowed(Run(t, steps).store.backfill)
    ensures var r := Run(t, steps);
      && (forall e :: e in r.pending ==> r.store.backfill.target.value < HourOf(e.timestamp))
      && (Exact(r.store) <==> r.pending == {})
  {
    RunKeepsInv(t, steps);
    ExactIffNothingPending(Run(t, steps).store, Run(t, steps).pending);
  }

  /** The events stored before rollups existed that no batch has covered. */
  ghost function Uncovered(legacy: seq<UsageEvent>, b: BackfillStatus): set<UsageEvent> {
    set e | e in legacy && (b.covered.None? || b.covered.value < HourOf(e.timestamp))
  }

  /** What the rollups miss is exactly that. */
  ghost predicate LegacyTracked(legacy: seq<UsageEvent>, t: Tracked) {
    t.pending == Uncovered(legacy, t.store.backfill)
  }

  predicate Production(step: Step) { Polite(step) && !step.RebuildStep? }

  lemma BatchKeepsLegacy(legacy: seq<UsageEvent>, t: Tracked, now: int, hours: int, fault: BatchFault)
    requires Inv(t) && LegacyTracked(legacy, t)
    ensures LegacyTracked(legacy, Batched(t, now, hours, fault))
  {
    NextBatchStartsAtPending(t, now, EffectiveHours(hours));
    var b := t.store.backfill;
    if b.target.Some? { AlignedPlus(b.target.value, 0); }
    assert b.target.Some? ==> BackfillTarget(b, now) == b.target.value;
  }

  lemma CommitKeepsLegacy(legacy: seq<UsageEvent>, t: Tracked, p: BatchPlan, commits: bool, recorded: bool)
    requires Inv(t) && LegacyTracked(legacy, t) && t.plan == Some(p)
    ensures LegacyTracked(legacy, CommittedPlan(t, p, commits, recorded))
  {
  }

  lemma StepTracksLegacy(legacy: seq<UsageEvent>, t: Tracked, step: Step)
    requires Inv(t) && LegacyTracked(legacy, t) && Production(step)
    ensures LegacyTracked(legacy, Next(t, step))
  {
    match step
    case InsertStep(input, commits) =>
      if commits && AllAdmissible(input) {
        IndexableInsertAddsNoPending(t.store, input, t.pending);
      }
    case BatchStep(now, hours, fault) => BatchKeepsLegacy(legacy, t, now, hours, fault);
    case CommitStep(commits, recorded) =>
      if t.plan.Some? { CommitKeepsLegacy(legacy, t, t.plan.value, commits, recorded); }
    case _ =>
  }

  /** In production runs the rollups miss exactly the events stored before them in hours not covered yet. */
  lemma {:induction false} RunTracksLegacy(t: Tracked, steps: seq<Step>)
    requires Initial(t) && forall step :: step in steps ==> Production(step)
    ensures LegacyTracked(t.store.events, Run(t, steps))
  {
    if steps != [] {
      var before, step := steps[..|steps| - 1], steps[|steps| - 1];
      assert steps == before + [step];
      assert Production(step) && forall x :: x in before ==> x in steps && Polite(x);
      RunTracksLegacy(t, before);
      RunKeepsInv(t, before);
      StepTracksLegacy(t.store.events, Run(t, before), step);
    }
  }

  /** The production guarantee and its exact condition: once rollup reads are allowed they agree with the
      raw events in every hour if and only if no event stored before the rollups lies past the target. */
  lemma AllowedReadsExactIffLegacyWithinTarget(t: Tracked, steps: seq<Step>)
    requires Initial(t) && forall step :: step in steps ==> Production(step)
    requires RollupReadAllowed(Run(t, steps).store.backfill)
    ensures var s := Run(t, steps).store;
      Exact(s) <==> forall e :: e in t.store.events ==> HourOf(e.timestamp) <= s.backfill.target.value
  {
    RunTracksLegacy(t, steps);
    RunKeepsInv(t, steps);
    AllowedReadsAreExactIff(t, steps);
    var r := Run(t, steps);
    assert r.store.backfill.covered == r.store.backfill.target;
    if e :| e in t.store.events && r.store.backfill.target.value < HourOf(e.timestamp) {
      assert e in r.pending;
    }
  }

  // Coverage

  lemma AlignedStatus(t: Tracked)
    requires Inv(t)
    ensures t.store.backfill.target.Some? ==> HourOf(t.store.backfill.target.value) == t.store.backfill.target.value
    ensures t.store.backfill.covered.Some? ==> HourOf(t.store.backfill.covered.value) == t.store.backfill.covered.value
  {
    if t.store.backfill.target.Some? { AlignedPlus(t.store.backfill.target.value, 0); }
    if t.store.backfill.covered.Some? { AlignedPlus(t.store.backfill.covered.value, 0); }
  }

  /** Coverage and a chosen target never move back. */
  lemma CoverageNeverMovesBack(t: Tracked, step: Step)
    requires Inv(t)
    ensures var b, after := t.store.backfill, Next(t, step).store.backfill;
      && (b.covered.Some? ==> after.covered.Some? && b.covered.value <= after.covered.value)
      && (b.target.Some? ==> after.target == b.target)
  {
    AlignedStatus(t);
    if step.BatchStep? {
      NextBatchStartsAtPending(t, step.now, EffectiveHours(step.batchHours));
    }
  }

  /** A failed batch keeps both rollups and coverage, and the next one covers the same hours: at the same
      clock reading always, at any later one once the target is stored. */
  lemma FailedBatchIsRepeated(t: Tracked, now: int, later: int, hours: int, fault: BatchFault)
    requires Inv(t) && !fault.NoFault? && NextBatch(t.store, now, EffectiveHours(hours)).Some?
    requires later == now || t.store.backfill.target.Some?
      || BackfillBatch(t.store, now, hours, fault).backfill.target.Some?
    ensures var after := BackfillBatch(t.store, now, hours, fault);
      && after.rollups == t.store.rollups && after.events == t.store.events
         && after.backfill.covered == t.store.backfill.covered
      && NextBatch(after, later, EffectiveHours(hours)) == NextBatch(t.store, now, EffectiveHours(hours))
  {
    AlignedStatus(t);
    TargetAligned(t.store.backfill, now);
    AlignedPlus(BackfillTarget(t.store.backfill, now), 0);
  }

  /** A transaction that fails after the first status write has stored the target. */
  lemma FailedTransactionStoresTarget(t: Tracked, now: int, hours: int, recorded: bool)
    requires !RollupReadAllowed(t.store.backfill)
    ensures BackfillBatch(t.store, now, hours, TransactionFails(recorded)).backfill.target
      == Some(BackfillTarget(t.store.backfill, now))
  {
  }

  // Sections of a batch

  /** The sections of a batch that is alone, with the given fault. */
  ghost function BatchSections(s: Store, now: int, hours: int, fault: BatchFault): seq<Step> {
    match fault
    case NoFault => [PlanStep(now, hours), SaveStep, CommitStep(true, false)]
    case StatusWriteFails => [PlanStep(now, hours), AbandonStep]
    case TransactionFails(recorded) =>
      [PlanStep(now, hours), SaveStep, CommitStep(NextBatch(s, now, EffectiveHours(hours)).None?, recorded)]
  }

  lemma {:induction false} TwoSteps(t: Tracked, a: Step, b: Step)
    ensures Run(t, [a, b]) == Next(Next(t, a), b)
  {
    assert [a, b][..1] == [a] && [a][..0] == [];
    assert Run(t, []) == t;
    assert Run(t, [a]) == Next(Run(t, [a][..0]), a);
  }

  lemma {:induction false} ThreeSteps(t: Tracked, a: Step, b: Step, c: Step)
    ensures Run(t, [a, b, c]) == Next(Next(Next(t, a), b), c)
  {
    assert [a, b, c][..2] == [a, b];
    TwoSteps(t, a, b);
  }

  lemma UnsavedBatch(t: Tracked, now: int, hours: int)
    requires t.plan.None?
    ensures Next(PlannedBatch(t, now, hours), AbandonStep) == Batched(t, now, hours, StatusWriteFails)
  {
  }

  lemma SavedBatch(t: Tracked, now: int, hours: int, fault: BatchFault, commits: bool, recorded: bool)
    requires Inv(t) && t.plan.None? && !fault.StatusWriteFails?
    requires commits == (fault.NoFault? || NextBatch(t.store, now, EffectiveHours(hours)).None?)
    requires fault.TransactionFails? ==> recorded == fault.recorded
    ensures Next(Next(PlannedBatch(t, now, hours), SaveStep), CommitStep(commits, recorded))
      == Batched(t, now, hours, fault)
  {
    NextBatchStartsAtPending(t, now, EffectiveHours(hours));
  }

  /** Without anything in between the sections are the batch as one step. */
  lemma {:induction false} BatchIsItsSections(t: Tracked, now: int, hours: int, fault: BatchFault)
    requires Inv(t) && t.plan.None?
    ensures Run(t, BatchSections(t.store, now, hours, fault)) == Next(t, BatchStep(now, hours, fault))
  {
    match fault
    case NoFault =>
      ThreeSteps(t, PlanStep(now, hours), SaveStep, CommitStep(true, false));
      SavedBatch(t, now, hours, fault, true, false);
    case StatusWriteFails =>
      TwoSteps(t, PlanStep(now, hours), AbandonStep);
      UnsavedBatch(t, now, hours);
    case TransactionFails(recorded) =>
      var commits := NextBatch(t.store, now, EffectiveHours(hours)).None?;
      ThreeSteps(t, PlanStep(now, hours), SaveStep, CommitStep(commits, recorded));
      SavedBatch(t, now, hours, fault, commits, recorded);
  }

  // The hour of the upgrade

  /** The condition on legacy events fails in production: an event stored in the hour in which the first
      batch runs stays outside, although that one batch allows rollup reads. */
  lemma UpgradeHourIsMissed(now: int, e: UsageEvent) returns (t: Tracked, steps: seq<Step>)
    requires Admitted(e) && e.id == 1 && HourOf(e.timestamp) == HourOf(now)
    ensures Initial(t) && t.store.events == [e] && steps == [BatchStep(now, 24, NoFault)] && Production(steps[0])
    ensures RollupReadAllowed(Run(t, steps).store.backfill) && !Exact(Run(t, steps).store)
  {
    t := Tracked(Store([e], map[], BackfillStatus(Pending, None, None)), {e}, None);
    steps := [BatchStep(now, 24, NoFault)];
    assert steps[..0] == [] && Run(t, []) == t;
    var r := Run(t, steps);
    assert r == Next(t, steps[0]);
    FirstBatchFindsNothing(t.store, now, e);
    AlignedPlus(HourOf(now), -1);
    forall step | step in steps ensures Polite(step) {
    }
    RunKeepsInv(t, steps);
    assert e in r.pending;
    ExactIffNothingPending(r.store, r.pending);
  }

  lemma FirstBatchFindsNothing(s: Store, now: int, e: UsageEvent)
    requires s == Store([e], map[], BackfillStatus(Pending, None, None)) && HourOf(e.timestamp) == HourOf(now)
    ensures NextBatch(s, now, EffectiveHours(24)).None?
  {
    assert [e][1..] == [];
    assert EarliestHour([e]) == Some(HourOf(e.timestamp));
  }
}

/** How many batches a backfill takes (internal/service/rollup_backfill_service.go). */
module BackfillProgress {
  import opened Accounting
  import opened BackfillRuns
  import opened EventInsertion
  import opened UsageEvents
  import opened UsageStore

  function CeilDiv(n: int, d: int): int
    requires 0 < d
  {
    (n + d - 1) / d
  }

  lemma CeilDivMeaning(n: int, d: int, j: int)
    requires 0 < d
    ensures j < CeilDiv(n, d) <==> j * d < n
  {
    var q, r := (n + d - 1) / d, (n + d - 1) % d;
    assert n + d - 1 == q * d + r && 0 <= r < d;
    if j < q {
      Monotone(j + 1, q, d);
      assert (j + 1) * d == j * d + d;
    } else {
      Monotone(q, j, d);
    }
  }

  lemma Monotone(a: int, b: int, d: int)
    requires a <= b && 0 < d
    ensures a * d <= b * d
  {
  }

  /** Any interleaving of inserts and rebuilds with the sections of unfailing batches of one size; a batch may be
      abandoned before it commits. */
  predicate FaultFree(step: Step, hours: int) {
    match step
    case BatchStep(_, batchHours, fault) => fault.NoFault? && EffectiveHours(batchHours) == hours
    case PlanStep(_, batchHours) => EffectiveHours(batchHours) == hours
    case CommitStep(commits, _) => commits
    case _ => true
  }

  /** The step is a batch, or commits one. */
  predicate EndsBatch(t: Tracked, step: Step) {
    match step
    case BatchStep(_, _, _) => t.plan.None?
    case CommitStep(_, _) => t.plan.Some? && (t.plan.value.hours.None? || t.plan.value.saved)
    case _ => false
  }

  ghost function Batches(t: Tracked, steps: seq<Step>): nat {
    if steps == [] then 0
    else
      var front, last := steps[..|steps| - 1], steps[|steps| - 1];
      Batches(t, front) + if EndsBatch(Run(t, front), last) then 1 else 0
  }

  /** The hours from the first rebuilt hour to the target, both included. */
  function HoursToTarget(first: int, target: int): int { (target - first) / HOUR + 1 }

  ghost predicate HasEventBy(es: seq<UsageEvent>, target: int) { exists e :: e in es && HourOf(e.timestamp) <= target }

  /** The status once every hour before `next` is covered. */
  predicate CoveredUpTo(b: BackfillStatus, next: int, target: int) {
    && b.target == Some(target)
    && if next <= target
       then b.phase.Running? && b.covered == Some(next - HOUR)
       else b.phase.Completed? && b.covered == Some(target)
  }

  ghost predicate Underway(s: Store, next: int, target: int) {
    CoveredUpTo(s.backfill, next, target) && HasEventBy(s.events, target)
  }

  function Lesser(a: int, b: int): int { if a < b then a else b }

  /** A batch under way is about to rebuild the next hours. */
  predicate PlansNext(t: Tracked, next: int, target: int, hours: int) {
    t.plan.Some? ==>
      && next <= target && t.plan.value.target == target
      && t.plan.value.hours == Some((next, Lesser(target, next + (hours - 1) * HOUR)))
  }

  ghost predicate OnCourse(t: Tracked, next: int, target: int, hours: int) {
    Underway(t.store, next, target) && PlansNext(t, next, target, hours)
  }

  lemma NextBatchIs(s: Store, next: int, target: int, now: int, hours: int)
    requires Aligned(next) && Aligned(target) && Underway(s, next, target) && next <= target
    ensures NextBatch(s, now, hours) == Some((next, Lesser(target, next + (hours - 1) * HOUR)))
  {
    AlignedPlus(target, 0);
    AlignedPlus(next, -1);
    EarliestIsMinimum(s.events);
    var e :| e in s.events && HourOf(e.timestamp) <= target;
    assert EarliestHour(s.events).value <= HourOf(e.timestamp);
  }

  /** What a clean batch leaves in the status row. */
  lemma BatchStatus(s: Store, now: int, batchHours: int)
    ensures BackfillBatch(s, now, batchHours, NoFault).events == s.events
    ensures var target := BackfillTarget(s.backfill, now);
      BackfillBatch(s, now, batchHours, NoFault).backfill ==
        if RollupReadAllowed(s.backfill) then s.backfill
        else match NextBatch(s, now, EffectiveHours(batchHours))
          case None => BackfillStatus(Completed, Some(target), Some(target))
          case Some((_, end)) => BackfillStatus(if target <= end then Completed else Running, Some(target), Some(end))
  {
  }

  lemma WholeHours(next: int, target: int, hours: int)
    requires Aligned(next) && Aligned(target) && next <= target
    ensures next + hours * HOUR <= target <==> next + (hours - 1) * HOUR < target
  {
    AlignedPlus(next, hours);
    AlignedPlus(next, hours - 1);
  }

  lemma BatchAdvances(s: Store, next: int, target: int, now: int, batchHours: int)
    requires Aligned(next) && Aligned(target)
    requires Underway(s, next, target)
    ensures Underway(BackfillBatch(s, now, batchHours, NoFault), next + EffectiveHours(batchHours) * HOUR, target)
  {
    AlignedPlus(target, 0);
    BatchStatus(s, now, batchHours);
    if next <= target {
      NextBatchIs(s, next, target, now, EffectiveHours(batchHours));
      WholeHours(next, target, EffectiveHours(batchHours));
    }
  }

  lemma InsertKeepsCoverage(s: Store, next: int, target: int, input: seq<UsageEvent>)
    requires Underway(s, next, target)
    ensures Underway(Insert(s, input), next, target)
  {
    InsertIgnoreGrows(s.events, StampedAll(input));
    var e :| e in s.events && HourOf(e.timestamp) <= target;
    assert e in Insert(s, input).events;
  }

  lemma PlanIsNext(t: Tracked, next: int, target: int, hours: int, now: int, batchHours: int)
    requires Aligned(next) && Aligned(target) && EffectiveHours(batchHours) == hours
    requires Underway(t.store, next, target) && t.plan.None?
    ensures OnCourse(PlannedBatch(t, now, batchHours), next, target, hours)
  {
    AlignedPlus(target, 0);
    if next <= target {
      NextBatchIs(t.store, next, target, now, hours);
    }
  }

  lemma CommitAdvances(t: Tracked, next: int, target: int, hours: int, p: BatchPlan, recorded: bool)
    requires Aligned(next) && Aligned(target) && 0 < hours
    requires OnCourse(t, next, target, hours) && t.plan == Some(p) && p.saved
    ensures OnCourse(CommittedPlan(t, p, true, recorded), next + hours * HOUR, target, hours)
  {
    WholeHours(next, target, hours);
  }

  lemma StepAdvances(t: Tracked, next: int, target: int, hours: int, step: Step)
    requires Aligned(next) && Aligned(target) && 0 < hours && FaultFree(step, hours)
    requires OnCourse(t, next, target, hours)
    ensures OnCourse(Next(t, step), if EndsBatch(t, step) then next + hours * HOUR else next, target, hours)
  {
    match step
    case BatchStep(now, batchHours, fault) =>
      if t.plan.None? {
        BatchAdvances(t.store, next, target, now, batchHours);
        assert Next(t, step).store == BackfillBatch(t.store, now, batchHours, NoFault);
      }
    case InsertStep(input, commits) => InsertKeepsCoverage(t.store, next, target, input);
    case PlanStep(now, batchHours) => if t.plan.None? { PlanIsNext(t, next, target, hours, now, batchHours); }
    case CommitStep(commits, recorded) =>
      if t.plan.Some? && t.plan.value.saved { CommitAdvances(t, next, target, hours, t.plan.value, recorded); }
    case _ =>
  }

  lemma FirstBatchAdvances(s: Store, first: int, end: int, now: int, batchHours: int)
    requires s.backfill == BackfillStatus(Pending, None, None)
    requires NextBatch(s, now, EffectiveHours(batchHours)) == Some((first, end))
    ensures Aligned(first) && Aligned(BackfillTarget(s.backfill, now))
    ensures Underway(BackfillBatch(s, now, batchHours, NoFault), first + EffectiveHours(batchHours) * HOUR,
                     BackfillTarget(s.backfill, now))
  {
    TargetAligned(s.backfill, now);
    EarliestIsMinimum(s.events);
    EarliestIsAttained(s.events);
    BatchStatus(s, now, batchHours);
    WholeHours(first, BackfillTarget(s.backfill, now), EffectiveHours(batchHours));
  }

  lemma {:induction false} EarliestIsAttained(es: seq<UsageEvent>)
    requires es != []
    ensures EarliestHour(es).Some? && exists e :: e in es && HourOf(e.timestamp) == EarliestHour(es).value
  {
    if |es| > 1 {
      EarliestIsAttained(es[1..]);
      var e :| e in es[1..] && HourOf(e.timestamp) == EarliestHour(es[1..]).value;
      assert e in es && es[0] in es;
    } else {
      assert es[0] in es;
    }
  }

  /** The first hour that `batches` batches leave uncovered. */
  function NextAfter(first: int, hours: int, batches: int): int { first + batches * hours * HOUR }

  lemma NextAfterStep(first: int, hours: int, batches: int)
    ensures NextAfter(first, hours, batches + 1) == NextAfter(first, hours, batches) + hours * HOUR
    ensures NextAfter(first, hours, 1) == first + hours * HOUR
    ensures Aligned(first) ==> Aligned(NextAfter(first, hours, batches))
  {
    assert (batches + 1) * hours == batches * hours + hours;
    if Aligned(first) {
      AlignedPlus(first, batches * hours);
    }
  }

  lemma BeforeTarget(first: int, target: int, hours: int, batches: int)
    requires Aligned(first) && Aligned(target) && 0 < hours
    ensures NextAfter(first, hours, batches) <= target <==> batches < CeilDiv(HoursToTarget(first, target), hours)
  {
    CeilDivMeaning(HoursToTarget(first, target), hours, batches);
    HoursToTargetExact(first, target, batches * hours);
  }

  lemma HoursToTargetExact(first: int, target: int, n: int)
    requires Aligned(first) && Aligned(target)
    ensures n < HoursToTarget(first, target) <==> first + n * HOUR <= target
  {
  }

  lemma {:induction false} OneMoreStep(t: Tracked, before: seq<Step>, step: Step)
    ensures Run(t, before + [step]) == Next(Run(t, before), step)
    ensures Batches(t, before + [step]) == Batches(t, before) + if EndsBatch(Run(t, before), step) then 1 else 0
  {
    assert (before + [step])[..|before|] == before;
  }

  /** What every step carries on while it counts batches holds after a run. */
  lemma {:induction false} CountedAlong(t: Tracked, steps: seq<Step>, good: (Tracked, int) -> bool)
    requires good(t, 1)
    requires forall s, n, step :: step in steps && good(s, n) ==>
      good(Next(s, step), if EndsBatch(s, step) then n + 1 else n)
    ensures good(Run(t, steps), 1 + Batches(t, steps))
  {
    if steps != [] {
      var before, step := steps[..|steps| - 1], steps[|steps| - 1];
      assert steps == before + [step];
      CountedAlong(t, before, good);
      OneMoreStep(t, before, step);
    }
  }

  ghost function Covering(first: int, target: int, hours: int): (Tracked, int) -> bool {
    (t: Tracked, batches: int) => OnCourse(t, NextAfter(first, hours, batches), target, hours)
  }

  lemma {:induction false} CoversFrom(started: Tracked, first: int, target: int, hours: int, steps: seq<Step>)
    requires Aligned(first) && Aligned(target) && 0 < hours && forall step :: step in steps ==> FaultFree(step, hours)
    requires OnCourse(started, NextAfter(first, hours, 1), target, hours)
    ensures Underway(Run(started, steps).store, NextAfter(first, hours, 1 + Batches(started, steps)), target)
  {
    var good := Covering(first, target, hours);
    forall s, n, step | step in steps && good(s, n)
      ensures good(Next(s, step), if EndsBatch(s, step) then n + 1 else n)
    {
      CoversOneMore(s, first, target, hours, n, step);
    }
    CountedAlong(started, steps, good);
  }

  lemma CoversOneMore(t: Tracked, first: int, target: int, hours: int, batches: int, step: Step)
    requires Aligned(first) && Aligned(target) && 0 < hours && FaultFree(step, hours)
    requires OnCourse(t, NextAfter(first, hours, batches), target, hours)
    ensures OnCourse(Next(t, step), NextAfter(first, hours, if EndsBatch(t, step) then batches + 1 else batches),
                     target,
                     hours)
  {
    NextAfterStep(first, hours, batches);
    StepAdvances(t, NextAfter(first, hours, batches), target, hours, step);
  }

  /** After the first batch. */
  ghost function Started(t: Tracked, now: int, batchHours: int): Tracked {
    Next(t, BatchStep(now, batchHours, NoFault))
  }

  /** From its first batch on, an unfailing backfill has covered exactly the hours of the batches it ran,
      whatever is inserted or rebuilt in between. */
  lemma BackfillCovers(t: Tracked, now: int, batchHours: int, first: int, end: int, steps: seq<Step>)
    requires t.store.backfill == BackfillStatus(Pending, None, None) && t.plan.None?
    requires NextBatch(t.store, now, EffectiveHours(batchHours)) == Some((first, end))
    requires forall step :: step in steps ==> FaultFree(step, EffectiveHours(batchHours))
    ensures Aligned(first) && Aligned(BackfillTarget(t.store.backfill, now))
    ensures var started := Started(t, now, batchHours);
      Underway(Run(started, steps).store, NextAfter(first, EffectiveHours(batchHours), 1 + Batches(started, steps)),
               BackfillTarget(t.store.backfill, now))
  {
    FirstBatchAdvances(t.store, first, end, now, batchHours);
    NextAfterStep(first, EffectiveHours(batchHours), 0);
    CoversFrom(Started(t, now, batchHours), first, BackfillTarget(t.store.backfill, now), EffectiveHours(batchHours),
               steps);
  }

  /** It has completed exactly when it has run ceil(hours to the target / batch size) batches. */
  lemma BackfillTakesCeilBatches(t: Tracked, now: int, batchHours: int, first: int, end: int, steps: seq<Step>)
    requires t.store.backfill == BackfillStatus(Pending, None, None) && t.plan.None?
    requires NextBatch(t.store, now, EffectiveHours(batchHours)) == Some((first, end))
    requires forall step :: step in steps ==> FaultFree(step, EffectiveHours(batchHours))
    ensures var started := Started(t, now, batchHours);
      RollupReadAllowed(Run(started, steps).store.backfill) <==>
      CeilDiv(HoursToTarget(first, BackfillTarget(t.store.backfill, now)), EffectiveHours(batchHours))
        <= 1 + Batches(started, steps)
  {
    BackfillCovers(t, now, batchHours, first, end, steps);
    BeforeTarget(first, BackfillTarget(t.store.backfill, now), EffectiveHours(batchHours),
                 1 + Batches(Started(t, now, batchHours), steps));
  }
}

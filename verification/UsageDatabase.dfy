/** The usage database as its callers see it: tables updated in place by transactions
    (internal/repository/db.go, usage_rollups_hourly.go, usage_rollup_backfill_runner.go,
    internal/service/rollup_backfill_service.go). */
module UsageDatabase {
  import opened Accounting
  import opened Aggregation
  import opened BackfillProgress
  import BackfillRuns
  import opened EventInsertion
  import opened Rollups
  import opened Trimming
  import opened UsageEvents
  import opened UsageStore

  datatype InsertResult = Inserted(inserted: int, deduped: int) | Rejected(error: ValidationError) | RolledBack

  datatype BatchResult = BatchDone(done: bool, window: Option<(int, int)>) | BatchError(window: Option<(int, int)>)

  /** Exactly the whole hours from `first` to `last`. */
  ghost predicate HoursBetween(buckets: seq<int>, first: int, last: int) {
    forall h :: h in buckets <==> Aligned(h) && first <= h <= last
  }

  /** `hourlyBucketRange`: from the hour of the start, none when the end lies before the start. */
  method HourlyBucketRange(start: int, end: int) returns (buckets: seq<int>)
    ensures if end < start then buckets == [] else HoursBetween(buckets, HourOf(start), end)
    ensures forall i, j :: 0 <= i < j < |buckets| ==> buckets[i] < buckets[j]
  {
    buckets := [];
    if end < start {
      return;
    }
    var bucket := HourOf(start);
    while bucket <= end
      invariant Aligned(bucket) && HourOf(start) <= bucket
      invariant forall h :: h in buckets <==> Aligned(h) && HourOf(start) <= h <= end && h < bucket
      invariant forall i, j :: 0 <= i < j < |buckets| ==> buckets[i] < buckets[j]
      decreases end - bucket
    {
      assert forall i :: 0 <= i < |buckets| ==> buckets[i] in buckets;
      buckets := buckets + [bucket];
      forall h | Aligned(h) && bucket <= h < bucket + HOUR ensures h == bucket {
        HourUnique(h, bucket);
      }
      AlignedPlus(bucket, 1);
      bucket := bucket + HOUR;
    }
  }

  /** The admission pass: it stamps every event's state or rejects the call on the first bad one. */
  method Admit(input: seq<UsageEvent>) returns (rows: seq<UsageEvent>, err: Option<ValidationError>)
    ensures err.None? <==> AllAdmissible(input)
    ensures err.None? ==> rows == StampedAll(input)
  {
    rows := [];
    err := None;
    for i := 0 to |input|
      invariant err.None? && forall k :: 0 <= k < i ==> Admissible(input[k].facts)
      invariant |rows| == i && forall k :: 0 <= k < i ==> rows[k] == Stamped(input[k])
    {
      if FactsAbsent(input[i].facts) {
        rows := rows + [input[i].(state := Absent)];
      } else {
        err := ValidateUsageAccounting(input[i].facts);
        if err.Some? {
          assert input[i] in input;
          return;
        }
        rows := rows + [input[i].(state := Valid)];
      }
    }
    assert rows == StampedAll(input);
  }

  /** The trimmed, non-blank keys of a batch. */
  method BatchKeys(batch: seq<UsageEvent>) returns (keys: set<string>)
    ensures keys == KeysOffered(batch)
  {
    keys := {};
    for i := 0 to |batch|
      invariant forall k :: k in keys <==> exists j :: 0 <= j < i && TrimSpace(batch[j].eventKey) == k && k != ""
    {
      var key := TrimSpace(batch[i].eventKey);
      if key != "" {
        keys := keys + {key};
      }
    }
  }

  ghost function KeysOffered(batch: seq<UsageEvent>): set<string> {
    set e | e in batch && TrimSpace(e.eventKey) != "" :: TrimSpace(e.eventKey)
  }

  function KeyAmong(keys: set<string>): UsageEvent -> bool { (e: UsageEvent) => e.eventKey in keys }

  /** While batches are inserted, the affected keys are trimmed keys new to the table, and they include
      the key of every indexable row stored so far. */
  ghost predicate AffectedKeys(original: seq<UsageEvent>, table: seq<UsageEvent>, affected: set<string>) {
    && original <= table
    && (forall k :: k in affected ==> k != "" && TrimSpace(k) == k && k !in EventKeys(original))
    && (forall e :: e in table[|original|..] && Indexable(e) ==> e.eventKey in affected)
  }

  lemma BatchKeepsAffectedKeys(original: seq<UsageEvent>, table: seq<UsageEvent>, affected: set<string>,
                               batch: seq<UsageEvent>,
                               existing: set<string>, after: set<string>)
    requires AffectedKeys(original, table, affected)
    requires existing == EventKeys(table) * KeysOffered(batch)
    requires |table| < |InsertIgnore(table, batch)| ==> after == affected + (KeysOffered(batch) - existing)
    requires |table| == |InsertIgnore(table, batch)| ==> after == affected
    ensures AffectedKeys(original, InsertIgnore(table, batch), after)
  {
    var next := InsertIgnore(table, batch);
    InsertIgnoreGrows(table, batch);
    forall k | k in after ensures k != "" && TrimSpace(k) == k && k !in EventKeys(original) {
      if k !in affected {
        var e :| e in batch && TrimSpace(e.eventKey) == k;
        TrimIdempotent(e.eventKey);
        assert k !in EventKeys(table);
        assert forall o :: o in original ==> o in table;
      }
    }
    forall e | e in next[|original|..] && Indexable(e) ensures e.eventKey in after {
      if e in table[|original|..] {
      } else {
        AddedKeyIsOffered(table, batch, e, |original|);
      }
    }
  }

  lemma AddedKeyIsOffered(table: seq<UsageEvent>, batch: seq<UsageEvent>, e: UsageEvent, n: nat)
    requires n <= |table| && n <= |InsertIgnore(table, batch)|
    requires e in InsertIgnore(table, batch)[n..] && e !in table[n..] && Indexable(e)
    ensures e.eventKey in KeysOffered(batch) && e.eventKey !in EventKeys(table)
    ensures |table| < |InsertIgnore(table, batch)|
  {
    InsertIgnoreGrows(table, batch);
    var next := InsertIgnore(table, batch);
    var i :| n <= i < |next| && next[i] == e;
    assert |table| <= i;
    AddedRowIsNew(table, batch, i);
    var r :| r in batch && r.eventKey == e.eventKey;
    assert TrimSpace(r.eventKey) == e.eventKey;
  }

  lemma {:induction false} AddedRowIsNew(table: seq<UsageEvent>, batch: seq<UsageEvent>, i: nat)
    requires |table| <= i < |InsertIgnore(table, batch)|
    ensures InsertIgnore(table, batch)[i].eventKey !in EventKeys(table)
    ensures exists r :: r in batch && r.eventKey == InsertIgnore(table, batch)[i].eventKey
    decreases |batch|
  {
    if batch == [] {
    } else if batch[0].eventKey in EventKeys(table) {
      AddedRowIsNew(table, batch[1..], i);
      var r :| r in batch[1..] && r.eventKey == InsertIgnore(table, batch)[i].eventKey;
      assert r in batch;
    } else {
      var next := table + [batch[0].(id := |table| + 1)];
      InsertIgnoreGrows(next, batch[1..]);
      assert EventKeys(next) == EventKeys(table) + {batch[0].eventKey};
      if i == |table| {
        assert InsertIgnore(next, batch[1..])[i] == next[i];
        assert batch[0] in batch;
      } else {
        AddedRowIsNew(next, batch[1..], i);
        var r :| r in batch[1..] && r.eventKey == InsertIgnore(table, batch)[i].eventKey;
        assert r in batch;
      }
    }
  }

  /** Looking the affected keys up again finds exactly the indexable new rows. */
  lemma AffectedEventsAreNew(original: seq<UsageEvent>, table: seq<UsageEvent>, affected: set<string>)
    requires AffectedKeys(original, table, affected)
    ensures Select(table, KeyAmong(affected)) == Select(table[|original|..], Indexable)
  {
    var added := table[|original|..];
    assert table == original + added;
    SelectAppend(original, added, KeyAmong(affected));
    SelectNone(original, KeyAmong(affected));
    SelectSame(added, KeyAmong(affected), Indexable);
  }

  lemma BuiltIsGroup(events: seq<UsageEvent>, buckets: set<int>)
    requires forall e :: e in events ==> Admitted(e) && HourOf(e.timestamp) in buckets
    ensures Built(events, buckets) == Group(events)
  {
    SelectAll(events, InBuckets(buckets));
    forall e | e in events ensures InMemoryRowOf(e) == RowOf(e) { RowsAgree(e); }
    GroupSame(ROLLUPS, KeyOf, InMemoryRowOf, RowOf, events);
  }

  ghost predicate AlignedKeys(rollups: map<RollupKey, HourlyRollup>) {
    forall k :: k in rollups ==> Aligned(k.bucketStart)
  }

  lemma GroupKeysAligned(rollups: map<RollupKey, HourlyRollup>, es: seq<UsageEvent>)
    requires AlignedKeys(rollups)
    ensures AlignedKeys(Merge(rollups, Group(es))) && AlignedKeys(rollups + Group(es))
  {
  }

  /** `incrementUsageRollupsForEvents` up to the upsert: the rollup rows of the given events. */
  method BuildUsageRollupsForEvents(events: seq<UsageEvent>) returns (rows: map<RollupKey, HourlyRollup>)
    requires forall e :: e in events ==> Admitted(e)
    ensures rows == Group(events)
  {
    var buckets := seq(|events|, i requires 0 <= i < |events| => HourOf(events[i].timestamp));
    BucketsOfEvents(events, buckets);
    rows := BuildUsageRollupsForBuckets(buckets, events);
    BuiltIsGroup(events, set b | b in buckets :: HourOf(b));
  }

  class UsageDatabase {
    var events: seq<UsageEvent>
    var rollups: map<RollupKey, HourlyRollup>
    var backfill: BackfillStatus
    const insertBatchSize: nat

    ghost predicate Valid()
      reads this
    {
      && 0 < insertBatchSize
      && WellNumbered(events)
      && (forall e :: e in events ==> Admitted(e))
      && AlignedKeys(rollups)
    }

    ghost function Snapshot(): Store
      reads this
    {
      Store(events, rollups, backfill)
    }

    constructor (insertBatchSize: nat)
      requires 0 < insertBatchSize
      ensures Valid() && this.insertBatchSize == insertBatchSize
      ensures Snapshot() == Store([], map[], BackfillStatus(Pending, None, None))
    {
      this.insertBatchSize := insertBatchSize;
      events, rollups, backfill := [], map[], BackfillStatus(Pending, None, None);
    }

    /** The batched insert-or-ignore loop on the transaction's view of the table. */
    method InsertBatches(rows: seq<UsageEvent>) returns (table: seq<UsageEvent>, inserted: int, affected: set<string>)
      requires Valid()
      ensures table == InsertIgnore(events, rows)
      ensures inserted == |table| - |events|
      ensures AffectedKeys(events, table, affected)
    {
      table, inserted, affected := events, 0, {};
      var start := 0;
      assert rows[..0] == [];
      while start < |rows|
        invariant 0 <= start <= |rows|
        invariant table == InsertIgnore(events, rows[..start])
        invariant inserted == |table| - |events|
        invariant AffectedKeys(events, table, affected)
        decreases |rows| - start
      {
        var end := if start + insertBatchSize < |rows| then start + insertBatchSize else |rows|;
        var batch := rows[start..end];
        var batchKeys := BatchKeys(batch);
        var existing := EventKeys(table) * batchKeys;
        assert rows[..end] == rows[..start] + batch;
        InsertIgnoreAppend(events, rows[..start], batch);
        InsertIgnoreGrows(table, batch);
        var next := InsertIgnore(table, batch);
        var rowsAffected := |next| - |table|;
        var after := if 0 < rowsAffected then affected + (batchKeys - existing) else affected;
        BatchKeepsAffectedKeys(events, table, affected, batch, existing, after);
        table, affected, inserted := next, after, inserted + rowsAffected;
        start := end;
      }
      assert rows[..|rows|] == rows;
    }

    /** Insert usage events: all of them are admitted and inserted in one transaction with the rollup
        increments of the new ones, or nothing changes. */
    method InsertUsageEvents(input: seq<UsageEvent>, commits: bool) returns (result: InsertResult)
      requires Valid()
      modifies this
      ensures Valid()
      ensures Snapshot() == InsertCall(old(Snapshot()), input, commits)
      ensures result.Rejected? <==> !AllAdmissible(input)
      ensures result.Inserted? <==> AllAdmissible(input) && (commits || input == [])
      ensures result.Inserted? ==>
        result.inserted + result.deduped == |input| && |events| == |old(events)| + result.inserted
    {
      if input == [] {
        NothingToInsert(Snapshot());
        return Inserted(0, 0);
      }
      var rows, err := Admit(input);
      if err.Some? {
        return Rejected(err.value);
      }
      var table, inserted, affected := InsertBatches(rows);
      if !commits {
        return RolledBack;
      }
      AffectedEventsAreNew(events, table, affected);
      StoredRowsAreAdmitted(events, input, table);
      InsertIgnoreWellNumbered(events, rows);
      var affectedEvents := Select(table, KeyAmong(affected));
      SelectedAreIn(table, KeyAmong(affected));
      var increments := BuildUsageRollupsForEvents(affectedEvents);
      GroupKeysAligned(rollups, affectedEvents);
      events, rollups := table, Merge(rollups, increments);
      return Inserted(inserted, |input| - inserted);
    }

    method DeleteBuckets(buckets: seq<int>)
      requires Valid()
      modifies this`rollups
      ensures Valid()
      ensures rollups == WithoutBuckets(old(rollups), buckets)
    {
      rollups := WithoutBuckets(rollups, buckets);
    }

    /** `INSERT INTO usage_rollups_hourly SELECT ... GROUP BY` over a half-open timestamp range. */
    method InsertGrouped(start: int, endExclusive: int)
      requires Valid()
      modifies this`rollups
      ensures Valid()
      ensures rollups == old(rollups) + Group(Select(events, TimestampIn(start, endExclusive)))
    {
      GroupKeysAligned(rollups, Select(events, TimestampIn(start, endExclusive)));
      rollups := rollups + Group(Select(events, TimestampIn(start, endExclusive)));
    }

    /** Rebuild the rollups of an inclusive range of hours from the raw events. */
    method RebuildUsageRollupsForBucketRange(startBucket: int, endBucket: int)
      requires Valid()
      modifies this`rollups
      ensures Valid()
      ensures Snapshot() == RebuildRange(old(Snapshot()), HourOf(startBucket), HourOf(endBucket))
    {
      var first, last := HourOf(startBucket), HourOf(endBucket);
      if last < first {
        return;
      }
      var bucketList := HourlyBucketRange(first, last);
      assert HourOf(first) == first by { AlignedPlus(first, 0); }
      RebuildIsDeleteAndInsert(Snapshot(), bucketList, first, last);
      DeleteBuckets(bucketList);
      InsertGrouped(first, last + HOUR);
    }

    /** The target hour and the hours the next batch rebuilds, if any are left. */
    method PlanBatch(now: int, hours: int) returns (target: int, window: Option<(int, int)>)
      requires 0 < hours
      ensures target == BackfillTarget(backfill, now) && Aligned(target)
      ensures window == NextBatch(Snapshot(), now, hours)
    {
      target := BackfillTarget(backfill, now);
      BackfillRuns.TargetAligned(backfill, now);
      var earliest := EarliestHour(events);
      if earliest.None? || target < earliest.value {
        return target, None;
      }
      var next := if backfill.covered.Some? then HourOf(backfill.covered.value) + HOUR else earliest.value;
      if target < next {
        return target, None;
      }
      var batchEnd := next + (hours - 1) * HOUR;
      if target < batchEnd {
        batchEnd := target;
      }
      window := Some((next, batchEnd));
    }

    /** One backfill batch: pick the next hours, rebuild them and move the coverage, in one transaction. */
    method BackfillUsageRollupsBatch(now: int, batchHours: int, fault: BatchFault) returns (result: BatchResult)
      requires Valid()
      modifies this`rollups, this`backfill
      ensures Valid()
      ensures Snapshot() == BackfillBatch(old(Snapshot()), now, batchHours, fault)
      ensures result.BatchDone? ==> (result.done <==> RollupReadAllowed(backfill))
      ensures result.BatchError? ==> rollups == old(rollups) && backfill.covered == old(backfill.covered)
      ensures fault.NoFault? ==> result.BatchDone?
    {
      var hours := if batchHours <= 0 then DEFAULT_BATCH_HOURS else batchHours;
      if backfill.phase.Completed? && TargetCovered(backfill) {
        return BatchDone(true, None);
      }
      if fault.StatusWriteFails? {
        return BatchError(None);
      }
      var target, window := PlanBatch(now, hours);
      AlignedPlus(target, 0);
      if window.None? {
        backfill := BackfillStatus(Completed, Some(target), Some(target));
        return BatchDone(true, None);
      }
      var covered, batchEnd := backfill.covered, window.value.1;
      BatchHoursAligned(Snapshot(), now, hours);
      backfill := BackfillStatus(Running, Some(target), covered);
      if fault.TransactionFails? {
        if fault.recorded {
          backfill := BackfillStatus(Failed, Some(target), covered);
        }
        return BatchError(window);
      }
      RebuildUsageRollupsForBucketRange(window.value.0, batchEnd);
      var done := target <= batchEnd;
      backfill := BackfillStatus(if done then Completed else Running, Some(target), Some(batchEnd));
      return BatchDone(done, window);
    }

    /** The backfill runner: batches until one reports completion; failed batches are retried. The clock
        readings and faults of the run are its inputs, and running out of them is its cancellation. */
    method RunBackfill(nows: seq<int>, faults: seq<BatchFault>, batchHours: int) returns (completed: bool, batches: nat)
      requires Valid() && |nows| == |faults|
      modifies this`rollups, this`backfill
      ensures Valid()
      ensures batches <= |nows| && (!completed ==> batches == |nows|)
      ensures Snapshot() == StoreAfter(old(Snapshot()), nows[..batches], faults[..batches], batchHours)
      ensures completed ==> RollupReadAllowed(backfill) && 0 < batches
      ensures 0 < batches ==> UnfinishedUpTo(old(Snapshot()), nows, faults, batchHours, batches - 1)
    {
      batches := 0;
      while batches < |nows|
        invariant Valid() && 0 <= batches <= |nows|
        invariant Snapshot() == StoreAfter(old(Snapshot()), nows[..batches], faults[..batches], batchHours)
        invariant UnfinishedUpTo(old(Snapshot()), nows, faults, batchHours, batches)
      {
        var result := BackfillUsageRollupsBatch(nows[batches], batchHours, faults[batches]);
        assert Snapshot() == StoreAfter(old(Snapshot()), nows[..batches + 1], faults[..batches + 1], batchHours) by {
          StoreAfterSnoc(old(Snapshot()), nows, faults, batches, batchHours);
        }
        batches := batches + 1;
        if result.BatchDone? && result.done {
          return true, batches;
        }
      }
      return false, batches;
    }
  }

  /** The store after a run of batches with the given clock readings and faults. */
  function StoreAfter(s: Store, nows: seq<int>, faults: seq<BatchFault>, batchHours: int): Store
    requires |nows| == |faults|
  {
    if nows == [] then s
    else
      var n := |nows| - 1;
      BackfillBatch(StoreAfter(s, nows[..n], faults[..n], batchHours), nows[n], batchHours, faults[n])
  }

  /** No unfailing batch among the first `n` left the backfill complete. */
  ghost predicate UnfinishedUpTo(s: Store, nows: seq<int>, faults: seq<BatchFault>, batchHours: int, n: nat)
    requires |nows| == |faults| && n <= |nows|
  {
    forall k :: 0 < k <= n && faults[k - 1].NoFault? ==>
      !RollupReadAllowed(StoreAfter(s, nows[..k], faults[..k], batchHours).backfill)
  }

  lemma StoreAfterSnoc(s: Store, nows: seq<int>, faults: seq<BatchFault>, n: nat, batchHours: int)
    requires |nows| == |faults| && n < |nows|
    ensures StoreAfter(s, nows[..n + 1], faults[..n + 1], batchHours)
         == BackfillBatch(StoreAfter(s, nows[..n], faults[..n], batchHours), nows[n], batchHours, faults[n])
  {
    assert nows[..n + 1][..n] == nows[..n] && faults[..n + 1][..n] == faults[..n];
  }

  function BatchSteps(nows: seq<int>, faults: seq<BatchFault>, batchHours: int): seq<BackfillRuns.Step>
    requires |nows| == |faults|
  {
    seq(|nows|, i requires 0 <= i < |nows| => BackfillRuns.BatchStep(nows[i], batchHours, faults[i]))
  }

  lemma OneBatch(t: BackfillRuns.Tracked, now: int, batchHours: int, fault: BatchFault)
    requires t.plan.None?
    ensures var u := BackfillRuns.Next(t, BackfillRuns.BatchStep(now, batchHours, fault));
      u.plan.None? && u.store == BackfillBatch(t.store, now, batchHours, fault)
  {
  }

  /** A run of batches is a run of the store's state machine. */
  lemma {:induction false} StoreAfterIsRun(s: Store, nows: seq<int>, faults: seq<BatchFault>, batchHours: int,
                                           pending: set<UsageEvent>)
    requires |nows| == |faults|
    ensures var t := BackfillRuns.Run(BackfillRuns.Tracked(s, pending, None), BatchSteps(nows, faults, batchHours));
      StoreAfter(s, nows, faults, batchHours) == t.store && t.plan.None?
  {
    if nows != [] {
      var n, steps := |nows| - 1, BatchSteps(nows, faults, batchHours);
      var front := BatchSteps(nows[..n], faults[..n], batchHours);
      StoreAfterIsRun(s, nows[..n], faults[..n], batchHours, pending);
      assert steps[..|steps| - 1] == front && steps[n] == BackfillRuns.BatchStep(nows[n], batchHours, faults[n]);
      OneBatch(BackfillRuns.Run(BackfillRuns.Tracked(s, pending, None), front), nows[n], batchHours, faults[n]);
    }
  }

  lemma {:induction false} RunFront(t: BackfillRuns.Tracked, step: BackfillRuns.Step, rest: seq<BackfillRuns.Step>)
    ensures BackfillRuns.Run(t, [step] + rest) == BackfillRuns.Run(BackfillRuns.Next(t, step), rest)
  {
    var steps := [step] + rest;
    if rest == [] {
      assert steps[..|steps| - 1] == [];
    } else {
      assert steps[..|steps| - 1] == [step] + rest[..|rest| - 1];
      RunFront(t, step, rest[..|rest| - 1]);
    }
  }

  lemma {:induction false} BatchStepsAreBatches(t: BackfillRuns.Tracked, nows: seq<int>, faults: seq<BatchFault>,
                                                batchHours: int)
    requires |nows| == |faults| && t.plan.None?
    ensures Batches(t, BatchSteps(nows, faults, batchHours)) == |nows|
    ensures BackfillRuns.Run(t, BatchSteps(nows, faults, batchHours)).plan.None?
  {
    if nows != [] {
      var n, steps := |nows| - 1, BatchSteps(nows, faults, batchHours);
      var front := BatchSteps(nows[..n], faults[..n], batchHours);
      BatchStepsAreBatches(t, nows[..n], faults[..n], batchHours);
      assert steps == front + [BackfillRuns.BatchStep(nows[n], batchHours, faults[n])];
      OneMoreStep(t, front, BackfillRuns.BatchStep(nows[n], batchHours, faults[n]));
      OneBatch(BackfillRuns.Run(t, front), nows[n], batchHours, faults[n]);
    }
  }

  lemma BatchStepsAreFaultFree(nows: seq<int>, faults: seq<BatchFault>, batchHours: int)
    requires |nows| == |faults| && forall f :: f in faults ==> f.NoFault?
    ensures forall step :: step in BatchSteps(nows, faults, batchHours) ==> FaultFree(step, EffectiveHours(batchHours))
  {
    var steps := BatchSteps(nows, faults, batchHours);
    forall step | step in steps ensures FaultFree(step, EffectiveHours(batchHours)) {
      var i :| 0 <= i < |steps| && steps[i] == step;
      assert faults[i] in faults;
    }
  }

  /** The steps of an unfailing run: one first batch, and unfailing ones after it. */
  lemma UnfailingSteps(nows: seq<int>, faults: seq<BatchFault>, batchHours: int)
    requires 0 < |nows| == |faults| && forall f :: f in faults ==> f.NoFault?
    ensures var rest := BatchSteps(nows[1..], faults[1..], batchHours);
      && BatchSteps(nows, faults, batchHours) == [BackfillRuns.BatchStep(nows[0], batchHours, NoFault)] + rest
      && forall step :: step in rest ==> FaultFree(step, EffectiveHours(batchHours))
  {
    assert faults[0] in faults;
    assert forall f :: f in faults[1..] ==> f in faults;
    BatchStepsAreFaultFree(nows[1..], faults[1..], batchHours);
  }

  /** An unfailing run over a fresh store with events up to the target reports completion after exactly
      ceil(hours to the target / batch size) batches. */
  lemma UnfailingRunLength(s: Store, nows: seq<int>, faults: seq<BatchFault>, batchHours: int, first: int, end: int)
    requires 0 < |nows| == |faults| && forall f :: f in faults ==> f.NoFault?
    requires s.backfill == BackfillStatus(Pending, None, None)
    requires NextBatch(s, nows[0], EffectiveHours(batchHours)) == Some((first, end))
    ensures RollupReadAllowed(StoreAfter(s, nows, faults, batchHours).backfill) <==>
      CeilDiv(HoursToTarget(first, BackfillTarget(s.backfill, nows[0])), EffectiveHours(batchHours)) <= |nows|
  {
    var t := BackfillRuns.Tracked(s, {}, None);
    var head, rest :=
      BackfillRuns.BatchStep(nows[0], batchHours, NoFault), BatchSteps(nows[1..], faults[1..], batchHours);
    UnfailingSteps(nows, faults, batchHours);
    StoreAfterIsRun(s, nows, faults, batchHours, {});
    RunFront(t, head, rest);
    OneBatch(t, nows[0], batchHours, NoFault);
    BatchStepsAreBatches(Started(t, nows[0], batchHours), nows[1..], faults[1..], batchHours);
    BackfillTakesCeilBatches(t, nows[0], batchHours, first, end, rest);
  }

  lemma BatchHoursAligned(s: Store, now: int, hours: int)
    requires NextBatch(s, now, hours).Some?
    ensures Aligned(NextBatch(s, now, hours).value.0) && Aligned(NextBatch(s, now, hours).value.1)
    ensures HourOf(NextBatch(s, now, hours).value.0) == NextBatch(s, now, hours).value.0
    ensures HourOf(NextBatch(s, now, hours).value.1) == NextBatch(s, now, hours).value.1
  {
    BackfillRuns.EarliestIsMinimum(s.events);
    BackfillRuns.TargetAligned(s.backfill, now);
    var next := NextBatch(s, now, hours).value.0;
    if s.backfill.covered.Some? { AlignedPlus(HourOf(s.backfill.covered.value), 1); }
    AlignedPlus(next, hours - 1);
    AlignedPlus(NextBatch(s, now, hours).value.1, 0);
  }

  lemma SelectedAreIn(es: seq<UsageEvent>, keep: UsageEvent -> bool)
    ensures forall e :: e in Select(es, keep) ==> e in es
  {
    forall e | e in Select(es, keep) ensures e in es { SelectIn(es, keep, e); }
  }

  function WithoutBuckets(rollups: map<RollupKey, HourlyRollup>, buckets: seq<int>): map<RollupKey, HourlyRollup> {
    map k | k in rollups && k.bucketStart !in buckets :: rollups[k]
  }

  /** Deleting the listed buckets and inserting the groups of the range is the range rebuild. */
  lemma RebuildIsDeleteAndInsert(s: Store, buckets: seq<int>, first: int, last: int)
    requires AlignedKeys(s.rollups) && first <= last
    requires HoursBetween(buckets, first, last)
    ensures s.(rollups := WithoutBuckets(s.rollups, buckets) + Group(Select(s.events, TimestampIn(first, last + HOUR))))
      == RebuildRange(s, first, last)
  {
    assert WithoutBuckets(s.rollups, buckets)
      == map k | k in s.rollups && !(first <= k.bucketStart <= last) :: s.rollups[k];
  }

  lemma NothingToInsert(s: Store)
    ensures Insert(s, []) == s
  {
    assert StampedAll([]) == [];
    assert s.events[|s.events|..] == [];
    assert Group([]) == map[];
    assert Merge(s.rollups, map[]) == s.rollups;
  }

  lemma StoredRowsAreAdmitted(original: seq<UsageEvent>, input: seq<UsageEvent>, table: seq<UsageEvent>)
    requires table == InsertIgnore(original, StampedAll(input)) && AllAdmissible(input)
    requires forall e :: e in original ==> Admitted(e)
    ensures forall e :: e in table ==> Admitted(e)
  {
    forall e | e in table ensures Admitted(e) {
      if e !in original {
        StoredRowsWereOffered(original, StampedAll(input), e);
        var r :| r in StampedAll(input) && e == r.(id := e.id);
        var i :| 0 <= i < |input| && StampedAll(input)[i] == r;
        assert input[i] in input;
      }
    }
  }

  lemma BucketsOfEvents(es: seq<UsageEvent>, buckets: seq<int>)
    requires |buckets| == |es| && forall i :: 0 <= i < |es| ==> buckets[i] == HourOf(es[i].timestamp)
    ensures forall e :: e in es ==> HourOf(e.timestamp) in set b | b in buckets :: HourOf(b)
  {
    forall e | e in es ensures HourOf(e.timestamp) in set b | b in buckets :: HourOf(b) {
      var i :| 0 <= i < |es| && es[i] == e;
      assert buckets[i] in buckets;
      AlignedPlus(buckets[i], 0);
    }
  }
}

/** The intake as a machine: pulls, whole processing turns with any failure or crash between their transactions,
    clean-ups and the backfill runner, and the invariant of its tables (internal/service/redis_usage_processor.go,
    redis_usage_intake.go, internal/repository/redis_usage_inbox.go). */
module InboxRuns {
  import opened Accounting
  import opened Aggregation
  import opened BackfillRuns
  import opened EventInsertion
  import opened InboxPipeline
  import opened RedisInbox
  import opened UsageEvents
  import UsageStore

  /** Event keys are trimmed, not blank, and tell inbox rows apart. */
  ghost predicate DistinctKeys(d: Decoding) {
    && (forall a, b :: d.key(a) == d.key(b) ==> a == b)
    && forall id, e: UsageEvent :: e.eventKey == d.key(id) ==> Indexable(e)
  }

  datatype Popped = Popped(message: string, poppedAt: Option<int>)

  /** The intake tables, with what a run remembers of them: the first id it may hand out, the keys stored
      before it, every popped message, the ids cleaned up, and those of them that were given up. */
  datatype World = World(
    rows: seq<InboxRow>, nextId: nat, tracked: Tracked,
    first: nat, base: set<string>, popped: map<nat, Popped>, dropped: set<nat>, abandoned: set<nat>)

  function Tables(w: World): Intake { Intake(w.rows, w.nextId, w.tracked.store) }

  datatype InboxStep =
    | PullStep(messages: seq<string>, now: int, commits: bool)
    | TurnStep(now: int, faults: TurnFaults)
    | CleanupStep(processedCutoff: int, failedCutoff: int)
    | BackfillStep(part: BackfillRuns.Step)

  /** A row that failed processing, for good or not yet. */
  predicate GivenUp(r: InboxRow) { r.status.ProcessFailed? || r.status.Discarded? }

  /** The events a turn offers to the insert call. */
  function Offered(d: Decoding, p: Intake, f: TurnFaults): seq<UsageEvent> {
    var listed := Listed(p.rows, PROCESS_LIMIT);
    SelectedDecode(d, listed);
    if f.decodeMarks < |Select(listed, Undecodable(d))| then [] else EventsOf(d, Select(listed, Decodes(d)))
  }

  /** The steps of the backfill runner: a batch, or one section of it. */
  predicate OfRunner(part: BackfillRuns.Step) { !part.InsertStep? && !part.RebuildStep? }

  ghost function Step(d: Decoding, w: World, step: InboxStep): World {
    match step
    case PullStep(messages, now, commits) =>
      var p := Pulled(d, Tables(w), messages, now, commits);
      w.(rows := p.rows, nextId := p.nextId, popped := w.popped + PoppedAs(p.rows[|w.rows|..], w.nextId))
    case TurnStep(now, f) =>
      w.(rows := Turn(d, Tables(w), now, f).rows,
         tracked := Next(w.tracked, InsertStep(Offered(d, Tables(w), f), f.insertCommits)))
    case CleanupStep(processedCutoff, failedCutoff) =>
      var rows := Select(w.rows, Retained(processedCutoff, failedCutoff));
      w.(rows := rows, dropped := w.dropped + (RowIds(w.rows) - RowIds(rows)),
         abandoned := w.abandoned + (RowIds(Select(w.rows, GivenUp)) - RowIds(rows)))
    case BackfillStep(part) => if OfRunner(part) then w.(tracked := Next(w.tracked, part)) else w
  }

  /** What newly numbered rows were popped as. */
  ghost function PoppedAs(added: seq<InboxRow>, nextId: nat): map<nat, Popped> {
    map id: nat | nextId <= id < nextId + |added| :: PoppedOne(added, nextId, id)
  }

  ghost function PoppedOne(added: seq<InboxRow>, nextId: nat, id: nat): Popped
    requires nextId <= id < nextId + |added|
  {
    Popped(added[id - nextId].message, added[id - nextId].poppedAt)
  }

  /** The tables after a step are those the intake leaves behind. */
  lemma StepIsIntake(d: Decoding, w: World, step: InboxStep)
    ensures step.PullStep? ==> Tables(Step(d, w, step)) == Pulled(d, Tables(w), step.messages, step.now, step.commits)
    ensures step.TurnStep? ==> Tables(Step(d, w, step)) == Turn(d, Tables(w), step.now, step.faults)
  {
    if step.TurnStep? {
      EmptyInsert(w.tracked.store);
      EmptyInsertTracked(w.tracked);
    }
  }

  lemma EmptyInsert(s: UsageStore.Store)
    ensures UsageStore.Insert(s, []) == s
  {
    assert UsageStore.StampedAll([]) == [];
    assert s.events[|s.events|..] == [];
  }

  lemma EmptyInsertTracked(t: Tracked)
    ensures Next(t, InsertStep([], true)).store == t.store && Next(t, InsertStep([], false)).store == t.store
  {
    EmptyInsert(t.store);
  }

  ghost function Run(d: Decoding, w: World, steps: seq<InboxStep>): World {
    if steps == [] then w else Step(d, Run(d, w, steps[..|steps| - 1]), steps[|steps| - 1])
  }

  // What a turn does to one row

  ghost predicate Inserts(d: Decoding, p: Intake, f: TurnFaults) {
    f.insertCommits && UsageStore.AllAdmissible(Offered(d, p, f))
  }

  /** Every mark of the turn is written. */
  ghost predicate Marked(d: Decoding, p: Intake, f: TurnFaults) {
    |Select(Listed(p.rows, PROCESS_LIMIT), Undecodable(d))| <= f.decodeMarks && f.markCommits
  }

  datatype Fate = Untouched | Rejection | Completion | Failing

  ghost predicate Meets(d: Decoding, p: Intake, now: int, f: TurnFaults, r: InboxRow, after: InboxRow, fate: Fate) {
    match fate
    case Untouched => after == r
    case Rejection => Processable(r) && DecodeRow(d, r).None? && after == RejectRow(r, now)
    case Completion => Processable(r) && DecodeRow(d, r).Some? && Inserts(d, p, f)
      && DecodeRow(d, r).value in Offered(d, p, f)
                       && after == CompleteRow(r, d.key(r.id), now)
    case Failing => Processable(r) && DecodeRow(d, r).Some? && !Inserts(d, p, f) && after == FailRow(r, now)
  }

  lemma RowById(rows: seq<InboxRow>, nextId: nat, i: nat, some: seq<InboxRow>)
    requires Ordered(rows, nextId) && i < |rows| && forall r :: r in some ==> r in rows
    ensures rows[i].id in RowIds(some) <==> rows[i] in some
  {
  }

  lemma ListedIn(rows: seq<InboxRow>, r: InboxRow)
    ensures r in Listed(rows, PROCESS_LIMIT) ==> r in rows && Processable(r)
  {
    SelectIn(rows, Processable, r);
  }

  lemma MarkOfRow(d: Decoding, rows: seq<InboxRow>, id: nat)
    ensures MarkOf(MarksOf(d, rows), id) == if id in RowIds(rows) then Some(d.key(id)) else None
  {
    var marks := MarksOf(d, rows);
    MarkOfFinds(marks, id);
    forall m | m in marks ensures m.eventKey == d.key(m.id) && m.id in RowIds(rows) {
      var i :| 0 <= i < |marks| && marks[i] == m;
      assert rows[i] in rows;
    }
    forall r | r in rows ensures exists m :: m in marks && m.id == r.id {
      var i :| 0 <= i < |rows| && rows[i] == r;
      assert marks[i] in marks;
    }
  }

  lemma GoodAndBad(d: Decoding, rows: seq<InboxRow>, r: InboxRow)
    ensures var listed := Listed(rows, PROCESS_LIMIT);
      && (r in Select(listed, Decodes(d)) <==> r in listed && DecodeRow(d, r).Some?)
      && (r in Select(listed, Undecodable(d)) <==> r in listed && DecodeRow(d, r).None?)
      && (r in listed ==> r in rows && Processable(r))
  {
    var listed := Listed(rows, PROCESS_LIMIT);
    SelectIn(listed, Decodes(d), r);
    SelectIn(listed, Undecodable(d), r);
    ListedIn(rows, r);
  }

  lemma EventOffered(d: Decoding, rows: seq<InboxRow>, r: InboxRow)
    requires AllDecode(d, rows) && r in rows
    ensures DecodeRow(d, r).value in EventsOf(d, rows)
  {
    var i :| 0 <= i < |rows| && rows[i] == r;
    assert EventsOf(d, rows)[i] == DecodeRow(d, r).value;
  }

  /** The row after a turn whose decode marks broke off. */
  lemma BrokenTurnRow(d: Decoding, p: Intake, now: int, f: TurnFaults, i: nat) returns (fate: Fate)
    requires Ordered(p.rows, p.nextId) && i < |p.rows|
    requires f.decodeMarks < |Select(Listed(p.rows, PROCESS_LIMIT), Undecodable(d))|
    ensures |Turn(d, p, now, f).rows| == |p.rows|
    ensures Meets(d, p, now, f, p.rows[i], Turn(d, p, now, f).rows[i], fate)
  {
    var r, bad := p.rows[i], Select(Listed(p.rows, PROCESS_LIMIT), Undecodable(d));
    forall x | x in bad ensures x in p.rows { GoodAndBad(d, p.rows, x); }
    RowById(p.rows, p.nextId, i, bad[..f.decodeMarks]);
    GoodAndBad(d, p.rows, r);
    fate := if r in bad[..f.decodeMarks] then Rejection else Untouched;
  }

  /** The row after a turn that decoded all listed rows. */
  lemma WholeTurnRow(d: Decoding, p: Intake, now: int, f: TurnFaults, i: nat) returns (fate: Fate)
    requires Ordered(p.rows, p.nextId) && i < |p.rows|
    requires |Select(Listed(p.rows, PROCESS_LIMIT), Undecodable(d))| <= f.decodeMarks
    ensures |Turn(d, p, now, f).rows| == |p.rows|
    ensures Meets(d, p, now, f, p.rows[i], Turn(d, p, now, f).rows[i], fate)
    ensures fate.Untouched? ==> p.rows[i] !in Listed(p.rows, PROCESS_LIMIT) || !f.markCommits
  {
    var r, listed := p.rows[i], Listed(p.rows, PROCESS_LIMIT);
    var bad, good := Select(listed, Undecodable(d)), Select(listed, Decodes(d));
    forall x ensures x in bad || x in good ==> x in p.rows { GoodAndBad(d, p.rows, x); }
    RowById(p.rows, p.nextId, i, bad);
    RowById(p.rows, p.nextId, i, good);
    GoodAndBad(d, p.rows, r);
    SelectedDecode(d, listed);
    if r in bad {
      MarkOfRow(d, good, r.id);
      return Rejection;
    } else if r !in good {
      MarkOfRow(d, good, r.id);
      return Untouched;
    }
    EventOffered(d, good, r);
    MarkOfRow(d, good, r.id);
    fate := if !f.markCommits then Untouched else if Inserts(d, p, f) then Completion else Failing;
  }

  lemma TurnRow(d: Decoding, p: Intake, now: int, f: TurnFaults, i: nat) returns (fate: Fate)
    requires Ordered(p.rows, p.nextId) && i < |p.rows|
    ensures |Turn(d, p, now, f).rows| == |p.rows|
    ensures Meets(d, p, now, f, p.rows[i], Turn(d, p, now, f).rows[i], fate)
    ensures Marked(d, p, f) && fate.Untouched? ==> p.rows[i] !in Listed(p.rows, PROCESS_LIMIT)
  {
    if f.decodeMarks < |Select(Listed(p.rows, PROCESS_LIMIT), Undecodable(d))| {
      fate := BrokenTurnRow(d, p, now, f, i);
    } else {
      fate := WholeTurnRow(d, p, now, f, i);
    }
  }

  // The invariant

  ghost predicate HasEvent(w: World, key: string) { key in EventKeys(w.tracked.store.events) }

  /** The event a popped message stands for. */
  ghost function EventOfPopped(d: Decoding, w: World, id: nat): Option<UsageEvent>
    requires id in w.popped
  {
    EventOf(d, id, w.popped[id].message, w.popped[id].poppedAt)
  }

  /** A row shows its popped message; its attempts fit its status; a processed row has its event, a
      decode-failed one stands for none, and only rows that stand for an event fail processing. */
  ghost predicate RowInv(d: Decoding, w: World, r: InboxRow) {
    && SoundRow(r)
    && w.first <= r.id
    && r.id in w.popped && w.popped[r.id] == Popped(r.message, r.poppedAt)
    && (r.status.Processed? ==> r.eventKey == d.key(r.id) && HasEvent(w, r.eventKey))
    && (r.status.DecodeFailed? ==> DecodeRow(d, r).None?)
    && (r.status.Processed? || r.status.ProcessFailed? || r.status.Discarded? ==> DecodeRow(d, r).Some?)
  }

  /** A cleaned-up row had its event, stood for none, or was given up. */
  ghost predicate DropInv(d: Decoding, w: World, id: nat)
    requires id in w.popped
  {
    id in w.abandoned || HasEvent(w, d.key(id)) || EventOfPopped(d, w, id).None?
  }

  ghost predicate RowsInv(d: Decoding, w: World) {
    && Ordered(w.rows, w.nextId) && 0 < w.first <= w.nextId
    && (forall r :: r in w.rows ==> RowInv(d, w, r))
    && (forall id :: id in w.popped <==> w.first <= id < w.nextId)
    && (forall id :: id in w.dropped ==> id in w.popped && DropInv(d, w, id))
    && (forall id :: id in w.popped ==> (id in w.dropped <==> id !in RowIds(w.rows)))
  }

  /** A stored event under an inbox key is that row's own event, and it is in the rollups. */
  ghost predicate EventInv(d: Decoding, w: World, e: UsageEvent) {
    && (e.eventKey in w.base || exists id :: id in w.popped && e.eventKey == d.key(id))
    && forall id | w.first <= id && e.eventKey == d.key(id) ::
         && id in w.popped && EventOfPopped(d, w, id).Some?
         && e == UsageStore.Stamped(EventOfPopped(d, w, id).value).(id := e.id)
         && e !in w.tracked.pending
  }

  ghost predicate EventsInv(d: Decoding, w: World) {
    && BackfillRuns.Inv(w.tracked)
    && forall e :: e in w.tracked.store.events ==> EventInv(d, w, e)
  }

  ghost predicate Inv(d: Decoding, w: World) { RowsInv(d, w) && EventsInv(d, w) }

  /** A run starts with an empty inbox over a store that knows none of the keys to come. */
  ghost predicate Initial(d: Decoding, w: World) {
    && BackfillRuns.Initial(w.tracked)
    && w.rows == [] && w.popped == map[] && w.dropped == {} && w.abandoned == {}
    && 0 < w.first == w.nextId
    && w.base == EventKeys(w.tracked.store.events)
    && forall id :: w.first <= id ==> !HasEvent(w, d.key(id))
  }

  lemma InitialHolds(d: Decoding, w: World)
    requires Initial(d, w)
    ensures Inv(d, w)
  {
    InitialInv(w.tracked);
    forall e | e in w.tracked.store.events ensures EventInv(d, w, e) {
      assert e.eventKey in w.base;
    }
  }

  lemma OfferedOf(d: Decoding, p: Intake, f: TurnFaults, e: UsageEvent) returns (r: InboxRow)
    requires e in Offered(d, p, f)
    ensures r in p.rows && DecodeRow(d, r) == Some(e)
  {
    var listed := Listed(p.rows, PROCESS_LIMIT);
    var good := Select(listed, Decodes(d));
    SelectedDecode(d, listed);
    var i :| 0 <= i < |good| && EventsOf(d, good)[i] == e;
    r := good[i];
    GoodAndBad(d, p.rows, r);
  }

  lemma StampedOf(es: seq<UsageEvent>, x: UsageEvent)
    ensures x in es ==> UsageStore.Stamped(x) in UsageStore.StampedAll(es)
    ensures x in UsageStore.StampedAll(es) ==> exists e :: e in es && x == UsageStore.Stamped(e)
  {
    if x in es {
      var i :| 0 <= i < |es| && es[i] == x;
      assert UsageStore.StampedAll(es)[i] == UsageStore.Stamped(x);
    }
    if x in UsageStore.StampedAll(es) {
      var i :| 0 <= i < |es| && UsageStore.StampedAll(es)[i] == x;
      assert es[i] in es;
    }
  }

  lemma InsertedKeys(s: UsageStore.Store, input: seq<UsageEvent>, e: UsageEvent)
    requires e in input
    ensures EventKeys(s.events) <= EventKeys(UsageStore.Insert(s, input).events)
    ensures e.eventKey in EventKeys(UsageStore.Insert(s, input).events)
  {
    InsertIgnoreGrows(s.events, UsageStore.StampedAll(input));
    StampedOf(input, e);
    assert UsageStore.Stamped(e).eventKey == e.eventKey;
  }

  /** Rows that change one by one, while no key is forgotten. */
  lemma RowByRowKeepsInv(d: Decoding, w: World, w': World)
    requires RowsInv(d, w) && w' == w.(rows := w'.rows, tracked := w'.tracked)
    requires EventKeys(w.tracked.store.events) <= EventKeys(w'.tracked.store.events)
    requires |w'.rows| == |w.rows| && forall i :: 0 <= i < |w.rows| ==>
      w'.rows[i].id == w.rows[i].id && RowInv(d, w', w'.rows[i])
    ensures RowsInv(d, w')
  {
    SameIds(w.rows, w'.rows);
    forall id | id in w'.dropped ensures id in w'.popped && DropInv(d, w', id) {
      assert DropInv(d, w, id);
    }
  }

  lemma SameIds(a: seq<InboxRow>, b: seq<InboxRow>)
    requires |a| == |b| && forall i :: 0 <= i < |a| ==> a[i].id == b[i].id
    ensures RowIds(a) == RowIds(b)
  {
    forall r | r in a ensures r.id in RowIds(b) { var i :| 0 <= i < |a| && a[i] == r; assert b[i] in b; }
    forall r | r in b ensures r.id in RowIds(a) { var i :| 0 <= i < |b| && b[i] == r; assert a[i] in a; }
  }

  /** New rows get new ids, above all others. */
  lemma AddedIds(rows: seq<InboxRow>, added: seq<InboxRow>, nextId: nat, id: nat)
    requires Ordered(rows, nextId) && forall i :: 0 <= i < |added| ==> added[i].id == nextId + i
    ensures id in RowIds(rows + added) <==> id in RowIds(rows) || nextId <= id < nextId + |added|
    ensures id in RowIds(rows) ==> id < nextId
  {
    if nextId <= id < nextId + |added| {
      assert (rows + added)[|rows| + id - nextId] == added[id - nextId];
    }
  }

  lemma AddedOrdered(rows: seq<InboxRow>, added: seq<InboxRow>, nextId: nat)
    requires 0 < nextId && Ordered(rows, nextId) && forall i :: 0 <= i < |added| ==> added[i].id == nextId + i
    ensures Ordered(rows + added, nextId + |added|)
  {
  }

  lemma PulledRow(d: Decoding, w: World, w': World, added: seq<InboxRow>, r: InboxRow)
    requires RowsInv(d, w) && w'.popped == w.popped + PoppedAs(added, w.nextId) && w'.tracked == w.tracked
      && w'.first == w.first
    requires forall i :: 0 <= i < |added| ==>
      added[i].id == w.nextId + i && added[i].status == InboxStatus.Pending && added[i].attempts == 0
    requires r in w.rows + added
    ensures RowInv(d, w', r)
  {
    if r in w.rows {
      assert RowInv(d, w, r);
    } else {
      var i :| 0 <= i < |added| && added[i] == r;
    }
  }

  lemma PullKeepsRows(d: Decoding, w: World, w': World, added: seq<InboxRow>)
    requires RowsInv(d, w)
    requires forall i :: 0 <= i < |added| ==>
      added[i].id == w.nextId + i && added[i].status == InboxStatus.Pending && added[i].attempts == 0
    requires w'
      == w.(rows := w.rows + added, nextId := w.nextId + |added|, popped := w.popped + PoppedAs(added, w.nextId))
    ensures RowsInv(d, w')
  {
    AddedOrdered(w.rows, added, w.nextId);
    forall r | r in w'.rows ensures RowInv(d, w', r) {
      PulledRow(d, w, w', added, r);
    }
    forall id | id in w'.popped ensures id in w'.dropped <==> id !in RowIds(w'.rows) {
      AddedIds(w.rows, added, w.nextId, id);
    }
  }

  lemma PullKeepsInv(d: Decoding, w: World, messages: seq<string>, now: int, commits: bool)
    requires Inv(d, w)
    ensures Inv(d, Step(d, w, PullStep(messages, now, commits)))
  {
    var w' := Step(d, w, PullStep(messages, now, commits));
    var added := if commits && AllSafe(d, messages) then NewRows(SafeInserts(d, messages, now), w.nextId, now) else [];
    assert w'.rows == w.rows + added && w'.rows[|w.rows|..] == added;
    PullKeepsRows(d, w, w', added);
    forall e | e in w'.tracked.store.events ensures EventInv(d, w', e) {
      PopsKeepEvent(d, w, w', e);
    }
  }

  lemma PopsKeepEvent(d: Decoding, w: World, w': World, e: UsageEvent)
    requires RowsInv(d, w) && EventInv(d, w, e)
    requires w'.tracked == w.tracked && w'.first == w.first && w'.base == w.base
    requires forall id :: id in w.popped ==> id in w'.popped && w'.popped[id] == w.popped[id]
    ensures EventInv(d, w', e)
  {
  }

  lemma DroppedRow(d: Decoding, w: World, processedCutoff: int, failedCutoff: int, id: nat)
    requires Inv(d, w)
    requires var w' := Step(d, w, CleanupStep(processedCutoff, failedCutoff)); id in w'.dropped && id !in w.dropped
    ensures id in w.popped && DropInv(d, Step(d, w, CleanupStep(processedCutoff, failedCutoff)), id)
  {
    var r :| r in w.rows && r.id == id;
    assert RowInv(d, w, r);
    SelectIn(w.rows, Retained(processedCutoff, failedCutoff), r);
    SelectIn(w.rows, GivenUp, r);
  }

  lemma {:induction false} CleanupKeepsInv(d: Decoding, w: World, processedCutoff: int, failedCutoff: int)
    requires Inv(d, w)
    ensures Inv(d, Step(d, w, CleanupStep(processedCutoff, failedCutoff)))
  {
    var w' := Step(d, w, CleanupStep(processedCutoff, failedCutoff));
    SelectOrdered(w.rows, w.nextId, Retained(processedCutoff, failedCutoff));
    assert RowIds(w'.rows) <= RowIds(w.rows);
    forall id | id in w'.dropped ensures id in w'.popped && DropInv(d, w', id) {
      if id !in w.dropped {
        DroppedRow(d, w, processedCutoff, failedCutoff, id);
      }
    }
    forall r | r in w'.rows ensures RowInv(d, w', r) {
      assert RowInv(d, w, r);
    }
    forall e | e in w'.tracked.store.events ensures EventInv(d, w', e) {
      assert EventInv(d, w, e);
    }
  }

  lemma BatchKeepsEvents(t: Tracked, part: BackfillRuns.Step)
    requires OfRunner(part)
    ensures var t' := Next(t, part); t'.store.events == t.store.events && t'.pending <= t.pending
  {
  }

  lemma BackfillKeepsInv(d: Decoding, w: World, part: BackfillRuns.Step)
    requires Inv(d, w)
    ensures Inv(d, Step(d, w, BackfillStep(part)))
  {
    if OfRunner(part) {
      BackfillRuns.StepKeepsInv(w.tracked, part);
      BatchKeepsEvents(w.tracked, part);
      SameEventsKeepInv(d, w, Next(w.tracked, part));
    }
  }

  lemma SameEventsKeepInv(d: Decoding, w: World, t: Tracked)
    requires Inv(d, w) && BackfillRuns.Inv(t) && t.store.events == w.tracked.store.events
      && t.pending <= w.tracked.pending
    ensures Inv(d, w.(tracked := t))
  {
    var w' := w.(tracked := t);
    forall e | e in w'.tracked.store.events ensures EventInv(d, w', e) {
      assert EventInv(d, w, e);
    }
    forall r | r in w'.rows ensures RowInv(d, w', r) {
      assert RowInv(d, w, r);
    }
  }

  /** Pulls, clean-ups and backfill batches keep the invariant. */
  lemma BackgroundKeepsInv(d: Decoding, w: World, step: InboxStep)
    requires Inv(d, w) && !step.TurnStep?
    ensures Inv(d, Step(d, w, step))
  {
    match step
    case PullStep(messages, now, commits) => PullKeepsInv(d, w, messages, now, commits);
    case CleanupStep(processedCutoff, failedCutoff) => CleanupKeepsInv(d, w, processedCutoff, failedCutoff);
    case BackfillStep(part) => BackfillKeepsInv(d, w, part);
  }
}

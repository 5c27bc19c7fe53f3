/** Runs of the intake at the grain of its transactions: a processing turn lists, decodes row by row, inserts
    and marks in separate sections, and pulls, clean-ups, backfill batches and a crash may fall between any
    two of them (internal/service/redis_usage_processor.go, internal/poller/redis_drain.go). */
module InboxInterleaving {
  import opened Accounting
  import opened Aggregation
  import BackfillRuns
  import opened EventInsertion
  import opened InboxPipeline
  import opened InboxRuns
  import opened RedisInbox
  import opened RollupIndex
  import opened UsageEvents
  import UsageStore

  /** A turn under way: the listed rows still to decode, the decoded ones, and whether their events were
      inserted. The rows are as they were listed. */
  datatype TurnState = TurnState(left: seq<InboxRow>, good: seq<InboxRow>, inserted: Option<bool>)

  datatype Situation = Situation(w: World, turn: Option<TurnState>)

  datatype Section =
    | Background(step: InboxStep)
    | BeginTurn
    | DecodeNext(now: int, marks: bool)
    | InsertGood(commits: bool)
    | MarkGood(now: int, commits: bool)
    | StopTurn

  /** Sections whose guard does not hold change nothing; one turn is under way at a time. */
  ghost function Advance(d: Decoding, x: Situation, section: Section): Situation {
    match section
    case Background(step) => if step.TurnStep? then x else x.(w := Step(d, x.w, step))
    case BeginTurn => if x.turn.Some? then x else x.(turn := Some(TurnState(Listed(x.w.rows, PROCESS_LIMIT), [], None)))
    case DecodeNext(now, marks) => if x.turn.None? then x else DecodeOne(d, x.w, x.turn.value, now, marks)
    case InsertGood(commits) => if x.turn.None? then x else InsertAll(d, x.w, x.turn.value, commits)
    case MarkGood(now, commits) => if x.turn.None? then x else MarkAll(d, x.w, x.turn.value, now, commits)
    case StopTurn => x.(turn := None)
  }

  /** The next listed row is decoded, or marked as undecodable; a mark that fails ends the turn. */
  ghost function DecodeOne(d: Decoding, w: World, t: TurnState, now: int, marks: bool): Situation {
    if t.left == [] || t.inserted.Some? then Situation(w, Some(t))
    else
      var r, rest := t.left[0], t.left[1..];
      if DecodeRow(d, r).Some? then Situation(w, Some(t.(left := rest, good := t.good + [r])))
      else if marks then Situation(w.(rows := Rejected(w.rows, {r.id}, now)), Some(t.(left := rest)))
      else Situation(w, None)
  }

  /** Once all listed rows are decoded, their events are inserted. */
  ghost function InsertAll(d: Decoding, w: World, t: TurnState, commits: bool): Situation {
    if t.left != [] || t.good == [] || t.inserted.Some? || !AllDecode(d, t.good) then Situation(w, Some(t))
    else
      var events := EventsOf(d, t.good);
      Situation(w.(tracked := BackfillRuns.Next(w.tracked, BackfillRuns.InsertStep(events, commits))),
                Some(t.(inserted := Some(commits && UsageStore.AllAdmissible(events)))))
  }

  /** The last section of a turn marks the rows that are still there. */
  ghost function MarkAll(d: Decoding, w: World, t: TurnState, now: int, commits: bool): Situation {
    if t.inserted.None? then Situation(w, Some(t))
    else if !commits then Situation(w, None)
    else if t.inserted.value then Situation(w.(rows := Completed(w.rows, MarksOf(d, t.good), now)), None)
    else Situation(w.(rows := Failed(w.rows, RowIds(t.good), now)), None)
  }

  ghost function Interleaved(d: Decoding, x: Situation, sections: seq<Section>): Situation {
    if sections == [] then x else Advance(d, Interleaved(d, x, sections[..|sections| - 1]), sections[|sections| - 1])
  }

  // The invariant

  /** A row of the turn under way: it is as it was listed, or it was cleaned up meanwhile. */
  ghost predicate Held(w: World, r: InboxRow) {
    && Processable(r) && SoundRow(r)
    && w.first <= r.id < w.nextId
    && r.id in w.popped && w.popped[r.id] == Popped(r.message, r.poppedAt)
    && forall s :: s in w.rows && s.id == r.id ==> s == r
  }

  ghost predicate TurnInv(d: Decoding, w: World, t: TurnState) {
    && Ascending(t.good + t.left)
    && (forall r :: r in t.left ==> Held(w, r))
    && (forall r :: r in t.good ==> Held(w, r) && DecodeRow(d, r).Some?)
    && (t.inserted.Some? ==> t.left == [])
    && (t.inserted == Some(true) ==> forall r :: r in t.good ==> HasEvent(w, d.key(r.id)))
  }

  ghost predicate SituationInv(d: Decoding, x: Situation) {
    Inv(d, x.w) && (x.turn.Some? ==> TurnInv(d, x.w, x.turn.value))
  }

  // Background sections

  lemma BackgroundKeepsHeld(d: Decoding, w: World, step: InboxStep, r: InboxRow)
    requires RowsInv(d, w) && !step.TurnStep? && Held(w, r)
    ensures Held(Step(d, w, step), r)
  {
    var w' := Step(d, w, step);
    forall s | s in w'.rows && s.id == r.id ensures s == r {
      match step
      case PullStep(messages, now, commits) =>
        assert w'.rows == w.rows + w'.rows[|w.rows|..];
      case CleanupStep(processedCutoff, failedCutoff) =>
        SelectIn(w.rows, Retained(processedCutoff, failedCutoff), s);
      case BackfillStep(_) =>
    }
  }

  lemma BackgroundKeepsEvents(d: Decoding, w: World, step: InboxStep)
    requires !step.TurnStep?
    ensures Step(d, w, step).tracked.store.events == w.tracked.store.events
  {
    if step.BackfillStep? && OfRunner(step.part) {
      BatchKeepsEvents(w.tracked, step.part);
    }
  }

  lemma BackgroundKeepsTurn(d: Decoding, w: World, step: InboxStep, t: TurnState)
    requires RowsInv(d, w) && !step.TurnStep? && TurnInv(d, w, t)
    ensures TurnInv(d, Step(d, w, step), t)
  {
    forall r | r in t.left || r in t.good ensures Held(Step(d, w, step), r) {
      BackgroundKeepsHeld(d, w, step, r);
    }
    BackgroundKeepsEvents(d, w, step);
  }

  // Listing

  lemma ListedIsHeld(d: Decoding, w: World, r: InboxRow)
    requires RowsInv(d, w) && r in Listed(w.rows, PROCESS_LIMIT)
    ensures Held(w, r)
  {
    ListedIn(w.rows, r);
    assert RowInv(d, w, r);
  }

  lemma BeginKeepsInv(d: Decoding, w: World)
    requires Inv(d, w)
    ensures TurnInv(d, w, TurnState(Listed(w.rows, PROCESS_LIMIT), [], None))
  {
    var listed := Listed(w.rows, PROCESS_LIMIT);
    forall r | r in listed ensures Held(w, r) {
      ListedIsHeld(d, w, r);
    }
    ListedDistinct(w.rows, w.nextId);
    assert [] + listed == listed;
  }

  // Decoding

  lemma RejectKeepsRow(d: Decoding, w: World, r: InboxRow, now: int, i: nat)
    requires Inv(d, w) && Held(w, r) && DecodeRow(d, r).None? && i < |w.rows|
    ensures var w' := w.(rows := Rejected(w.rows, {r.id}, now));
      w'.rows[i].id == w.rows[i].id && RowInv(d, w', w'.rows[i])
  {
    assert RowInv(d, w, w.rows[i]);
    assert w.rows[i] in w.rows;
  }

  lemma RejectKeepsInv(d: Decoding, w: World, r: InboxRow, now: int)
    requires Inv(d, w) && Held(w, r) && DecodeRow(d, r).None?
    ensures Inv(d, w.(rows := Rejected(w.rows, {r.id}, now)))
  {
    var w' := w.(rows := Rejected(w.rows, {r.id}, now));
    forall i: nat | i < |w.rows| ensures w'.rows[i].id == w.rows[i].id && RowInv(d, w', w'.rows[i]) {
      RejectKeepsRow(d, w, r, now, i);
    }
    RowByRowKeepsInv(d, w, w');
    RowsDoNotTouchEvents(d, w, w');
  }

  lemma RowsDoNotTouchEvents(d: Decoding, w: World, w': World)
    requires EventsInv(d, w) && w' == w.(rows := w'.rows)
    ensures EventsInv(d, w')
  {
    forall e | e in w'.tracked.store.events ensures EventInv(d, w', e) {
      assert EventInv(d, w, e);
    }
  }

  lemma RejectKeepsHeld(w: World, r: InboxRow, now: int, s: InboxRow)
    requires Held(w, s) && s.id != r.id
    ensures Held(w.(rows := Rejected(w.rows, {r.id}, now)), s)
  {
    var w' := w.(rows := Rejected(w.rows, {r.id}, now));
    forall x | x in w'.rows && x.id == s.id ensures x == s {
      var i :| 0 <= i < |w'.rows| && w'.rows[i] == x;
      assert w.rows[i] in w.rows;
    }
  }

  lemma AscendingDrops(a: seq<InboxRow>, b: seq<InboxRow>)
    requires b != [] && Ascending(a + b)
    ensures Ascending(a + b[1..]) && Ascending((a + [b[0]]) + b[1..])
    ensures forall s :: s in a || s in b[1..] ==> s.id != b[0].id
  {
    assert (a + [b[0]]) + b[1..] == a + b;
    assert (a + b)[|a|] == b[0];
    forall i, j | 0 <= i < j < |a + b[1..]| ensures (a + b[1..])[i].id < (a + b[1..])[j].id {
      var k, l := if i < |a| then i else i + 1, if j < |a| then j else j + 1;
      assert (a + b[1..])[i] == (a + b)[k] && (a + b[1..])[j] == (a + b)[l];
    }
    forall i | 0 <= i < |a| ensures a[i].id != b[0].id {
      assert (a + b)[i] == a[i];
    }
    forall i | 0 <= i < |b[1..]| ensures b[1..][i].id != b[0].id {
      assert (a + b)[|a| + 1 + i] == b[1..][i];
    }
  }

  lemma GoodKeepsTurn(d: Decoding, w: World, t: TurnState)
    requires TurnInv(d, w, t) && t.left != [] && DecodeRow(d, t.left[0]).Some? && t.inserted.None?
    ensures TurnInv(d, w, t.(left := t.left[1..], good := t.good + [t.left[0]]))
  {
    assert t.left[0] in t.left && forall s :: s in t.left[1..] ==> s in t.left;
    AscendingDrops(t.good, t.left);
  }

  lemma RejectKeepsTurn(d: Decoding, w: World, t: TurnState, now: int)
    requires TurnInv(d, w, t) && t.left != [] && t.inserted.None?
    ensures TurnInv(d, w.(rows := Rejected(w.rows, {t.left[0].id}, now)), t.(left := t.left[1..]))
  {
    var r, rest := t.left[0], t.left[1..];
    var w' := w.(rows := Rejected(w.rows, {r.id}, now));
    AscendingDrops(t.good, t.left);
    forall s | s in rest || s in t.good ensures Held(w', s) {
      assert s in rest ==> s in t.left;
      RejectKeepsHeld(w, r, now, s);
    }
  }

  lemma DecodeKeepsInv(d: Decoding, w: World, t: TurnState, now: int, marks: bool)
    requires Inv(d, w) && TurnInv(d, w, t)
    ensures SituationInv(d, DecodeOne(d, w, t, now, marks))
  {
    if t.left != [] && t.inserted.None? {
      if DecodeRow(d, t.left[0]).Some? {
        GoodKeepsTurn(d, w, t);
      } else if marks {
        assert t.left[0] in t.left;
        RejectKeepsInv(d, w, t.left[0], now);
        RejectKeepsTurn(d, w, t, now);
      }
    }
  }

  // Inserting

  lemma GoodAreIndexable(d: Decoding, good: seq<InboxRow>)
    requires DistinctKeys(d) && AllDecode(d, good)
    ensures BackfillRuns.AllIndexable(EventsOf(d, good))
  {
    forall e | e in EventsOf(d, good) ensures Indexable(e) {
      var i :| 0 <= i < |good| && EventsOf(d, good)[i] == e;
      assert e.eventKey == d.key(good[i].id);
    }
  }

  lemma RowOfEvent(d: Decoding, good: seq<InboxRow>, e: UsageEvent) returns (r: InboxRow)
    requires AllDecode(d, good) && e in EventsOf(d, good)
    ensures r in good && DecodeRow(d, r) == Some(e)
  {
    var i :| 0 <= i < |good| && EventsOf(d, good)[i] == e;
    r := good[i];
  }

  /** What the insert stores: the events of the decoded rows, under their keys. */
  lemma GoodStores(d: Decoding, w: World, good: seq<InboxRow>, commits: bool, e: UsageEvent) returns (r: InboxRow)
    requires AllDecode(d, good)
    requires e in BackfillRuns.Next(w.tracked, BackfillRuns.InsertStep(EventsOf(d, good), commits)).store.events
      && e !in w.tracked.store.events
    ensures r in good && e == UsageStore.Stamped(DecodeRow(d, r).value).(id := e.id)
  {
    var events := EventsOf(d, good);
    StoredRowsWereOffered(w.tracked.store.events, UsageStore.StampedAll(events), e);
    var x :| x in UsageStore.StampedAll(events) && e == x.(id := e.id);
    StampedOf(events, x);
    var y :| y in events && x == UsageStore.Stamped(y);
    r := RowOfEvent(d, good, y);
  }

  lemma StoredIsInv(d: Decoding, w: World, w': World, r: InboxRow, e: UsageEvent)
    requires DistinctKeys(d) && Held(w, r) && DecodeRow(d, r).Some?
      && e == UsageStore.Stamped(DecodeRow(d, r).value).(id := e.id)
    requires w' == w.(tracked := w'.tracked) && e !in w'.tracked.pending
    ensures EventInv(d, w', e)
  {
    assert e.eventKey == d.key(r.id);
  }

  lemma PendingIsStored(t: BackfillRuns.Tracked, e: UsageEvent)
    requires BackfillRuns.Inv(t) && e in t.pending
    ensures e in t.store.events
  {
  }

  lemma InsertKeepsEvents(d: Decoding, w: World, good: seq<InboxRow>, commits: bool)
    requires EventsInv(d, w) && DistinctKeys(d) && AllDecode(d, good) && forall r :: r in good ==> Held(w, r)
    ensures EventsInv(
      d, w.(tracked := BackfillRuns.Next(w.tracked, BackfillRuns.InsertStep(EventsOf(d, good), commits))))
  {
    var events := EventsOf(d, good);
    var w' := w.(tracked := BackfillRuns.Next(w.tracked, BackfillRuns.InsertStep(events, commits)));
    GoodAreIndexable(d, good);
    BackfillRuns.StepKeepsInv(w.tracked, BackfillRuns.InsertStep(events, commits));
    assert w'.tracked.pending == w.tracked.pending by {
      if commits && UsageStore.AllAdmissible(events) {
        IndexableInsertAddsNoPending(w.tracked.store, events, w.tracked.pending);
      }
    }
    forall e | e in w'.tracked.store.events ensures EventInv(d, w', e) {
      if e in w.tracked.store.events {
        assert EventInv(d, w, e);
      } else {
        if e in w.tracked.pending { PendingIsStored(w.tracked, e); }
        var r := GoodStores(d, w, good, commits, e);
        StoredIsInv(d, w, w', r, e);
      }
    }
  }

  lemma InsertKeepsKeys(w: World, events: seq<UsageEvent>, commits: bool)
    ensures var s := BackfillRuns.Next(w.tracked, BackfillRuns.InsertStep(events, commits)).store;
      && EventKeys(w.tracked.store.events) <= EventKeys(s.events)
      && (commits && UsageStore.AllAdmissible(events) ==> forall e :: e in events ==> e.eventKey in EventKeys(s.events))
  {
    InsertIgnoreGrows(w.tracked.store.events, UsageStore.StampedAll(events));
    if commits && UsageStore.AllAdmissible(events) {
      forall e | e in events ensures e.eventKey in EventKeys(UsageStore.Insert(w.tracked.store, events).events) {
        InsertedKeys(w.tracked.store, events, e);
      }
    }
  }

  lemma InsertKeepsInv(d: Decoding, w: World, t: TurnState, commits: bool)
    requires Inv(d, w) && TurnInv(d, w, t) && DistinctKeys(d)
    ensures SituationInv(d, InsertAll(d, w, t, commits))
  {
    if t.left == [] && t.good != [] && t.inserted.None? {
      assert AllDecode(d, t.good);
      var events := EventsOf(d, t.good);
      var w' := w.(tracked := BackfillRuns.Next(w.tracked, BackfillRuns.InsertStep(events, commits)));
      InsertKeepsKeys(w, events, commits);
      InsertKeepsEvents(d, w, t.good, commits);
      forall i | 0 <= i < |w.rows| ensures RowInv(d, w', w'.rows[i]) {
        assert RowInv(d, w, w.rows[i]);
      }
      RowByRowKeepsInv(d, w, w');
      forall r | r in t.good
        ensures Held(w', r) && (commits && UsageStore.AllAdmissible(events) ==> HasEvent(w', d.key(r.id))) {
        EventOffered(d, t.good, r);
      }
    }
  }

  // Marking

  lemma HeldRow(w: World, good: seq<InboxRow>, i: nat)
    requires i < |w.rows| && forall r :: r in good ==> Held(w, r)
    ensures w.rows[i].id in RowIds(good) <==> w.rows[i] in good
  {
    if w.rows[i].id in RowIds(good) {
      var s :| s in good && s.id == w.rows[i].id;
      assert Held(w, s) && w.rows[i] in w.rows;
    }
  }

  lemma MarkedRow(d: Decoding, w: World, w': World, r: InboxRow, inserted: bool, now: int)
    requires RowInv(d, w, r) && Held(w, r) && DecodeRow(d, r).Some? && (inserted ==> HasEvent(w, d.key(r.id)))
    requires w' == w.(rows := w'.rows)
    ensures RowInv(d, w', if inserted then CompleteRow(r, d.key(r.id), now) else FailRow(r, now))
  {
  }

  lemma MarkKeepsRow(d: Decoding, w: World, t: TurnState, now: int, i: nat)
    requires Inv(d, w) && TurnInv(d, w, t) && t.inserted.Some? && i < |w.rows|
    ensures var w' := MarkAll(d, w, t, now, true).w;
      |w'.rows| == |w.rows| && w'.rows[i].id == w.rows[i].id && RowInv(d, w', w'.rows[i])
  {
    var r, w' := w.rows[i], MarkAll(d, w, t, now, true).w;
    assert RowInv(d, w, r);
    MarkOfRow(d, t.good, r.id);
    HeldRow(w, t.good, i);
    if r in t.good {
      MarkedRow(d, w, w', r, t.inserted.value, now);
    }
  }

  lemma MarkKeepsInv(d: Decoding, w: World, t: TurnState, now: int, commits: bool)
    requires Inv(d, w) && TurnInv(d, w, t)
    ensures SituationInv(d, MarkAll(d, w, t, now, commits))
  {
    if t.inserted.Some? && commits {
      var w' := MarkAll(d, w, t, now, true).w;
      MarkLength(d, w, t, now);
      forall i: nat | i < |w.rows| ensures w'.rows[i].id == w.rows[i].id && RowInv(d, w', w'.rows[i]) {
        MarkKeepsRow(d, w, t, now, i);
      }
      RowByRowKeepsInv(d, w, w');
      RowsDoNotTouchEvents(d, w, w');
    }
  }

  lemma MarkLength(d: Decoding, w: World, t: TurnState, now: int)
    ensures |MarkAll(d, w, t, now, true).w.rows| == |w.rows|
  {
  }

  // Runs

  lemma SectionKeepsInv(d: Decoding, x: Situation, section: Section)
    requires SituationInv(d, x) && DistinctKeys(d)
    ensures SituationInv(d, Advance(d, x, section))
  {
    match section
    case Background(step) =>
      if !step.TurnStep? {
        BackgroundKeepsInv(d, x.w, step);
        if x.turn.Some? { BackgroundKeepsTurn(d, x.w, step, x.turn.value); }
      }
    case BeginTurn => BeginKeepsInv(d, x.w);
    case DecodeNext(now, marks) => if x.turn.Some? { DecodeKeepsInv(d, x.w, x.turn.value, now, marks); }
    case InsertGood(commits) => if x.turn.Some? { InsertKeepsInv(d, x.w, x.turn.value, commits); }
    case MarkGood(now, commits) => if x.turn.Some? { MarkKeepsInv(d, x.w, x.turn.value, now, commits); }
    case StopTurn =>
  }

  lemma {:induction false} SectionsKeepInv(d: Decoding, x: Situation, sections: seq<Section>)
    requires SituationInv(d, x) && DistinctKeys(d)
    ensures SituationInv(d, Interleaved(d, x, sections))
  {
    if sections != [] {
      SectionsKeepInv(d, x, sections[..|sections| - 1]);
      SectionKeepsInv(d, Interleaved(d, x, sections[..|sections| - 1]), sections[|sections| - 1]);
    }
  }

  /** The tables after a run of sections. */
  ghost function After(d: Decoding, w: World, sections: seq<Section>): World {
    Interleaved(d, Situation(w, None), sections).w
  }

  /** Every interleaving of sections keeps rows, events, attempts and the turn under way in agreement. */
  lemma InterleavingKeepsInv(d: Decoding, w: World, sections: seq<Section>)
    requires Initial(d, w) && DistinctKeys(d)
    ensures SituationInv(d, Interleaved(d, Situation(w, None), sections)) && Inv(d, After(d, w, sections))
  {
    InitialHolds(d, w);
    SectionsKeepInv(d, Situation(w, None), sections);
  }

  lemma {:induction false} BaseNeverChanges(d: Decoding, w: World, sections: seq<Section>)
    ensures var v := After(d, w, sections); v.base == w.base && v.first == w.first
  {
    if sections != [] {
      BaseNeverChanges(d, w, sections[..|sections| - 1]);
    }
  }

  // An undisturbed turn

  /** Listing, and the decoding of the first `i` listed rows with `marks` marks that can be written. */
  function DecodeSections(d: Decoding, listed: seq<InboxRow>, now: int, marks: nat, i: nat): seq<Section>
    requires i <= |listed|
  {
    if i == 0 then [BeginTurn]
    else
      var marked := |Select(listed[..i - 1], Undecodable(d))| < marks;
      DecodeSections(d, listed, now, marks, i - 1) + [DecodeNext(now, marked)]
  }

  /** The sections of one turn. */
  function TurnSections(d: Decoding, rows: seq<InboxRow>, now: int, f: TurnFaults): seq<Section> {
    var listed := Listed(rows, PROCESS_LIMIT);
    DecodeSections(d, listed, now, f.decodeMarks, |listed|) + [InsertGood(f.insertCommits)]
      + [MarkGood(now, f.markCommits)] + [StopTurn]
  }

  ghost function DecodedPart(d: Decoding, w: World, listed: seq<InboxRow>, now: int, i: nat): Situation
    requires i <= |listed|
  {
    Situation(w.(rows := Rejected(w.rows, RowIds(Select(listed[..i], Undecodable(d))), now)),
              Some(TurnState(listed[i..], Select(listed[..i], Decodes(d)), None)))
  }

  lemma InterleavedSnoc(d: Decoding, x: Situation, sections: seq<Section>, section: Section)
    ensures Interleaved(d, x, sections + [section]) == Advance(d, Interleaved(d, x, sections), section)
  {
    assert (sections + [section])[..|sections|] == sections;
  }

  lemma DecodedOneMore(d: Decoding, w: World, listed: seq<InboxRow>, now: int, i: nat)
    requires Ordered(listed, w.nextId) && i < |listed|
    ensures Advance(d, DecodedPart(d, w, listed, now, i), DecodeNext(now, true))
      == DecodedPart(d, w, listed, now, i + 1)
    ensures DecodeRow(d, listed[i]).Some? ==>
      Advance(d, DecodedPart(d, w, listed, now, i), DecodeNext(now, false)) == DecodedPart(d, w, listed, now, i + 1)
  {
    assert listed[i..][0] == listed[i] && listed[i..][1..] == listed[i + 1..];
    if DecodeRow(d, listed[i]).Some? {
      GoodStep(d, listed, i);
    } else {
      BadStep(d, w.rows, listed, w.nextId, i, now);
    }
  }

  lemma BadCount(d: Decoding, listed: seq<InboxRow>, i: nat)
    requires i < |listed|
    ensures |Select(listed[..i + 1], Undecodable(d))|
      == |Select(listed[..i], Undecodable(d))| + if DecodeRow(d, listed[i]).None? then 1 else 0
  {
    SelectStep(listed, i, Undecodable(d));
  }

  lemma {:induction false} DecodedSoFar(d: Decoding, w: World, now: int, marks: nat, i: nat)
    requires RowsOrdered(w) && i <= |Listed(w.rows, PROCESS_LIMIT)|
    requires |Select(Listed(w.rows, PROCESS_LIMIT)[..i], Undecodable(d))| <= marks
    ensures var listed := Listed(w.rows, PROCESS_LIMIT);
      Interleaved(d, Situation(w, None), DecodeSections(d, listed, now, marks, i)) == DecodedPart(d, w, listed, now, i)
  {
    var listed, x := Listed(w.rows, PROCESS_LIMIT), Situation(w, None);
    ListedDistinct(w.rows, w.nextId);
    if i == 0 {
      assert Interleaved(d, x, []) == x && [BeginTurn][..0] == [];
      assert Rejected(w.rows, RowIds([]), now) == w.rows;
      assert listed[0..] == listed;
    } else {
      BadCount(d, listed, i - 1);
      DecodedSoFar(d, w, now, marks, i - 1);
      DecodedOneMore(d, w, listed, now, i - 1);
      var section := DecodeNext(now, |Select(listed[..i - 1], Undecodable(d))| < marks);
      InterleavedSnoc(d, x, DecodeSections(d, listed, now, marks, i - 1), section);
    }
  }

  ghost predicate RowsOrdered(w: World) { Ordered(w.rows, w.nextId) }

  lemma {:induction false} BrokenOff(d: Decoding, w: World, now: int, marks: nat, i: nat)
    requires RowsOrdered(w) && i <= |Listed(w.rows, PROCESS_LIMIT)|
    requires marks < |Select(Listed(w.rows, PROCESS_LIMIT)[..i], Undecodable(d))|
    ensures var listed := Listed(w.rows, PROCESS_LIMIT);
      && marks < |Select(listed, Undecodable(d))|
      && Interleaved(d, Situation(w, None), DecodeSections(d, listed, now, marks, i))
         == Situation(w.(rows := Rejected(w.rows, RowIds(Select(listed, Undecodable(d))[..marks]), now)), None)
  {
    var listed, x := Listed(w.rows, PROCESS_LIMIT), Situation(w, None);
    BadCount(d, listed, i - 1);
    var section := DecodeNext(now, |Select(listed[..i - 1], Undecodable(d))| < marks);
    InterleavedSnoc(d, x, DecodeSections(d, listed, now, marks, i - 1), section);
    if marks < |Select(listed[..i - 1], Undecodable(d))| {
      BrokenOff(d, w, now, marks, i - 1);
    } else {
      DecodedSoFar(d, w, now, marks, i - 1);
      MarkFails(d, w, listed, now, i - 1);
    }
  }

  lemma MarkFails(d: Decoding, w: World, listed: seq<InboxRow>, now: int, i: nat)
    requires i < |listed| && DecodeRow(d, listed[i]).None?
    ensures var bad := Select(listed, Undecodable(d));
      var n := |Select(listed[..i], Undecodable(d))|;
      && n < |bad|
      && Advance(d, DecodedPart(d, w, listed, now, i), DecodeNext(now, false))
         == Situation(w.(rows := Rejected(w.rows, RowIds(bad[..n]), now)), None)
  {
    BrokenStep(d, listed, i);
    assert listed[i..][0] == listed[i];
  }

  /** A turn nothing interferes with, whatever fails in it, is the turn as one step. */
  lemma UndisturbedTurn(d: Decoding, w: World, now: int, f: TurnFaults)
    requires RowsOrdered(w)
    ensures Interleaved(d, Situation(w, None), TurnSections(d, w.rows, now, f))
      == Situation(Step(d, w, TurnStep(now, f)), None)
  {
    var listed, x := Listed(w.rows, PROCESS_LIMIT), Situation(w, None);
    TurnSectionsInOrder(d, w, now, f);
    assert listed[..|listed|] == listed;
    if f.decodeMarks < |Select(listed, Undecodable(d))| {
      BrokenOff(d, w, now, f.decodeMarks, |listed|);
      NothingOffered(w.tracked, f.insertCommits);
    } else {
      DecodedSoFar(d, w, now, f.decodeMarks, |listed|);
      DecodedTurn(d, w, now, f);
    }
  }

  lemma TurnSectionsInOrder(d: Decoding, w: World, now: int, f: TurnFaults)
    ensures var listed, x := Listed(w.rows, PROCESS_LIMIT), Situation(w, None);
      var y := Interleaved(d, x, DecodeSections(d, listed, now, f.decodeMarks, |listed|));
      Interleaved(d, x, TurnSections(d, w.rows, now, f))
      == Advance(d, Advance(d, Advance(d, y, InsertGood(f.insertCommits)), MarkGood(now, f.markCommits)), StopTurn)
  {
    var listed, x := Listed(w.rows, PROCESS_LIMIT), Situation(w, None);
    var decoding := DecodeSections(d, listed, now, f.decodeMarks, |listed|);
    InterleavedSnoc(d, x, decoding, InsertGood(f.insertCommits));
    InterleavedSnoc(d, x, decoding + [InsertGood(f.insertCommits)], MarkGood(now, f.markCommits));
    InterleavedSnoc(d, x, decoding + [InsertGood(f.insertCommits)] + [MarkGood(now, f.markCommits)], StopTurn);
  }

  lemma NothingOffered(t: BackfillRuns.Tracked, commits: bool)
    ensures BackfillRuns.Next(t, BackfillRuns.InsertStep([], commits)) == t
  {
    EmptyInsert(t.store);
  }

  lemma DecodedTurn(d: Decoding, w: World, now: int, f: TurnFaults)
    requires |Select(Listed(w.rows, PROCESS_LIMIT), Undecodable(d))| <= f.decodeMarks
    ensures var listed := Listed(w.rows, PROCESS_LIMIT);
      var y := Advance(d, DecodedPart(d, w, listed, now, |listed|), InsertGood(f.insertCommits));
      Advance(d, y, MarkGood(now, f.markCommits)).w == Step(d, w, TurnStep(now, f))
  {
    var listed := Listed(w.rows, PROCESS_LIMIT);
    assert listed[..|listed|] == listed;
    SelectedDecode(d, listed);
    NothingOffered(w.tracked, f.insertCommits);
  }

  /** So a turn as one step keeps the invariant, too. */
  lemma StepKeepsInv(d: Decoding, w: World, step: InboxStep)
    requires Inv(d, w) && DistinctKeys(d)
    ensures Inv(d, Step(d, w, step))
  {
    if step.TurnStep? {
      UndisturbedTurn(d, w, step.now, step.faults);
      SectionsKeepInv(d, Situation(w, None), TurnSections(d, w.rows, step.now, step.faults));
    } else {
      BackgroundKeepsInv(d, w, step);
    }
  }
}

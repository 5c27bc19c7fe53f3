/** What becomes of the rows of the inbox: no row blocks the others, and a row is discarded exactly after five
    failed turns (internal/service/redis_usage_processor.go, internal/repository/redis_usage_inbox.go). */
module InboxProgress {
  import opened Accounting
  import opened Aggregation
  import opened InboxInterleaving
  import opened InboxPipeline
  import opened InboxRuns
  import opened RedisInbox
  import BackfillRuns
  import UsageStore

  // Progress

  /** The failures a row can still take. */
  function Patience(r: InboxRow): int { if Processable(r) then MAX_PROCESS_ATTEMPTS - r.attempts else 0 }

  /** The patience of all rows up to an id. */
  function PatienceUpTo(rows: seq<InboxRow>, id: nat): int {
    if rows == [] then 0 else (if rows[0].id <= id then Patience(rows[0]) else 0) + PatienceUpTo(rows[1..], id)
  }

  predicate Patient(rows: seq<InboxRow>) {
    forall r :: r in rows ==> 0 <= Patience(r) && (Processable(r) ==> 0 < Patience(r))
  }

  lemma {:induction false} PatienceDrops(a: seq<InboxRow>, b: seq<InboxRow>, id: nat)
    requires |a| == |b| && forall i :: 0 <= i < |a| ==> a[i].id == b[i].id && Patience(b[i]) <= Patience(a[i])
    ensures PatienceUpTo(b, id) <= PatienceUpTo(a, id)
    ensures (exists i :: 0 <= i < |a| && a[i].id <= id && Patience(b[i]) < Patience(a[i])) ==>
      PatienceUpTo(b, id) < PatienceUpTo(a, id)
  {
    if a != [] {
      forall i | 0 <= i < |a[1..]|
        ensures a[1..][i].id == b[1..][i].id && Patience(b[1..][i]) <= Patience(a[1..][i])
      {
        assert a[1..][i] == a[i + 1] && b[1..][i] == b[i + 1];
      }
      PatienceDrops(a[1..], b[1..], id);
      if i :| 0 < i < |a| && a[i].id <= id && Patience(b[i]) < Patience(a[i]) {
        assert a[1..][i - 1] == a[i] && b[1..][i - 1] == b[i];
      }
    }
  }

  lemma {:induction false} PatienceZero(rows: seq<InboxRow>, id: nat)
    requires Patient(rows)
    ensures 0 <= PatienceUpTo(rows, id)
    ensures PatienceUpTo(rows, id) == 0 <==> forall r :: r in rows && r.id <= id ==> !Processable(r)
  {
    if rows != [] {
      assert rows == [rows[0]] + rows[1..];
      PatienceZero(rows[1..], id);
    }
  }

  lemma {:induction false} FirstOfSelected(rows: seq<InboxRow>, nextId: nat, r: InboxRow)
    requires Ordered(rows, nextId) && r in rows && Processable(r)
    ensures Select(rows, Processable) != [] && Select(rows, Processable)[0].id <= r.id
  {
    assert rows == [rows[0]] + rows[1..];
    if !Processable(rows[0]) {
      FirstOfSelected(rows[1..], nextId, r);
    }
  }

  /** If any row up to an id is processable, one of them is listed: the list starts at the lowest id. */
  lemma LowestIsListed(rows: seq<InboxRow>, nextId: nat, id: nat)
    requires Ordered(rows, nextId) && exists r :: r in rows && r.id <= id && Processable(r)
    ensures exists r :: r in rows && r.id <= id && Processable(r) && r in Listed(rows, PROCESS_LIMIT)
  {
    var r :| r in rows && r.id <= id && Processable(r);
    FirstOfSelected(rows, nextId, r);
    var first := Listed(rows, PROCESS_LIMIT)[0];
    ListedIn(rows, first);
  }

  lemma TurnSpends(d: Decoding, p: Intake, now: int, f: TurnFaults, i: nat)
    requires Ordered(p.rows, p.nextId) && Patient(p.rows) && Marked(d, p, f) && i < |p.rows|
    ensures var after := Turn(d, p, now, f).rows;
      && |after| == |p.rows| && after[i].id == p.rows[i].id && Patience(after[i]) <= Patience(p.rows[i])
      && (p.rows[i] in Listed(p.rows, PROCESS_LIMIT) ==> Patience(after[i]) < Patience(p.rows[i]))
  {
    var fate := TurnRow(d, p, now, f, i);
    ListedIn(p.rows, p.rows[i]);
    assert p.rows[i] in p.rows;
  }

  /** Rows that each keep their patience or lose some, and lose some when they are listed. */
  ghost predicate ListedSpend(rows: seq<InboxRow>, after: seq<InboxRow>) {
    |after| == |rows| && forall i :: 0 <= i < |rows| ==>
      && after[i].id == rows[i].id && Patience(after[i]) <= Patience(rows[i])
      && (rows[i] in Listed(rows, PROCESS_LIMIT) ==> Patience(after[i]) < Patience(rows[i]))
  }

  lemma {:induction false} ListedSpendSome(rows: seq<InboxRow>, nextId: nat, after: seq<InboxRow>, id: nat)
    requires Ordered(rows, nextId) && ListedSpend(rows, after)
    ensures PatienceUpTo(after, id) <= PatienceUpTo(rows, id)
    ensures (exists r :: r in rows && r.id <= id && Processable(r)) ==> PatienceUpTo(after, id) < PatienceUpTo(rows, id)
  {
    PatienceDrops(rows, after, id);
    if exists r :: r in rows && r.id <= id && Processable(r) {
      LowestIsListed(rows, nextId, id);
      var r :| r in rows && r.id <= id && Processable(r) && r in Listed(rows, PROCESS_LIMIT);
      var i: nat :| i < |rows| && rows[i] == r;
      assert Patience(after[i]) < Patience(rows[i]);
    }
  }

  lemma TurnKeepsLength(d: Decoding, p: Intake, now: int, f: TurnFaults)
    ensures |Turn(d, p, now, f).rows| == |p.rows|
  {
  }

  /** A turn whose marks are written spends patience of the lowest rows, whether or not its insert commits. */
  lemma {:induction false} MarkedTurnSpendsPatience(d: Decoding, p: Intake, now: int, f: TurnFaults, id: nat)
    requires Ordered(p.rows, p.nextId) && Patient(p.rows) && Marked(d, p, f)
    ensures PatienceUpTo(Turn(d, p, now, f).rows, id) <= PatienceUpTo(p.rows, id)
    ensures (exists r :: r in p.rows && r.id <= id && Processable(r)) ==>
      PatienceUpTo(Turn(d, p, now, f).rows, id) < PatienceUpTo(p.rows, id)
  {
    var after := Turn(d, p, now, f).rows;
    TurnKeepsLength(d, p, now, f);
    forall i: nat | i < |p.rows|
      ensures after[i].id == p.rows[i].id && Patience(after[i]) <= Patience(p.rows[i])
      ensures p.rows[i] in Listed(p.rows, PROCESS_LIMIT) ==> Patience(after[i]) < Patience(p.rows[i])
    {
      TurnSpends(d, p, now, f, i);
    }
    ListedSpendSome(p.rows, p.nextId, after, id);
  }

  /** A rolled-back insert is charged to every decodable row of the turn, whichever event caused it: the
      fifth one discards a row although its own event was never at fault. */
  lemma RolledBackTurnCharges(d: Decoding, p: Intake, now: int, f: TurnFaults, i: nat)
    requires Ordered(p.rows, p.nextId) && Marked(d, p, f) && !f.insertCommits && i < |p.rows|
    requires p.rows[i] in Listed(p.rows, PROCESS_LIMIT) && DecodeRow(d, p.rows[i]).Some?
    ensures var after := Turn(d, p, now, f).rows;
      && |after| == |p.rows| && after[i].attempts == p.rows[i].attempts + 1
      && (after[i].status.Discarded? <==> 4 <= p.rows[i].attempts)
      && (!after[i].status.Discarded? ==> after[i].status.ProcessFailed?)
  {
    var fate := TurnRow(d, p, now, f, i);
  }

  lemma {:induction false} PatienceAppend(a: seq<InboxRow>, b: seq<InboxRow>, id: nat)
    ensures PatienceUpTo(a + b, id) == PatienceUpTo(a, id) + PatienceUpTo(b, id)
  {
    if a == [] {
      assert a + b == b;
    } else {
      assert (a + b)[1..] == a[1..] + b;
      PatienceAppend(a[1..], b, id);
    }
  }

  lemma {:induction false} PatienceOfLater(rows: seq<InboxRow>, id: nat)
    requires forall r :: r in rows ==> id < r.id
    ensures PatienceUpTo(rows, id) == 0
  {
    if rows != [] {
      PatienceOfLater(rows[1..], id);
    }
  }

  lemma {:induction false} PatienceOfKept(rows: seq<InboxRow>, keep: InboxRow -> bool, id: nat)
    requires Patient(rows)
    ensures PatienceUpTo(Select(rows, keep), id) <= PatienceUpTo(rows, id)
  {
    if rows != [] {
      assert rows == [rows[0]] + rows[1..];
      PatienceOfKept(rows[1..], keep, id);
      if keep(rows[0]) {
        assert Select(rows, keep)[1..] == Select(rows[1..], keep);
      }
    }
  }

  lemma InvIsPatient(d: Decoding, w: World)
    requires RowsInv(d, w)
    ensures Patient(w.rows)
  {
    forall r | r in w.rows ensures 0 <= Patience(r) && (Processable(r) ==> 0 < Patience(r)) {
      assert RowInv(d, w, r);
    }
  }

  // Every interleaving

  /** A section that ends a turn with all of its marks written. */
  ghost predicate EndsMarked(x: Situation, section: Section) {
    x.turn.Some? && match section
      case MarkGood(_, commits) => commits && x.turn.value.inserted.Some?
      case StopTurn => x.turn.value.left == [] && x.turn.value.good == []
      case _ => false
  }

  ghost function MarkedTurns(d: Decoding, x: Situation, sections: seq<Section>): nat {
    if sections == [] then 0
    else
      var front, last := sections[..|sections| - 1], sections[|sections| - 1];
      MarkedTurns(d, x, front) + if EndsMarked(Interleaved(d, x, front), last) then 1 else 0
  }

  /** The turn under way holds a row up to an id that is still there. */
  ghost predicate Holds(w: World, turn: Option<TurnState>, id: nat) {
    turn.Some? && exists r :: (r in turn.value.left || r in turn.value.good) && r in w.rows && r.id <= id
  }

  /** The patience left, less what the turn under way is bound to spend, and one for its end. */
  ghost function Credit(x: Situation, id: nat): int {
    PatienceUpTo(x.w.rows, id) - (if Holds(x.w, x.turn, id) then 1 else 0) + if x.turn.Some? then 1 else 0
  }

  lemma {:induction false} PatienceOfDropped(rows: seq<InboxRow>, keep: InboxRow -> bool, id: nat, r: InboxRow)
    requires Patient(rows) && r in rows && r.id <= id && !keep(r)
    ensures PatienceUpTo(Select(rows, keep), id) + Patience(r) <= PatienceUpTo(rows, id)
  {
    assert rows == [rows[0]] + rows[1..];
    if rows[0] == r {
      PatienceOfKept(rows[1..], keep, id);
    } else {
      PatienceOfDropped(rows[1..], keep, id, r);
      if keep(rows[0]) {
        assert Select(rows, keep)[1..] == Select(rows[1..], keep);
      }
    }
  }

  lemma HeldIsPatient(w: World, r: InboxRow)
    requires Held(w, r)
    ensures 0 < Patience(r)
  {
  }

  ghost predicate Spends(x: Situation, y: Situation, id: nat, marked: bool) {
    && PatienceUpTo(y.w.rows, id) <= PatienceUpTo(x.w.rows, id)
    && (PatienceUpTo(y.w.rows, id) == 0 || Credit(y, id) + (if marked then 1 else 0) <= Credit(x, id))
  }

  lemma PullSpends(d: Decoding, x: Situation, step: InboxStep, id: nat)
    requires SituationInv(d, x) && id < x.w.nextId && step.PullStep?
    ensures Spends(x, x.(w := Step(d, x.w, step)), id, false)
  {
    var w' := Step(d, x.w, step);
    var added := w'.rows[|x.w.rows|..];
    assert w'.rows == x.w.rows + added;
    PatienceAppend(x.w.rows, added, id);
    PatienceOfLater(added, id);
    assert Holds(w', x.turn, id) <==> Holds(x.w, x.turn, id);
  }

  lemma CleanupSpends(d: Decoding, x: Situation, step: InboxStep, id: nat)
    requires SituationInv(d, x) && id < x.w.nextId && step.CleanupStep?
    ensures Spends(x, x.(w := Step(d, x.w, step)), id, false)
  {
    var w', keep := Step(d, x.w, step), Retained(step.processedCutoff, step.failedCutoff);
    InvIsPatient(d, x.w);
    PatienceOfKept(x.w.rows, keep, id);
    SelectOrdered(x.w.rows, x.w.nextId, keep);
    if Holds(x.w, x.turn, id) && !Holds(w', x.turn, id) {
      var t := x.turn.value;
      var r :| (r in t.left || r in t.good) && r in x.w.rows && r.id <= id;
      SelectIn(x.w.rows, keep, r);
      HeldIsPatient(x.w, r);
      PatienceOfDropped(x.w.rows, keep, id, r);
    }
  }

  lemma BeginSpends(d: Decoding, w: World, id: nat)
    requires Inv(d, w) && id < w.nextId
    ensures Spends(Situation(w, None), Situation(w, Some(TurnState(Listed(w.rows, PROCESS_LIMIT), [], None))), id,
                   false)
  {
    InvIsPatient(d, w);
    PatienceZero(w.rows, id);
    if PatienceUpTo(w.rows, id) != 0 {
      LowestIsListed(w.rows, w.nextId, id);
      var t := TurnState(Listed(w.rows, PROCESS_LIMIT), [], None);
      var r :| r in w.rows && r.id <= id && Processable(r) && r in Listed(w.rows, PROCESS_LIMIT);
      assert r in t.left;
    }
  }

  /** A rejected row has no patience left; the other rows keep theirs. */
  lemma RejectSpends(d: Decoding, w: World, r: InboxRow, now: int, id: nat)
    requires Inv(d, w) && Held(w, r)
    ensures var rows := Rejected(w.rows, {r.id}, now);
      && PatienceUpTo(rows, id) <= PatienceUpTo(w.rows, id)
      && (r in w.rows && r.id <= id ==> PatienceUpTo(rows, id) < PatienceUpTo(w.rows, id))
  {
    var rows := Rejected(w.rows, {r.id}, now);
    InvIsPatient(d, w);
    HeldIsPatient(w, r);
    forall i | 0 <= i < |w.rows| ensures w.rows[i].id == rows[i].id && Patience(rows[i]) <= Patience(w.rows[i]) {
      assert w.rows[i] in w.rows;
    }
    PatienceDrops(w.rows, rows, id);
    if r in w.rows && r.id <= id {
      var i :| 0 <= i < |w.rows| && w.rows[i] == r;
      assert Patience(rows[i]) < Patience(w.rows[i]);
    }
  }

  lemma OtherRowStays(rows: seq<InboxRow>, rejected: nat, now: int, s: InboxRow)
    requires s.id != rejected
    ensures s in Rejected(rows, {rejected}, now) <==> s in rows
  {
    var after := Rejected(rows, {rejected}, now);
    if s in rows {
      var i :| 0 <= i < |rows| && rows[i] == s;
      assert after[i] == s;
    }
    if s in after {
      var i :| 0 <= i < |after| && after[i] == s;
      assert rows[i] == s;
    }
  }

  lemma DecodeSpends(d: Decoding, w: World, t: TurnState, now: int, marks: bool, id: nat)
    requires Inv(d, w) && TurnInv(d, w, t)
    ensures Spends(Situation(w, Some(t)), DecodeOne(d, w, t, now, marks), id, false)
  {
    if t.left != [] && t.inserted.None? {
      var r, rest := t.left[0], t.left[1..];
      assert t.left == [r] + rest;
      if DecodeRow(d, r).Some? {
        var t' := t.(left := rest, good := t.good + [r]);
        assert Holds(w, Some(t'), id) <==> Holds(w, Some(t), id);
      } else if marks {
        var t', w' := t.(left := rest), w.(rows := Rejected(w.rows, {r.id}, now));
        AscendingDrops(t.good, t.left);
        RejectSpends(d, w, r, now, id);
        if Holds(w, Some(t), id) && !(r in w.rows && r.id <= id) {
          var s :| (s in t.left || s in t.good) && s in w.rows && s.id <= id;
          OtherRowStays(w.rows, r.id, now, s);
          assert s in t'.left || s in t'.good;
          assert Holds(w', Some(t'), id);
        }
      }
    }
  }

  lemma MarkSpends(d: Decoding, w: World, t: TurnState, now: int, commits: bool, id: nat)
    requires Inv(d, w) && TurnInv(d, w, t)
    ensures Spends(Situation(w, Some(t)), MarkAll(d, w, t, now, commits), id, commits && t.inserted.Some?)
  {
    if commits && t.inserted.Some? {
      var rows := MarkAll(d, w, t, now, true).w.rows;
      forall i | 0 <= i < |w.rows|
        ensures |rows| == |w.rows| && w.rows[i].id == rows[i].id && Patience(rows[i]) <= Patience(w.rows[i])
        ensures w.rows[i] in t.good ==> Patience(rows[i]) < Patience(w.rows[i])
      {
        MarkedPatience(d, w, t, now, i);
      }
      MarkLength(d, w, t, now);
      PatienceDrops(w.rows, rows, id);
      if Holds(w, Some(t), id) {
        var r :| r in t.good && r in w.rows && r.id <= id;
        var i :| 0 <= i < |w.rows| && w.rows[i] == r;
        assert Patience(rows[i]) < Patience(w.rows[i]);
      }
    }
  }

  lemma MarkedPatience(d: Decoding, w: World, t: TurnState, now: int, i: nat)
    requires Inv(d, w) && TurnInv(d, w, t) && t.inserted.Some? && i < |w.rows|
    ensures var rows := MarkAll(d, w, t, now, true).w.rows;
      && |rows| == |w.rows| && w.rows[i].id == rows[i].id && Patience(rows[i]) <= Patience(w.rows[i])
      && (w.rows[i] in t.good ==> Patience(rows[i]) < Patience(w.rows[i]))
  {
    var r := w.rows[i];
    MarkOfRow(d, t.good, r.id);
    HeldRow(w, t.good, i);
    if r in t.good {
      HeldIsPatient(w, r);
    }
  }

  lemma BackgroundSpends(d: Decoding, x: Situation, step: InboxStep, id: nat)
    requires SituationInv(d, x) && id < x.w.nextId && !step.TurnStep?
    ensures Spends(x, x.(w := Step(d, x.w, step)), id, false)
  {
    match step
    case PullStep(_, _, _) => PullSpends(d, x, step, id);
    case CleanupStep(_, _) => CleanupSpends(d, x, step, id);
    case BackfillStep(_) =>
  }

  lemma InsertSpends(d: Decoding, x: Situation, commits: bool, id: nat)
    ensures Spends(x, Advance(d, x, InsertGood(commits)), id, false)
  {
    var y := Advance(d, x, InsertGood(commits));
    assert y.w.rows == x.w.rows;
    assert Holds(y.w, y.turn, id) <==> Holds(x.w, x.turn, id);
  }

  lemma StopSpends(x: Situation, id: nat)
    ensures Spends(x, x.(turn := None), id, EndsMarked(x, StopTurn))
  {
  }

  /** No section takes patience back, and every turn that ends with its marks written has spent some. */
  lemma SectionSpends(d: Decoding, x: Situation, section: Section, id: nat)
    requires SituationInv(d, x) && id < x.w.nextId
    ensures x.w.nextId <= Advance(d, x, section).w.nextId
    ensures Spends(x, Advance(d, x, section), id, EndsMarked(x, section))
  {
    match section
    case Background(step) => if !step.TurnStep? { BackgroundSpends(d, x, step, id); }
    case BeginTurn => if x.turn.None? { BeginSpends(d, x.w, id); }
    case DecodeNext(now, marks) => if x.turn.Some? { DecodeSpends(d, x.w, x.turn.value, now, marks, id); }
    case InsertGood(commits) => InsertSpends(d, x, commits, id);
    case MarkGood(now, commits) => if x.turn.Some? { MarkSpends(d, x.w, x.turn.value, now, commits, id); }
    case StopTurn => StopSpends(x, id);
  }

  lemma {:induction false} SectionsSpend(d: Decoding, x: Situation, sections: seq<Section>, id: nat)
    requires SituationInv(d, x) && DistinctKeys(d) && id < x.w.nextId
    ensures var y := Interleaved(d, x, sections);
      && SituationInv(d, y) && x.w.nextId <= y.w.nextId
      && (PatienceUpTo(y.w.rows, id) == 0 || Credit(y, id) + MarkedTurns(d, x, sections) <= Credit(x, id))
  {
    if sections != [] {
      var front, last := sections[..|sections| - 1], sections[|sections| - 1];
      SectionsSpend(d, x, front, id);
      var mid := Interleaved(d, x, front);
      SectionSpends(d, mid, last, id);
      SectionKeepsInv(d, mid, last);
      InvIsPatient(d, Advance(d, mid, last).w);
      PatienceZero(Advance(d, mid, last).w.rows, id);
    }
  }

  /** Nothing blocks the inbox: from any reachable situation, once as many turns have ended with their marks
      written as the rows up to an id can still fail, none of these rows is left to process, whatever fails,
      crashes, arrives or is cleaned up meanwhile, also inside the turns. */
  lemma EveryRowIsDecided(d: Decoding, x: Situation, sections: seq<Section>, id: nat)
    requires SituationInv(d, x) && DistinctKeys(d) && id < x.w.nextId
    requires PatienceUpTo(x.w.rows, id) + (if x.turn.Some? then 1 else 0) <= MarkedTurns(d, x, sections)
    ensures forall r :: r in Interleaved(d, x, sections).w.rows && r.id <= id ==> !Processable(r)
  {
    var y := Interleaved(d, x, sections);
    SectionsSpend(d, x, sections, id);
    InvIsPatient(d, y.w);
    PatienceZero(y.w.rows, id);
  }

  // Discarded rows

  /** A section that charges a row: the mark after a failed insert of a turn that decoded the row. */
  ghost predicate ChargesRow(x: Situation, section: Section, id: nat) {
    && section.MarkGood? && section.commits
    && x.turn.Some? && x.turn.value.inserted == Some(false) && id in RowIds(x.turn.value.good)
  }

  ghost function RowCharges(d: Decoding, x: Situation, sections: seq<Section>, id: nat): nat {
    if sections == [] then 0
    else
      var front, last := sections[..|sections| - 1], sections[|sections| - 1];
      RowCharges(d, x, front, id) + if ChargesRow(Interleaved(d, x, front), last, id) then 1 else 0
  }

  /** The attempts of a row are its charges, and one for being undecodable. */
  predicate Accounts(r: InboxRow, charges: int) { r.attempts == charges + if r.status.DecodeFailed? then 1 else 0 }

  ghost predicate AllAccounted(w: World, charges: nat -> int) {
    && (forall r :: r in w.rows ==> Accounts(r, charges(r.id)))
    && forall id :: w.nextId <= id ==> charges(id) == 0
  }

  ghost function ChargesAfter(x: Situation, section: Section, charges: nat -> int): nat -> int {
    (id: nat) => charges(id) + if ChargesRow(x, section, id) then 1 else 0
  }

  lemma NobodyIsCharged(d: Decoding, x: Situation, section: Section, id: nat)
    requires SituationInv(d, x) && x.w.nextId <= id
    ensures !ChargesRow(x, section, id)
  {
  }

  lemma BackgroundAccounts(d: Decoding, w: World, step: InboxStep, charges: nat -> int, r: InboxRow)
    requires RowsInv(d, w) && AllAccounted(w, charges) && !step.TurnStep? && r in Step(d, w, step).rows
    ensures Accounts(r, charges(r.id))
  {
    var w' := Step(d, w, step);
    match step
    case PullStep(messages, now, commits) =>
      var added := w'.rows[|w.rows|..];
      assert w'.rows == w.rows + added;
      if r !in w.rows {
        var i :| 0 <= i < |added| && added[i] == r;
        assert r.id == w.nextId + i && r.attempts == 0;
      }
    case CleanupStep(processedCutoff, failedCutoff) =>
      SelectIn(w.rows, Retained(processedCutoff, failedCutoff), r);
    case BackfillStep(_) =>
  }

  lemma DecodeAccounts(d: Decoding, w: World, t: TurnState, now: int, marks: bool, charges: nat -> int, r: InboxRow)
    requires TurnInv(d, w, t) && AllAccounted(w, charges) && r in DecodeOne(d, w, t, now, marks).w.rows
    ensures Accounts(r, charges(r.id))
  {
    var rows := DecodeOne(d, w, t, now, marks).w.rows;
    var i :| 0 <= i < |rows| && rows[i] == r;
    assert |rows| == |w.rows| && w.rows[i] in w.rows;
    if t.left != [] { assert t.left[0] in t.left && Held(w, t.left[0]); }
  }

  lemma MarkAccounts(d: Decoding, w: World, t: TurnState, now: int, commits: bool, charges: nat -> int, r: InboxRow)
    requires Inv(d, w) && TurnInv(d, w, t) && AllAccounted(w, charges) && r in MarkAll(d, w, t, now, commits).w.rows
    ensures var charged := ChargesRow(Situation(w, Some(t)), MarkGood(now, commits), r.id);
      Accounts(r, charges(r.id) + if charged then 1 else 0)
  {
    var rows := MarkAll(d, w, t, now, commits).w.rows;
    var i: nat :| i < |rows| && rows[i] == r;
    assert |rows| == |w.rows| && w.rows[i] in w.rows;
    if commits && t.inserted.Some? {
      MarkOfRow(d, t.good, w.rows[i].id);
      HeldRow(w, t.good, i);
    }
  }

  lemma RowAccounts(d: Decoding, x: Situation, section: Section, charges: nat -> int, r: InboxRow)
    requires SituationInv(d, x) && AllAccounted(x.w, charges) && r in Advance(d, x, section).w.rows
    ensures Accounts(r, charges(r.id) + if ChargesRow(x, section, r.id) then 1 else 0)
  {
    match section
    case Background(step) => if !step.TurnStep? { BackgroundAccounts(d, x.w, step, charges, r); }
    case BeginTurn =>
    case DecodeNext(now, marks) =>
      if x.turn.Some? { DecodeAccounts(d, x.w, x.turn.value, now, marks, charges, r); }
    case InsertGood(commits) =>
    case MarkGood(now, commits) =>
      if x.turn.Some? { MarkAccounts(d, x.w, x.turn.value, now, commits, charges, r); }
    case StopTurn =>
  }

  lemma IdsGrow(d: Decoding, x: Situation, section: Section)
    ensures x.w.nextId <= Advance(d, x, section).w.nextId
  {
  }

  lemma SectionAccounts(d: Decoding, x: Situation, section: Section, charges: nat -> int)
    requires SituationInv(d, x) && AllAccounted(x.w, charges)
    ensures AllAccounted(Advance(d, x, section).w, ChargesAfter(x, section, charges))
  {
    var w', after := Advance(d, x, section).w, ChargesAfter(x, section, charges);
    IdsGrow(d, x, section);
    forall id: nat | w'.nextId <= id ensures after(id) == 0 {
      NobodyIsCharged(d, x, section, id);
    }
    forall r | r in w'.rows ensures Accounts(r, after(r.id)) {
      RowAccounts(d, x, section, charges, r);
    }
  }

  ghost function ChargesOf(d: Decoding, x: Situation, sections: seq<Section>): nat -> int {
    (id: nat) => RowCharges(d, x, sections, id)
  }

  lemma {:induction false} SectionsAccount(d: Decoding, w: World, sections: seq<Section>)
    requires Initial(d, w) && DistinctKeys(d)
    ensures AllAccounted(After(d, w, sections), ChargesOf(d, Situation(w, None), sections))
  {
    if sections != [] {
      var x, front, last := Situation(w, None), sections[..|sections| - 1], sections[|sections| - 1];
      SectionsAccount(d, w, front);
      InterleavingKeepsInv(d, w, front);
      SectionAccounts(d, Interleaved(d, x, front), last, ChargesOf(d, x, front));
      forall id: nat
        ensures ChargesOf(d, x, sections)(id)
          == ChargesAfter(Interleaved(d, x, front), last, ChargesOf(d, x, front))(id)
      {
      }
    }
  }

  /** In every interleaving: a row is discarded if and only if five turns that decoded it failed to insert and had
      the failure marked; no row is charged more often, and a processed row less than five times. */
  lemma DiscardedIff(d: Decoding, w: World, sections: seq<Section>, r: InboxRow)
    requires Initial(d, w) && DistinctKeys(d) && r in After(d, w, sections).rows
    ensures var charges := RowCharges(d, Situation(w, None), sections, r.id);
      && charges <= 5 && (r.status.Discarded? <==> charges == 5)
      && (r.status.ProcessFailed? ==> r.attempts == charges && 0 < charges)
  {
    SectionsAccount(d, w, sections);
    InterleavingKeepsInv(d, w, sections);
    assert RowInv(d, After(d, w, sections), r);
    assert Accounts(r, ChargesOf(d, Situation(w, None), sections)(r.id));
  }

  // Five failed turns

  const ROLLED_BACK := TurnFaults(0, false, true)

  /** A turn over one decodable row whose insert rolls back. */
  lemma RollbackTurn(d: Decoding, w: World, r: InboxRow, now: int)
    requires RowsOrdered(w) && w.rows == [r] && Processable(r) && DecodeRow(d, r).Some?
    ensures var w' := Step(d, w, TurnStep(now, ROLLED_BACK));
      w'.rows == [FailRow(r, now)] && w'.tracked == w.tracked
  {
    SelectSingle(r, Processable);
    SelectSingle(r, Undecodable(d));
    var fate := TurnRow(d, Tables(w), now, ROLLED_BACK, 0);
  }

  function RollbackSteps(nows: seq<int>): seq<InboxStep> {
    seq(|nows|, i requires 0 <= i < |nows| => TurnStep(nows[i], ROLLED_BACK))
  }

  /** A row after `n` failed turns. */
  predicate FailedSoOften(r: InboxRow, first: InboxRow, n: nat) {
    && SameMessage(r, first) && r.attempts == n
    && (if n == 0 then r.status.Pending? else if n < 5 then r.status.ProcessFailed? else r.status.Discarded?)
  }

  lemma {:induction false} RollbackSnoc(d: Decoding, w: World, front: seq<int>, last: int)
    ensures Run(d, w, RollbackSteps(front + [last]))
      == Step(d, Run(d, w, RollbackSteps(front)), TurnStep(last, ROLLED_BACK))
  {
    var steps := RollbackSteps(front + [last]);
    assert steps[..|steps| - 1] == RollbackSteps(front) && steps[|steps| - 1] == TurnStep(last, ROLLED_BACK);
  }

  lemma FailedOnceMore(r: InboxRow, first: InboxRow, n: nat, now: int)
    requires FailedSoOften(r, first, n) && n < 5
    ensures Processable(r) && FailedSoOften(FailRow(r, now), first, n + 1)
  {
  }

  lemma SameRowOrdered(d: Decoding, w: World, v: World, first: InboxRow, r: InboxRow)
    requires RowsOrdered(w) && w.rows == [first] && v.rows == [r] && v.nextId == w.nextId && SameMessage(r, first)
    ensures RowsOrdered(v) && DecodeRow(d, r) == DecodeRow(d, first)
  {
    assert w.rows[0].id == first.id;
  }

  lemma {:induction false} RollbackTurns(d: Decoding, w: World, first: InboxRow, nows: seq<int>) returns (r: InboxRow)
    requires RowsOrdered(w) && w.rows == [first] && FailedSoOften(first, first, 0) && DecodeRow(d, first).Some?
    requires |nows| <= 5
    ensures var v := Run(d, w, RollbackSteps(nows)); v.tracked == w.tracked && v.nextId == w.nextId && v.rows == [r]
    ensures FailedSoOften(r, first, |nows|)
  {
    if nows == [] {
      r := first;
    } else {
      var front, last := nows[..|nows| - 1], nows[|nows| - 1];
      assert nows == front + [last];
      var before := RollbackTurns(d, w, first, front);
      var v := Run(d, w, RollbackSteps(front));
      FailedOnceMore(before, first, |front|, last);
      SameRowOrdered(d, w, v, first, before);
      RollbackTurn(d, v, before, last);
      RollbackSnoc(d, w, front, last);
      r := FailRow(before, last);
    }
  }

  /** Five turns in which nothing but the insert transaction fails discard a decodable row whose own event was never
      at fault, and store nothing. */
  lemma {:induction false} FiveRollbacksDiscard(d: Decoding, w: World, r: InboxRow, nows: seq<int>)
    requires RowsOrdered(w) && w.rows == [r] && r.status.Pending? && r.attempts == 0 && DecodeRow(d, r).Some?
    requires |nows| == 5
    ensures var v := Run(d, w, RollbackSteps(nows));
      && |v.rows| == 1 && v.rows[0].id == r.id && v.rows[0].status.Discarded? && v.rows[0].attempts == 5
      && v.tracked.store == w.tracked.store
  {
    var last := RollbackTurns(d, w, r, nows);
  }

  lemma {:induction false} RunAppend(d: Decoding, w: World, a: seq<InboxStep>, b: seq<InboxStep>)
    ensures Run(d, w, a + b) == Run(d, Run(d, w, a), b)
  {
    if b == [] {
      assert a + b == a;
    } else {
      var front, last := b[..|b| - 1], b[|b| - 1];
      assert (a + b)[..|a + b| - 1] == a + front && (a + b)[|a + b| - 1] == last;
      RunAppend(d, w, a, front);
    }
  }

  lemma {:induction false} RunOne(d: Decoding, w: World, step: InboxStep)
    ensures Run(d, w, [step]) == Step(d, w, step)
  {
    assert [step][..0] == [] && Run(d, w, []) == w;
  }

  /** A popped message stands for an event, its row was discarded, and the event is not stored. */
  ghost predicate DecodableButDiscarded(d: Decoding, v: World, id: nat) {
    && |v.rows| == 1 && v.rows[0].id == id && v.rows[0].status.Discarded?
    && id in v.popped && EventOfPopped(d, v, id).Some? && !HasEvent(v, d.key(id))
  }

  /** One pending row that stands for an event, which is not stored. */
  ghost predicate OnePending(d: Decoding, w: World, r: InboxRow) {
    && RowsOrdered(w) && w.rows == [r] && r.status.Pending? && r.attempts == 0
    && DecodeRow(d, r).Some? && !HasEvent(w, d.key(r.id))
    && r.id in w.popped && w.popped[r.id] == Popped(r.message, r.poppedAt)
  }

  lemma PulledRows(d: Decoding, w: World, message: string, now: int) returns (r: InboxRow)
    requires w.rows == [] && d.replaySafe(message).Some?
    ensures var v := Step(d, w, PullStep([message], now, true));
      v.rows == [r] && v.nextId == w.nextId + 1 && v.tracked == w.tracked
        && v.popped == w.popped + PoppedAs([r], w.nextId)
    ensures r == InboxRow(w.nextId, d.replaySafe(message).value, Some(now), InboxStatus.Pending, 0, "", None, now)
  {
    assert AllSafe(d, [message]);
    var added := NewRows(SafeInserts(d, [message], now), w.nextId, now);
    var v := Step(d, w, PullStep([message], now, true));
    assert v.rows == w.rows + added && v.rows[|w.rows|..] == added;
    r := added[0];
    assert added == [r];
  }

  /** A pull of one message into an empty inbox. */
  lemma PullOne(d: Decoding, w: World, message: string, now: int) returns (mid: World, r: InboxRow)
    requires Initial(d, w) && d.replaySafe(message).Some? && d.decode(d.replaySafe(message).value, now).Some?
    ensures mid == Run(d, w, [PullStep([message], now, true)]) && OnePending(d, mid, r) && r.id == w.first
  {
    mid := Step(d, w, PullStep([message], now, true));
    RunOne(d, w, PullStep([message], now, true));
    r := PulledRows(d, w, message, now);
  }

  lemma {:induction false} DiscardedWithoutEvent(d: Decoding, w: World, r: InboxRow, nows: seq<int>)
    requires OnePending(d, w, r) && |nows| == 5
    ensures DecodableButDiscarded(d, Run(d, w, RollbackSteps(nows)), r.id)
  {
    FiveRollbacksDiscard(d, w, r, nows);
    RollbacksKeepPopped(d, w, RollbackSteps(nows));
  }

  /** From the start of a run: the message is popped, decodes, and is discarded without its event. */
  lemma {:induction false} PoppedThenDiscarded(d: Decoding, w: World, message: string, now: int, nows: seq<int>)
    requires Initial(d, w) && d.replaySafe(message).Some? && d.decode(d.replaySafe(message).value, now).Some?
    requires |nows| == 5
    ensures DecodableButDiscarded(d, Run(d, w, [PullStep([message], now, true)] + RollbackSteps(nows)), w.first)
  {
    var mid, r := PullOne(d, w, message, now);
    DiscardedWithoutEvent(d, mid, r, nows);
    RunAppend(d, w, [PullStep([message], now, true)], RollbackSteps(nows));
  }

  lemma {:induction false} RollbacksKeepPopped(d: Decoding, w: World, steps: seq<InboxStep>)
    requires forall step :: step in steps ==> step.TurnStep?
    ensures Run(d, w, steps).popped == w.popped
  {
    if steps != [] {
      RollbacksKeepPopped(d, w, steps[..|steps| - 1]);
      assert steps[|steps| - 1] in steps;
    }
  }
}

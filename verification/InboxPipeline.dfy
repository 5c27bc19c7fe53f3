/** One pull and one processing turn: popped messages become inbox rows, inbox rows become usage events
    (internal/service/redis_usage_intake.go, redis_usage_processor.go). */
module InboxPipeline {
  import opened Accounting
  import opened Aggregation
  import opened RedisInbox
  import opened UsageEvents
  import UsageDatabase
  import UsageStore

  /** What the queue messages mean: the replay-safe projection of a popped message, its decoding, and the
      event key of an inbox row. */
  datatype Decoding = Decoding(
    replaySafe: string -> Option<string>,
    decode: (string, int) -> Option<UsageEvent>,
    key: nat -> string)

  /** The event that the popped message of an inbox id stands for. */
  function EventOf(d: Decoding, id: nat, message: string, poppedAt: Option<int>): Option<UsageEvent> {
    if poppedAt.None? then None
    else match d.decode(message, poppedAt.value)
      case None => None
      case Some(e) => Some(e.(eventKey := d.key(id)))
  }

  function DecodeRow(d: Decoding, r: InboxRow): Option<UsageEvent> { EventOf(d, r.id, r.message, r.poppedAt) }

  function Decodes(d: Decoding): InboxRow -> bool { (r: InboxRow) => DecodeRow(d, r).Some? }

  function Undecodable(d: Decoding): InboxRow -> bool { (r: InboxRow) => DecodeRow(d, r).None? }

  function RowIds(rows: seq<InboxRow>): set<nat> { set r | r in rows :: r.id }

  predicate AllDecode(d: Decoding, rows: seq<InboxRow>) { forall r :: r in rows ==> DecodeRow(d, r).Some? }

  function EventsOf(d: Decoding, rows: seq<InboxRow>): (es: seq<UsageEvent>)
    requires AllDecode(d, rows)
    ensures |es| == |rows|
  {
    seq(|rows|, i requires 0 <= i < |rows| => DecodeRow(d, rows[i]).value)
  }

  function MarksOf(d: Decoding, rows: seq<InboxRow>): (ms: seq<ProcessedMark>)
    ensures |ms| == |rows|
  {
    seq(|rows|, i requires 0 <= i < |rows| => ProcessedMark(rows[i].id, d.key(rows[i].id)))
  }

  function IdsOf(rows: seq<InboxRow>): (ids: seq<nat>)
    ensures |ids| == |rows|
  {
    seq(|rows|, i requires 0 <= i < |rows| => rows[i].id)
  }

  datatype Intake = Intake(rows: seq<InboxRow>, nextId: nat, store: UsageStore.Store)

  /** What goes wrong in a turn: how many decode-failure marks are written before one fails or the process
      stops, whether the insert transaction commits, and whether the mark after it is written. */
  datatype TurnFaults = TurnFaults(decodeMarks: nat, insertCommits: bool, markCommits: bool)

  const PROCESS_LIMIT := 1000

  /** The insert, and then the mark of the decodable rows of a turn. */
  function Persist(d: Decoding, p: Intake, rows: seq<InboxRow>, good: seq<InboxRow>, now: int, f: TurnFaults): Intake
    requires AllDecode(d, good)
  {
    var events := EventsOf(d, good);
    var marked :=
      if !f.markCommits then rows
      else if f.insertCommits && UsageStore.AllAdmissible(events) then Completed(rows, MarksOf(d, good), now)
      else Failed(rows, RowIds(good), now);
    p.(rows := marked, store := UsageStore.InsertCall(p.store, events, f.insertCommits))
  }

  lemma SelectedDecode(d: Decoding, rows: seq<InboxRow>)
    ensures AllDecode(d, Select(rows, Decodes(d)))
  {
    forall r | r in Select(rows, Decodes(d)) ensures DecodeRow(d, r).Some? {
      SelectIn(rows, Decodes(d), r);
    }
  }

  /** One processing turn. */
  function Turn(d: Decoding, p: Intake, now: int, f: TurnFaults): Intake {
    var listed := Listed(p.rows, PROCESS_LIMIT);
    var bad, good := Select(listed, Undecodable(d)), Select(listed, Decodes(d));
    if f.decodeMarks < |bad| then p.(rows := Rejected(p.rows, RowIds(bad[..f.decodeMarks]), now))
    else
      var rows := Rejected(p.rows, RowIds(bad), now);
      if good == [] then p.(rows := rows)
      else
        SelectedDecode(d, listed);
        Persist(d, p, rows, good, now, f)
  }

  predicate AllSafe(d: Decoding, messages: seq<string>) { forall m :: m in messages ==> d.replaySafe(m).Some? }

  function SafeInserts(d: Decoding, messages: seq<string>, at: int): (r: seq<Insert>)
    requires AllSafe(d, messages)
    ensures |r| == |messages|
  {
    seq(|messages|, i requires 0 <= i < |messages| => Insert(d.replaySafe(messages[i]).value, Some(at)))
  }

  /** One destructive pull: all popped messages become pending rows, or all of them are lost. */
  function Pulled(d: Decoding, p: Intake, messages: seq<string>, now: int, commits: bool): Intake {
    if !commits || !AllSafe(d, messages) then p
    else p.(rows := p.rows + NewRows(SafeInserts(d, messages, now), p.nextId, now), nextId := p.nextId + |messages|)
  }

  datatype Outcome = Empty | Failure | CompletedWith(inserted: int, deduped: int, warnings: bool)

  lemma {:induction false} SelectCount(rows: seq<InboxRow>, p: InboxRow -> bool, q: InboxRow -> bool)
    requires forall r :: r in rows ==> p(r) != q(r)
    ensures |Select(rows, p)| + |Select(rows, q)| == |rows|
  {
    if rows != [] {
      SelectCount(rows[1..], p, q);
    }
  }

  lemma RowIdsSnoc(rows: seq<InboxRow>, r: InboxRow)
    ensures RowIds(rows + [r]) == RowIds(rows) + {r.id}
  {
  }

  lemma RejectedStep(rows: seq<InboxRow>, ids: set<nat>, id: nat, now: int)
    requires id !in ids
    ensures Rejected(Rejected(rows, ids, now), {id}, now) == Rejected(rows, ids + {id}, now)
  {
  }

  lemma ListedDistinct(rows: seq<InboxRow>, nextId: nat)
    requires Ordered(rows, nextId)
    ensures Ordered(Listed(rows, PROCESS_LIMIT), nextId)
  {
    SelectOrdered(rows, nextId, Processable);
  }

  lemma SelectedBefore(listed: seq<InboxRow>, nextId: nat, i: nat, keep: InboxRow -> bool)
    requires Ordered(listed, nextId) && i < |listed|
    ensures listed[i].id !in RowIds(Select(listed[..i], keep))
  {
    forall r | r in Select(listed[..i], keep) ensures r.id != listed[i].id {
      SelectIn(listed[..i], keep, r);
    }
  }

  lemma BadStep(d: Decoding, rows: seq<InboxRow>, listed: seq<InboxRow>, nextId: nat, i: nat, now: int)
    requires Ordered(listed, nextId) && i < |listed| && DecodeRow(d, listed[i]).None?
    ensures Select(listed[..i + 1], Decodes(d)) == Select(listed[..i], Decodes(d))
    ensures |Select(listed[..i + 1], Undecodable(d))| == |Select(listed[..i], Undecodable(d))| + 1
    ensures Rejected(Rejected(rows, RowIds(Select(listed[..i], Undecodable(d))), now), {listed[i].id}, now)
         == Rejected(rows, RowIds(Select(listed[..i + 1], Undecodable(d))), now)
  {
    var bad := Select(listed[..i], Undecodable(d));
    SelectStep(listed, i, Undecodable(d));
    SelectStep(listed, i, Decodes(d));
    SelectedBefore(listed, nextId, i, Undecodable(d));
    RejectedStep(rows, RowIds(bad), listed[i].id, now);
    RowIdsSnoc(bad, listed[i]);
  }

  lemma GoodStep(d: Decoding, listed: seq<InboxRow>, i: nat)
    requires i < |listed| && DecodeRow(d, listed[i]).Some?
    ensures Select(listed[..i + 1], Undecodable(d)) == Select(listed[..i], Undecodable(d))
    ensures Select(listed[..i + 1], Decodes(d)) == Select(listed[..i], Decodes(d)) + [listed[i]]
    ensures AllDecode(d, Select(listed[..i], Decodes(d))) && AllDecode(d, Select(listed[..i + 1], Decodes(d)))
    ensures EventsOf(d, Select(listed[..i + 1], Decodes(d)))
      == EventsOf(d, Select(listed[..i], Decodes(d))) + [DecodeRow(d, listed[i]).value]
  {
    SelectStep(listed, i, Undecodable(d));
    SelectStep(listed, i, Decodes(d));
    SelectedDecode(d, listed[..i]);
  }

  lemma BrokenStep(d: Decoding, listed: seq<InboxRow>, i: nat)
    requires i < |listed| && DecodeRow(d, listed[i]).None?
    ensures var n := |Select(listed[..i], Undecodable(d))|;
      n < |Select(listed, Undecodable(d))| && Select(listed, Undecodable(d))[..n] == Select(listed[..i], Undecodable(d))
  {
    SelectStep(listed, i, Undecodable(d));
    assert listed == listed[..i + 1] + listed[i + 1..];
    SelectAppend(listed[..i + 1], listed[i + 1..], Undecodable(d));
  }

  lemma MarksOfRows(d: Decoding, rows: seq<InboxRow>, nextId: nat)
    requires Ordered(rows, nextId)
    ensures DistinctMarks(MarksOf(d, rows)) && Distinct(IdsOf(rows)) && Ids(IdsOf(rows)) == RowIds(rows)
  {
    IdsAreRowIds(rows);
  }

  /** The intake over its two tables. */
  class UsageIntake {
    const inbox: RedisUsageInbox
    const db: UsageDatabase.UsageDatabase

    ghost predicate Valid()
      reads this, inbox, db
    {
      inbox.Valid() && db.Valid()
    }

    ghost function Snapshot(): Intake
      reads this, inbox, db
    {
      Intake(inbox.rows, inbox.nextId, db.Snapshot())
    }

    constructor (inbox: RedisUsageInbox, db: UsageDatabase.UsageDatabase)
      requires inbox.Valid() && db.Valid()
      ensures Valid() && this.inbox == inbox && this.db == db
    {
      this.inbox, this.db := inbox, db;
    }

    /** `pull`: the projection of every message first, then one insert. */
    method Pull(d: Decoding, messages: seq<string>, now: int, commits: bool) returns (ok: bool)
      requires Valid()
      modifies inbox
      ensures Valid()
      ensures ok ==> AllSafe(d, messages)
      ensures Snapshot() == Pulled(d, old(Snapshot()), messages, now, ok)
      ensures ok <==> messages == [] || (commits && AllSafe(d, messages))
    {
      if messages == [] {
        assert inbox.rows == inbox.rows + NewRows(SafeInserts(d, messages, now), inbox.nextId, now);
        return true;
      }
      var inputs: seq<Insert> := [];
      for i := 0 to |messages|
        invariant forall k :: 0 <= k < i ==> d.replaySafe(messages[k]).Some?
        invariant |inputs| == i && forall k :: 0 <= k < i ==>
          inputs[k] == Insert(d.replaySafe(messages[k]).value, Some(now))
      {
        var safe := d.replaySafe(messages[i]);
        if safe.None? {
          assert messages[i] in messages;
          return false;
        }
        inputs := inputs + [Insert(safe.value, Some(now))];
      }
      assert inputs == SafeInserts(d, messages, now);
      ok := inbox.InsertMessages(inputs, now, commits);
    }

    /** Decoding the listed rows, marking the undecodable ones as they are met. */
    method DecodeListed(d: Decoding, listed: seq<InboxRow>, now: int, decodeMarks: nat)
      returns (ok: bool, good: seq<InboxRow>, events: seq<UsageEvent>, failures: nat)
      requires Valid() && Ordered(listed, inbox.nextId)
      modifies inbox`rows
      ensures Valid()
      ensures ok <==> |Select(listed, Undecodable(d))| <= decodeMarks
      ensures ok ==> failures == |Select(listed, Undecodable(d))|
      ensures ok ==> good == Select(listed, Decodes(d)) && AllDecode(d, good) && events == EventsOf(d, good)
      ensures ok ==> inbox.rows == Rejected(old(inbox.rows), RowIds(Select(listed, Undecodable(d))), now)
      ensures !ok ==>
        inbox.rows == Rejected(old(inbox.rows), RowIds(Select(listed, Undecodable(d))[..decodeMarks]), now)
    {
      good, events, failures := [], [], 0;
      assert inbox.rows == Rejected(inbox.rows, RowIds([]), now);
      for i := 0 to |listed|
        invariant Valid()
        invariant failures == |Select(listed[..i], Undecodable(d))| <= decodeMarks
        invariant good == Select(listed[..i], Decodes(d)) && AllDecode(d, good) && events == EventsOf(d, good)
        invariant inbox.rows == Rejected(old(inbox.rows), RowIds(Select(listed[..i], Undecodable(d))), now)
      {
        var event := DecodeRow(d, listed[i]);
        if event.None? {
          if failures == decodeMarks {
            BrokenStep(d, listed, i);
            return false, good, events, failures;
          }
          BadStep(d, old(inbox.rows), listed, inbox.nextId, i, now);
          inbox.MarkDecodeFailed(listed[i].id, now);
          failures := failures + 1;
        } else {
          GoodStep(d, listed, i);
          good, events := good + [listed[i]], events + [event.value];
        }
      }
      assert listed[..|listed|] == listed;
      ok := true;
    }

    /** The insert of the decoded events and the mark of their rows. */
    method PersistGood(d: Decoding, good: seq<InboxRow>, now: int, f: TurnFaults)
      returns (result: UsageDatabase.InsertResult, marked: bool)
      requires Valid() && Ordered(good, inbox.nextId) && AllDecode(d, good)
      modifies inbox`rows, db
      ensures Valid()
      ensures Snapshot() == Persist(d, old(Snapshot()), old(inbox.rows), good, now, f)
      ensures result.Inserted? ==> |db.events| == |old(db.events)| + result.inserted
    {
      MarksOfRows(d, good, inbox.nextId);
      result := db.InsertUsageEvents(EventsOf(d, good), f.insertCommits);
      if result.Inserted? {
        marked := inbox.MarkProcessedBatch(MarksOf(d, good), now, f.markCommits);
      } else {
        marked := inbox.MarkProcessFailedBatch(IdsOf(good), now, f.markCommits);
      }
    }

    /** One processing turn: list, decode, insert the events, mark the rows. */
    method Process(d: Decoding, now: int, f: TurnFaults) returns (outcome: Outcome)
      requires Valid()
      modifies inbox`rows, db
      ensures Valid()
      ensures Snapshot() == Turn(d, old(Snapshot()), now, f)
      ensures outcome.Empty? <==> Listed(old(inbox.rows), PROCESS_LIMIT) == []
      ensures outcome.CompletedWith? && outcome.inserted + outcome.deduped > 0 ==>
        |db.events| == |old(db.events)| + outcome.inserted
    {
      var listed := inbox.ListProcessable(PROCESS_LIMIT);
      ListedDistinct(inbox.rows, inbox.nextId);
      if listed == [] {
        assert inbox.rows == Rejected(inbox.rows, RowIds([]), now);
        return Empty;
      }
      var ok, good, events, failures := DecodeListed(d, listed, now, f.decodeMarks);
      if !ok {
        return Failure;
      }
      SelectCount(listed, Decodes(d), Undecodable(d));
      if events == [] {
        return if 0 < failures then CompletedWith(0, 0, true) else Empty;
      }
      SelectOrdered(listed, inbox.nextId, Decodes(d));
      var result, marked := PersistGood(d, good, now, f);
      if !result.Inserted? || !marked {
        return Failure;
      }
      return CompletedWith(result.inserted, result.deduped, 0 < failures);
    }
  }

  lemma IdsAreRowIds(rows: seq<InboxRow>)
    ensures Ids(IdsOf(rows)) == RowIds(rows)
  {
    var ids := IdsOf(rows);
    forall r | r in rows ensures r.id in ids {
      var i :| 0 <= i < |rows| && rows[i] == r;
      assert ids[i] == r.id;
    }
    forall id | id in ids ensures id in RowIds(rows) {
      var i :| 0 <= i < |ids| && ids[i] == id;
      assert rows[i] in rows;
    }
  }
}

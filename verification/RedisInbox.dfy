/** The inbox of popped queue messages: its rows and the transitions the repository applies to them in
    place (internal/repository/redis_usage_inbox.go). */
module RedisInbox {
  import opened Accounting
  import opened Aggregation

  datatype InboxStatus = Pending | Processed | DecodeFailed | ProcessFailed | Discarded

  /** A row; `poppedAt` is `None` for Go's zero time. */
  datatype InboxRow = InboxRow(
    id: nat, message: string, poppedAt: Option<int>,
    status: InboxStatus, attempts: int, eventKey: string, processedAt: Option<int>, updatedAt: int)

  const MAX_PROCESS_ATTEMPTS := 5

  const VARIABLE_LIMIT := 999

  const MARKS_PER_UPDATE := (VARIABLE_LIMIT - 3) / 3

  const IDS_PER_UPDATE := VARIABLE_LIMIT - 5

  predicate Processable(r: InboxRow) { r.status.Pending? || r.status.ProcessFailed? }

  /** Attempt counts by status: a failed row is retried until its fifth failure discards it. */
  predicate SoundRow(r: InboxRow) {
    match r.status
    case Pending => r.attempts == 0
    case ProcessFailed => 1 <= r.attempts <= 4
    case Discarded => r.attempts == 5
    case Processed => 0 <= r.attempts <= 4
    case DecodeFailed => 1 <= r.attempts <= 5
  }

  predicate Ordered(rows: seq<InboxRow>, nextId: nat) {
    && (forall i :: 0 <= i < |rows| ==> 0 < rows[i].id < nextId)
    && forall i, j :: 0 <= i < j < |rows| ==> rows[i].id < rows[j].id
  }

  // Transitions of one row

  function FailRow(r: InboxRow, now: int): InboxRow {
    r.(status := if r.attempts + 1 >= MAX_PROCESS_ATTEMPTS then Discarded else ProcessFailed,
       attempts := r.attempts + 1, updatedAt := now)
  }

  function RejectRow(r: InboxRow, now: int): InboxRow {
    r.(status := DecodeFailed, attempts := r.attempts + 1, updatedAt := now)
  }

  function CompleteRow(r: InboxRow, key: string, now: int): InboxRow {
    r.(status := Processed, eventKey := key, processedAt := Some(now), updatedAt := now)
  }

  // Transitions of the table

  function Failed(rows: seq<InboxRow>, ids: set<nat>, now: int): (r: seq<InboxRow>)
    ensures |r| == |rows|
  {
    seq(|rows|, i requires 0 <= i < |rows| => if rows[i].id in ids then FailRow(rows[i], now) else rows[i])
  }

  function Rejected(rows: seq<InboxRow>, ids: set<nat>, now: int): (r: seq<InboxRow>)
    ensures |r| == |rows|
  {
    seq(|rows|, i requires 0 <= i < |rows| => if rows[i].id in ids then RejectRow(rows[i], now) else rows[i])
  }

  datatype ProcessedMark = ProcessedMark(id: nat, eventKey: string)

  /** `CASE id WHEN ... THEN ... END`: the first mark of an id. */
  function MarkOf(marks: seq<ProcessedMark>, id: nat): Option<string> {
    if marks == [] then None else if marks[0].id == id then Some(marks[0].eventKey) else MarkOf(marks[1..], id)
  }

  function Completed(rows: seq<InboxRow>, marks: seq<ProcessedMark>, now: int): (r: seq<InboxRow>)
    ensures |r| == |rows|
  {
    seq(|rows|, i requires 0 <= i < |rows| =>
      if MarkOf(marks, rows[i].id).Some? then CompleteRow(rows[i], MarkOf(marks, rows[i].id).value, now) else rows[i])
  }

  predicate DistinctMarks(marks: seq<ProcessedMark>) {
    forall i, j :: 0 <= i < j < |marks| ==> marks[i].id != marks[j].id
  }

  predicate Distinct(ids: seq<nat>) { forall i, j :: 0 <= i < j < |ids| ==> ids[i] != ids[j] }

  lemma {:induction false} MarkOfFinds(marks: seq<ProcessedMark>, id: nat)
    ensures MarkOf(marks, id).Some? <==> exists m :: m in marks && m.id == id
    ensures MarkOf(marks, id).Some? ==> ProcessedMark(id, MarkOf(marks, id).value) in marks
  {
    if marks != [] {
      MarkOfFinds(marks[1..], id);
      assert marks == [marks[0]] + marks[1..];
    }
  }

  /** Marks are written in chunks within SQLite's variable limit: within one chunk the first mark of an id
      counts, and a later chunk overrides an earlier one. */
  function WrittenKey(marks: seq<ProcessedMark>, id: nat): Option<string> {
    if |marks| <= MARKS_PER_UPDATE then MarkOf(marks, id)
    else
      var later := WrittenKey(marks[MARKS_PER_UPDATE..], id);
      if later.Some? then later else MarkOf(marks[..MARKS_PER_UPDATE], id)
  }

  function Written(rows: seq<InboxRow>, marks: seq<ProcessedMark>, now: int): (r: seq<InboxRow>)
    ensures |r| == |rows|
  {
    seq(|rows|, i requires 0 <= i < |rows| =>
      match WrittenKey(marks, rows[i].id)
      case None => rows[i]
      case Some(key) => CompleteRow(rows[i], key, now))
  }

  /** The written key is that of one of the marks of the id, and there is one exactly for a marked id. */
  lemma {:induction false} WrittenKeyFinds(marks: seq<ProcessedMark>, id: nat)
    ensures WrittenKey(marks, id).Some? <==> exists m :: m in marks && m.id == id
    ensures WrittenKey(marks, id).Some? ==> ProcessedMark(id, WrittenKey(marks, id).value) in marks
  {
    if |marks| <= MARKS_PER_UPDATE {
      MarkOfFinds(marks, id);
    } else {
      var first, later := marks[..MARKS_PER_UPDATE], marks[MARKS_PER_UPDATE..];
      assert marks == first + later;
      MarkOfFinds(first, id);
      WrittenKeyFinds(later, id);
    }
  }

  lemma SameMark(marks: seq<ProcessedMark>, m: ProcessedMark, n: ProcessedMark)
    requires DistinctMarks(marks) && m in marks && n in marks && m.id == n.id
    ensures m == n
  {
  }

  /** Without a repeated id the chunks do not matter. */
  lemma WrittenIsCompleted(rows: seq<InboxRow>, marks: seq<ProcessedMark>, now: int)
    requires DistinctMarks(marks)
    ensures Written(rows, marks, now) == Completed(rows, marks, now)
  {
    forall id: nat ensures WrittenKey(marks, id) == MarkOf(marks, id) {
      WrittenKeyFinds(marks, id);
      MarkOfFinds(marks, id);
      if MarkOf(marks, id).Some? {
        SameMark(marks, ProcessedMark(id, WrittenKey(marks, id).value), ProcessedMark(id, MarkOf(marks, id).value));
      }
    }
  }

  lemma WriteNothing(rows: seq<InboxRow>, now: int)
    ensures Written(rows, [], now) == rows
  {
  }

  lemma WriteChunk(rows: seq<InboxRow>, marks: seq<ProcessedMark>, now: int)
    requires MARKS_PER_UPDATE < |marks|
    ensures var first, later := marks[..MARKS_PER_UPDATE], marks[MARKS_PER_UPDATE..];
      Written(Completed(rows, first, now), later, now) == Written(rows, marks, now)
  {
  }

  /** The chunks of a failure batch that name an id: each of them charges its row one attempt. */
  function Charges(ids: seq<nat>, id: nat): nat {
    if |ids| <= IDS_PER_UPDATE then if id in ids then 1 else 0
    else (if id in ids[..IDS_PER_UPDATE] then 1 else 0) + Charges(ids[IDS_PER_UPDATE..], id)
  }

  function FailTimes(r: InboxRow, n: nat, now: int): InboxRow {
    if n == 0 then r else FailRow(r.(attempts := r.attempts + n - 1), now)
  }

  function Charged(rows: seq<InboxRow>, ids: seq<nat>, now: int): (r: seq<InboxRow>)
    ensures |r| == |rows|
  {
    seq(|rows|, i requires 0 <= i < |rows| => FailTimes(rows[i], Charges(ids, rows[i].id), now))
  }

  lemma {:induction false} ChargesOnce(ids: seq<nat>, id: nat)
    requires Distinct(ids)
    ensures Charges(ids, id) == if id in ids then 1 else 0
  {
    if IDS_PER_UPDATE < |ids| {
      var first, later := ids[..IDS_PER_UPDATE], ids[IDS_PER_UPDATE..];
      assert ids == first + later;
      ChargesOnce(later, id);
      forall i, j | 0 <= i < |first| && 0 <= j < |later| ensures first[i] != later[j] {
        assert ids[i] != ids[IDS_PER_UPDATE + j];
      }
    }
  }

  /** Without a repeated id every named row is charged exactly once. */
  lemma ChargedIsFailed(rows: seq<InboxRow>, ids: seq<nat>, now: int)
    requires Distinct(ids)
    ensures Charged(rows, ids, now) == Failed(rows, Ids(ids), now)
  {
    forall i | 0 <= i < |rows| ensures Charged(rows, ids, now)[i] == Failed(rows, Ids(ids), now)[i] {
      ChargesOnce(ids, rows[i].id);
    }
  }

  lemma ChargeNothing(rows: seq<InboxRow>, now: int)
    ensures Charged(rows, [], now) == rows
  {
  }

  lemma ChargeChunk(rows: seq<InboxRow>, ids: seq<nat>, now: int)
    requires IDS_PER_UPDATE < |ids|
    ensures var first, later := ids[..IDS_PER_UPDATE], ids[IDS_PER_UPDATE..];
      Charged(Failed(rows, Ids(first), now), later, now) == Charged(rows, ids, now)
  {
  }

  function Ids(ids: seq<nat>): set<nat> { set id | id in ids }

  /** The first `limit` processable rows, in id order; all of them unless the limit is positive. */
  function Listed(rows: seq<InboxRow>, limit: int): seq<InboxRow> {
    var some := Select(rows, Processable);
    if 0 < limit < |some| then some[..limit] else some
  }

  predicate Ascending(rows: seq<InboxRow>) { forall i, j :: 0 <= i < j < |rows| ==> rows[i].id < rows[j].id }

  /** What a listing promises: processable rows of the table, ascending, within the limit, and a processable
      row is left out only by a full listing of rows with lower ids. */
  ghost predicate IsListing(rows: seq<InboxRow>, limit: int, listed: seq<InboxRow>) {
    && Ascending(listed)
    && (forall r :: r in listed ==> r in rows && Processable(r))
    && (0 < limit ==> |listed| <= limit)
    && forall r :: r in rows && Processable(r) && r !in listed ==>
      0 < limit == |listed| && forall l :: l in listed ==> l.id < r.id
  }

  lemma ListedIsListing(rows: seq<InboxRow>, nextId: nat, limit: int)
    requires Ordered(rows, nextId)
    ensures IsListing(rows, limit, Listed(rows, limit))
  {
    var some := Select(rows, Processable);
    SelectOrdered(rows, nextId, Processable);
    forall r: InboxRow ensures r in some <==> r in rows && Processable(r) {
      SelectIn(rows, Processable, r);
    }
    if 0 < limit < |some| {
      forall r | r in some && r !in some[..limit] ensures forall l :: l in some[..limit] ==> l.id < r.id {
        assert some == some[..limit] + some[limit..];
      }
    }
  }

  lemma {:induction false} ListingsAgree(rows: seq<InboxRow>, nextId: nat, limit: int, a: seq<InboxRow>,
                                         b: seq<InboxRow>, n: nat)
    requires Ordered(rows, nextId) && IsListing(rows, limit, a) && IsListing(rows, limit, b)
    requires n <= |a| && n <= |b|
    ensures a[..n] == b[..n]
  {
    if 0 < n {
      ListingsAgree(rows, nextId, limit, a, b, n - 1);
      NotListedBefore(rows, limit, a, b, n - 1);
      NotListedBefore(rows, limit, b, a, n - 1);
      assert a[n - 1] in rows && b[n - 1] in rows;
    }
  }

  lemma NotListedBefore(rows: seq<InboxRow>, limit: int, a: seq<InboxRow>, b: seq<InboxRow>, n: nat)
    requires IsListing(rows, limit, a) && IsListing(rows, limit, b)
    requires n < |a| && n < |b| && a[..n] == b[..n]
    ensures b[n].id <= a[n].id
  {
    if a[n].id < b[n].id {
      assert a[n] in a && b[n] in b;
      forall k | 0 <= k < |b| ensures b[k] != a[n] {
        if k < n {
          assert a[k] == a[..n][k] == b[k];
        }
      }
    }
  }

  lemma NoLonger(rows: seq<InboxRow>, nextId: nat, limit: int, a: seq<InboxRow>, b: seq<InboxRow>)
    requires Ordered(rows, nextId) && IsListing(rows, limit, a) && IsListing(rows, limit, b)
    ensures |b| <= |a|
  {
    if |a| < |b| {
      ListingsAgree(rows, nextId, limit, a, b, |a|);
      var r := b[|a|];
      assert r in b;
      forall k | 0 <= k < |a| ensures a[k] != r {
        assert a[k] == b[..|a|][k];
      }
    }
  }

  lemma {:induction false} SameListing(rows: seq<InboxRow>, nextId: nat, limit: int, a: seq<InboxRow>,
                                       b: seq<InboxRow>)
    requires Ordered(rows, nextId) && IsListing(rows, limit, a) && IsListing(rows, limit, b)
    ensures a == b
  {
    NoLonger(rows, nextId, limit, a, b);
    NoLonger(rows, nextId, limit, b, a);
    ListingsAgree(rows, nextId, limit, a, b, |a|);
    assert a[..|a|] == a && b[..|a|] == b;
  }

  /** A table has one listing under a limit, and it is the listed one. */
  lemma {:induction false} ListingIsListed(rows: seq<InboxRow>, nextId: nat, limit: int, listed: seq<InboxRow>)
    requires Ordered(rows, nextId)
    ensures IsListing(rows, limit, listed) <==> listed == Listed(rows, limit)
  {
    ListedIsListing(rows, nextId, limit);
    if IsListing(rows, limit, listed) {
      SameListing(rows, nextId, limit, listed, Listed(rows, limit));
    }
  }

  /** The rest of a row that is marked: what it was popped as and any earlier result stay. */
  predicate SameMessage(r: InboxRow, s: InboxRow) { r.id == s.id && r.message == s.message && r.poppedAt == s.poppedAt }

  /** A rejected row is spent: it keeps its message and is charged one attempt, the other rows stay as they
      are, and the rows left to process are those of before without it. */
  ghost predicate OneRejected(before: seq<InboxRow>, after: seq<InboxRow>, id: nat, now: int) {
    && |after| == |before|
    && (forall i :: 0 <= i < |before| && before[i].id != id ==> after[i] == before[i])
    && (forall i :: 0 <= i < |before| && before[i].id == id ==>
      && SameMessage(after[i], before[i]) && after[i].status.DecodeFailed?
      && after[i].attempts == before[i].attempts + 1 && after[i].updatedAt == now
      && after[i].eventKey == before[i].eventKey && after[i].processedAt == before[i].processedAt)
    && Select(after, Processable) == Select(Select(before, Processable), Except(id))
  }

  function Except(id: nat): InboxRow -> bool { (r: InboxRow) => r.id != id }

  lemma {:induction false} RejectedLeaveQueue(rows: seq<InboxRow>, id: nat, now: int)
    ensures Select(Rejected(rows, {id}, now), Processable) == Select(Select(rows, Processable), Except(id))
  {
    if rows != [] {
      RejectedLeaveQueue(rows[1..], id, now);
      assert Rejected(rows, {id}, now)[1..] == Rejected(rows[1..], {id}, now);
    }
  }

  datatype Insert = Insert(message: string, poppedAt: Option<int>)

  function NewRows(inputs: seq<Insert>, nextId: nat, now: int): (r: seq<InboxRow>)
    ensures |r| == |inputs|
  {
    seq(|inputs|, i requires 0 <= i < |inputs| =>
      InboxRow(nextId + i, inputs[i].message, inputs[i].poppedAt, Pending, 0, "", None, now))
  }

  predicate Expired(r: InboxRow, processedCutoff: int, failedCutoff: int) {
    || (r.status.Processed? && r.processedAt.Some? && r.processedAt.value < processedCutoff)
    || ((r.status.DecodeFailed? || r.status.ProcessFailed? || r.status.Discarded?) && r.updatedAt < failedCutoff)
  }

  function Retained(processedCutoff: int, failedCutoff: int): InboxRow -> bool {
    (r: InboxRow) => !Expired(r, processedCutoff, failedCutoff)
  }

  lemma {:induction false} SelectOrdered(rows: seq<InboxRow>, nextId: nat, keep: InboxRow -> bool)
    requires Ordered(rows, nextId)
    ensures Ordered(Select(rows, keep), nextId)
    ensures forall r :: r in Select(rows, keep) ==> r in rows
  {
    if rows != [] {
      SelectOrdered(rows[1..], nextId, keep);
      assert rows == [rows[0]] + rows[1..];
      if keep(rows[0]) {
        forall r | r in Select(rows[1..], keep) ensures rows[0].id < r.id {
          var j :| 0 <= j < |rows[1..]| && rows[1..][j] == r;
          assert rows[1 + j] == r;
        }
      }
    }
  }

  // What each transition leaves of a row

  /** Charged one attempt: to be retried, or discarded at the fifth. */
  predicate RowCharged(before: InboxRow, after: InboxRow, now: int) {
    && SameMessage(after, before) && after.eventKey == before.eventKey && after.processedAt == before.processedAt
    && after.attempts == before.attempts + 1 && after.updatedAt == now
    && (before.attempts < 4 ==> after.status == ProcessFailed) && (before.attempts >= 4 ==> after.status == Discarded)
  }

  /** Processed under a key. */
  predicate RowCompleted(before: InboxRow, after: InboxRow, key: string, now: int) {
    && SameMessage(after, before) && after.attempts == before.attempts
    && after.status == Processed && after.eventKey == key && after.processedAt == Some(now) && after.updatedAt == now
  }

  /** Newly popped. */
  predicate RowIsNew(r: InboxRow, id: nat, input: Insert, now: int) {
    && r.id == id && r.message == input.message && r.poppedAt == input.poppedAt
    && r.status == Pending && r.attempts == 0 && r.eventKey == "" && r.processedAt == None && r.updatedAt == now
  }

  /** Kept by a clean-up: rows still to be processed first, finished ones until their cutoff. */
  predicate RowKept(r: InboxRow, processedCutoff: int, failedCutoff: int) {
    match r.status
    case Pending => true
    case Processed => r.processedAt.None? || r.processedAt.value >= processedCutoff
    case _ => r.updatedAt >= failedCutoff
  }

  predicate AllCharged(before: seq<InboxRow>, after: seq<InboxRow>, ids: set<nat>, now: int) {
    |after| == |before| && forall i :: 0 <= i < |before| ==>
      if before[i].id in ids then RowCharged(before[i], after[i], now) else after[i] == before[i]
  }

  lemma FailedRows(rows: seq<InboxRow>, ids: set<nat>, now: int)
    ensures AllCharged(rows, Failed(rows, ids, now), ids, now)
  {
  }

  /** Processed under the key of one of its marks, or left alone without one. */
  ghost predicate RowMarked(before: InboxRow, after: InboxRow, marks: seq<ProcessedMark>, now: int) {
    if exists m :: m in marks && m.id == before.id
    then RowCompleted(before, after, after.eventKey, now) && ProcessedMark(before.id, after.eventKey) in marks
    else after == before
  }

  ghost predicate AllMarked(before: seq<InboxRow>, after: seq<InboxRow>, marks: seq<ProcessedMark>, now: int) {
    |after| == |before| && forall i :: 0 <= i < |before| ==> RowMarked(before[i], after[i], marks, now)
  }

  lemma WrittenRows(rows: seq<InboxRow>, marks: seq<ProcessedMark>, now: int)
    ensures AllMarked(rows, Written(rows, marks, now), marks, now)
  {
    forall i | 0 <= i < |rows| ensures RowMarked(rows[i], Written(rows, marks, now)[i], marks, now) {
      WrittenKeyFinds(marks, rows[i].id);
    }
  }

  lemma KeptRows(rows: seq<InboxRow>, processedCutoff: int, failedCutoff: int, r: InboxRow)
    ensures r in Select(rows, Retained(processedCutoff, failedCutoff))
      <==> r in rows && RowKept(r, processedCutoff, failedCutoff)
  {
    SelectIn(rows, Retained(processedCutoff, failedCutoff), r);
  }

  /** The inbox table. */
  class RedisUsageInbox {
    var rows: seq<InboxRow>
    var nextId: nat

    ghost predicate Valid()
      reads this
    {
      Ordered(rows, nextId) && 0 < nextId
    }

    constructor ()
      ensures Valid() && rows == []
    {
      rows, nextId := [], 1;
    }

    /** Popped messages become pending rows, all or none. */
    method InsertMessages(inputs: seq<Insert>, now: int, commits: bool) returns (ok: bool)
      requires Valid()
      modifies this
      ensures Valid()
      ensures ok <==> inputs == [] || commits
      ensures ok ==> rows == old(rows) + NewRows(inputs, old(nextId), now) && nextId == old(nextId) + |inputs|
      ensures ok ==> forall i :: 0 <= i < |inputs| ==> RowIsNew(rows[|old(rows)| + i], old(nextId) + i, inputs[i], now)
      ensures !ok ==> rows == old(rows) && nextId == old(nextId)
    {
      if inputs == [] {
        assert rows == rows + NewRows(inputs, nextId, now);
        return true;
      }
      if !commits {
        return false;
      }
      var added := NewRows(inputs, nextId, now);
      assert forall r :: r in added ==> r.status.Pending? && r.attempts == 0;
      rows := rows + added;
      nextId := nextId + |inputs|;
      return true;
    }

    /** One transaction of chunked updates within SQLite's variable limit. */
    method MarkProcessedBatch(marks: seq<ProcessedMark>, now: int, commits: bool) returns (ok: bool)
      requires Valid()
      modifies this`rows
      ensures Valid()
      ensures ok <==> marks == [] || commits
      ensures rows == if ok then Written(old(rows), marks, now) else old(rows)
      ensures ok && DistinctMarks(marks) ==> rows == Completed(old(rows), marks, now)
      ensures ok ==> AllMarked(old(rows), rows, marks, now)
    {
      WrittenRows(rows, marks, now);
      if marks == [] {
        assert rows == Written(rows, marks, now) == Completed(rows, marks, now);
        return true;
      }
      var table, start := rows, 0;
      while start < |marks|
        invariant 0 <= start <= |marks|
        invariant rows == old(rows) && |table| == |rows|
        invariant start == |marks| ==> table == Written(rows, marks, now)
        invariant Written(table, marks[start..], now) == Written(rows, marks, now)
      {
        var end := if start + MARKS_PER_UPDATE < |marks| then start + MARKS_PER_UPDATE else |marks|;
        ghost var left := marks[start..];
        assert left[..end - start] == marks[start..end] && left[end - start..] == marks[end..];
        if MARKS_PER_UPDATE < |left| {
          WriteChunk(table, left, now);
        } else {
          assert left == marks[start..end];
        }
        table := Completed(table, marks[start..end], now);
        start := end;
        WriteNothing(table, now);
      }
      if DistinctMarks(marks) {
        WrittenIsCompleted(rows, marks, now);
      }
      ok := commits;
      if ok {
        rows := table;
      }
    }

    method MarkProcessFailedBatch(ids: seq<nat>, now: int, commits: bool) returns (ok: bool)
      requires Valid()
      modifies this`rows
      ensures Valid()
      ensures ok <==> ids == [] || commits
      ensures rows == if ok then Charged(old(rows), ids, now) else old(rows)
      ensures ok && Distinct(ids) ==> rows == Failed(old(rows), Ids(ids), now)
      ensures ok && Distinct(ids) ==> AllCharged(old(rows), rows, Ids(ids), now)
    {
      FailedRows(rows, Ids(ids), now);
      if ids == [] {
        assert rows == Charged(rows, ids, now) == Failed(rows, Ids(ids), now);
        return true;
      }
      var table, start := rows, 0;
      while start < |ids|
        invariant 0 <= start <= |ids|
        invariant rows == old(rows) && |table| == |rows|
        invariant start == |ids| ==> table == Charged(rows, ids, now)
        invariant Charged(table, ids[start..], now) == Charged(rows, ids, now)
      {
        var end := if start + IDS_PER_UPDATE < |ids| then start + IDS_PER_UPDATE else |ids|;
        ghost var left := ids[start..];
        assert left[..end - start] == ids[start..end] && left[end - start..] == ids[end..];
        if IDS_PER_UPDATE < |left| {
          ChargeChunk(table, left, now);
        } else {
          assert left == ids[start..end];
        }
        table := Failed(table, Ids(ids[start..end]), now);
        start := end;
        ChargeNothing(table, now);
      }
      if Distinct(ids) {
        ChargedIsFailed(rows, ids, now);
      }
      ok := commits;
      if ok {
        rows := table;
      }
    }

    method MarkDecodeFailed(id: nat, now: int)
      requires Valid()
      modifies this`rows
      ensures Valid()
      ensures OneRejected(old(rows), rows, id, now)
      ensures rows == Rejected(old(rows), {id}, now)
    {
      RejectedLeaveQueue(rows, id, now);
      rows := Rejected(rows, {id}, now);
    }

    method ListProcessable(limit: int) returns (listed: seq<InboxRow>)
      requires Valid()
      ensures IsListing(rows, limit, listed)
      ensures listed == Listed(rows, limit)
    {
      ListedIsListing(rows, nextId, limit);
      listed := Select(rows, Processable);
      if 0 < limit < |listed| {
        listed := listed[..limit];
      }
    }

    method Cleanup(processedCutoff: int, failedCutoff: int)
      requires Valid()
      modifies this`rows
      ensures Valid()
      ensures rows == Select(old(rows), Retained(processedCutoff, failedCutoff))
      ensures forall r :: r in rows <==> r in old(rows) && RowKept(r, processedCutoff, failedCutoff)
    {
      SelectOrdered(rows, nextId, Retained(processedCutoff, failedCutoff));
      forall r: InboxRow
        ensures r in Select(rows, Retained(processedCutoff, failedCutoff))
          <==> r in rows && RowKept(r, processedCutoff, failedCutoff)
      {
        KeptRows(rows, processedCutoff, failedCutoff, r);
      }
      rows := Select(rows, Retained(processedCutoff, failedCutoff));
    }
  }
}

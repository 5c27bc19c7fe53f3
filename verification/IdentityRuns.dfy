/** Runs of identity aggregation: any number of callers that load identities, and commit later, while
    events arrive and identities are synchronised (internal/repository/usage_identities.go). */
module IdentityRuns {
  import opened Accounting
  import opened Aggregation
  import opened EventInsertion
  import opened UsageEvents
  import opened UsageIdentities

  /** The tables and what each caller has loaded. */
  datatype World = World(events: seq<UsageEvent>, rows: seq<Identity>, nextId: nat, loaded: map<nat, seq<Identity>>)

  datatype Step =
    | StoreStep(more: seq<UsageEvent>)
    | LoadStep(caller: nat)
    | CommitStep(caller: nat, commits: bool)
    | UpsertStep(who: Who, metadata: string)
    | StaleStep(ids: set<nat>)

  /** Metadata is refreshed and the row revived; statistics are not touched. A new identity starts at zero. */
  function Upserted(w: World, who: Who, metadata: string): World {
    if exists r :: r in w.rows && r.who == who then
      w.(rows := seq(|w.rows|, k requires 0 <= k < |w.rows| =>
        if w.rows[k].who == who then w.rows[k].(metadata := metadata, deleted := false) else w.rows[k]))
    else w.(rows := w.rows + [Identity(w.nextId, who, metadata, false, NO_STATS, 0)], nextId := w.nextId + 1)
  }

  ghost function Next(w: World, step: Step): World {
    match step
    case StoreStep(more) => if WellNumbered(w.events + more) then w.(events := w.events + more) else w
    case LoadStep(caller) => w.(loaded := w.loaded[caller := w.rows])
    case CommitStep(caller, commits) =>
      if commits && caller in w.loaded then w.(rows := CommitAll(w.events, w.rows, w.loaded[caller])) else w
    case UpsertStep(who, metadata) => Upserted(w, who, metadata)
    case StaleStep(ids) =>
      w.(rows := seq(|w.rows|, k requires 0 <= k < |w.rows| =>
        if w.rows[k].id in ids then w.rows[k].(deleted := true) else w.rows[k]))
  }

  ghost function Run(w: World, steps: seq<Step>): World {
    if steps == [] then w else Next(Run(w, steps[..|steps| - 1]), steps[|steps| - 1])
  }

  /** A loaded identity is an older version of its row. */
  ghost predicate OlderVersion(w: World, i: Identity) {
    && i.id < w.nextId
    && Counted(w.events, i)
    && forall r :: r in w.rows && r.id == i.id ==> r.who == i.who && i.cursor <= r.cursor
  }

  ghost predicate Snapshot(w: World, loaded: seq<Identity>) {
    DistinctIds(loaded) && forall i :: i in loaded ==> OlderVersion(w, i)
  }

  ghost predicate RowsInv(w: World) {
    && WellNumbered(w.events)
    && DistinctIds(w.rows)
    && forall r :: r in w.rows ==> r.id < w.nextId && Counted(w.events, r)
  }

  ghost predicate Inv(w: World) { RowsInv(w) && forall caller :: caller in w.loaded ==> Snapshot(w, w.loaded[caller]) }

  /** No statistics have been accumulated yet. */
  ghost predicate Initial(w: World) { w == World([], [], 1, map[]) }

  // Steps

  /** A row after a commit: counted, its cursor not lowered, and complete if it was loaded. */
  lemma CommittedRow(w: World, loaded: seq<Identity>, r: Identity)
    requires RowsInv(w) && Snapshot(w, loaded) && r in w.rows
    ensures var after := WrittenBack(w.events, loaded, r);
      && after.id == r.id && after.who == r.who
      && Counted(w.events, after) && r.cursor <= after.cursor
      && (LoadedOf(loaded, r.id).Some? ==> forall e :: e in w.events && Matches(r.who, e) ==> e.id <= after.cursor)
  {
    LoadedOfFinds(loaded, r.id);
    if LoadedOf(loaded, r.id).Some? {
      var i := LoadedOf(loaded, r.id).value;
      assert OlderVersion(w, i);
      if Delta(w.events, i).0.total != 0 {
        AccumulatedIsCounted(w.events, i, r);
      } else {
        NothingNew(w.events, i);
      }
    }
  }

  lemma CommitKeepsInv(w: World, caller: nat)
    requires Inv(w) && caller in w.loaded
    ensures Inv(Next(w, CommitStep(caller, true)))
  {
    var loaded, w' := w.loaded[caller], Next(w, CommitStep(caller, true));
    forall k | 0 <= k < |w.rows|
      ensures w'.rows[k].id == w.rows[k].id && w'.rows[k].who == w.rows[k].who
      ensures Counted(w.events, w'.rows[k]) && w.rows[k].cursor <= w'.rows[k].cursor
    {
      CommittedRow(w, loaded, w.rows[k]);
    }
    RowByRow(w, w');
  }

  /** Rows that change one by one, keeping their identity and never lowering their cursor. */
  lemma RowByRow(w: World, w': World)
    requires Inv(w) && w' == w.(rows := w'.rows) && |w'.rows| == |w.rows|
    requires forall k :: 0 <= k < |w.rows| ==>
      w'.rows[k].id == w.rows[k].id && w'.rows[k].who == w.rows[k].who && w.rows[k].cursor <= w'.rows[k].cursor
        && Counted(w.events, w'.rows[k])
    ensures Inv(w')
  {
    forall caller | caller in w'.loaded ensures Snapshot(w', w'.loaded[caller]) {
      forall i | i in w'.loaded[caller] ensures OlderVersion(w', i) {
        assert OlderVersion(w, i);
        forall r | r in w'.rows && r.id == i.id ensures r.who == i.who && i.cursor <= r.cursor {
          var k :| 0 <= k < |w'.rows| && w'.rows[k] == r;
          assert w.rows[k] in w.rows;
        }
      }
    }
  }

  lemma StoreKeepsInv(w: World, more: seq<UsageEvent>)
    requires Inv(w) && WellNumbered(w.events + more)
    ensures Inv(w.(events := w.events + more))
  {
    var w' := w.(events := w.events + more);
    forall r | r in w.rows ensures Counted(w'.events, r) {
      StillCounted(w.events, more, r);
    }
    forall caller | caller in w'.loaded ensures Snapshot(w', w'.loaded[caller]) {
      forall i | i in w'.loaded[caller] ensures OlderVersion(w', i) {
        assert OlderVersion(w, i);
        StillCounted(w.events, more, i);
      }
    }
  }

  lemma NewIdentityCounted(events: seq<UsageEvent>, i: Identity)
    requires WellNumbered(events) && i.stats == NO_STATS && i.cursor == 0
    ensures Counted(events, i)
  {
    forall e | e in events ensures !UpTo(i.who, 0)(e) {
      var k :| 0 <= k < |events| && events[k] == e;
    }
    SelectNone(events, UpTo(i.who, 0));
  }

  lemma UpsertKeepsInv(w: World, who: Who, metadata: string)
    requires Inv(w)
    ensures Inv(Upserted(w, who, metadata))
  {
    var w' := Upserted(w, who, metadata);
    if exists r :: r in w.rows && r.who == who {
      forall k | 0 <= k < |w.rows| ensures Counted(w.events, w.rows[k]) {
        assert w.rows[k] in w.rows;
      }
      RowByRow(w, w');
    } else {
      NewIdentityCounted(w.events, w'.rows[|w.rows|]);
      forall caller | caller in w'.loaded ensures Snapshot(w', w'.loaded[caller]) {
        forall i | i in w'.loaded[caller] ensures OlderVersion(w', i) {
          assert OlderVersion(w, i);
        }
      }
    }
  }

  lemma StepKeepsInv(w: World, step: Step)
    requires Inv(w)
    ensures Inv(Next(w, step))
  {
    match step
    case StoreStep(more) => if WellNumbered(w.events + more) { StoreKeepsInv(w, more); }
    case LoadStep(caller) => LoadKeepsInv(w, caller);
    case CommitStep(caller, commits) => if commits && caller in w.loaded { CommitKeepsInv(w, caller); }
    case UpsertStep(who, metadata) => UpsertKeepsInv(w, who, metadata);
    case StaleStep(ids) =>
      forall k | 0 <= k < |w.rows| ensures Counted(w.events, w.rows[k]) {
        assert w.rows[k] in w.rows;
      }
      RowByRow(w, Next(w, step));
  }

  lemma LoadKeepsInv(w: World, caller: nat)
    requires Inv(w)
    ensures Inv(Next(w, LoadStep(caller)))
  {
    var w' := Next(w, LoadStep(caller));
    forall c | c in w'.loaded ensures Snapshot(w', w'.loaded[c]) {
      forall i | i in w'.loaded[c] ensures OlderVersion(w', i) {
        if c != caller { assert OlderVersion(w, i); }
      }
    }
  }

  /** In every interleaving, each identity shows the statistics of exactly its matching events up to its cursor. */
  lemma {:induction false} StatsAreExact(w: World, steps: seq<Step>)
    requires Initial(w)
    ensures Inv(Run(w, steps))
    ensures forall r :: r in Run(w, steps).rows ==> r.stats == StatsUpTo(Run(w, steps).events, r.who, r.cursor)
  {
    if steps != [] {
      StatsAreExact(w, steps[..|steps| - 1]);
      StepKeepsInv(Run(w, steps[..|steps| - 1]), steps[|steps| - 1]);
    }
  }

  /** Column by column: the requests, successes and failures of exactly the events of its type and index up to its
      cursor, and the times of the first and the last of them. */
  lemma StatsTellTheirEvents(w: World, steps: seq<Step>, r: Identity)
    requires Initial(w) && r in Run(w, steps).rows
    ensures Tells(r.stats, Select(Run(w, steps).events, OfUpTo(r.who, r.cursor)))
  {
    StatsAreExact(w, steps);
    StatsUpToTells(Run(w, steps).events, r.who, r.cursor);
  }

  // Synchronised identities

  ghost predicate DistinctWhos(rows: seq<Identity>) {
    forall i, j :: 0 <= i < j < |rows| ==> rows[i].who != rows[j].who
  }

  lemma SameWhos(a: seq<Identity>, b: seq<Identity>)
    requires DistinctWhos(a) && |a| == |b| && forall k :: 0 <= k < |a| ==> a[k].who == b[k].who
    ensures DistinctWhos(b)
  {
  }

  /** There is one row for what an identity is matched by, however often it is synchronised. */
  lemma {:induction false} OneRowEach(w: World, steps: seq<Step>)
    requires Initial(w)
    ensures DistinctWhos(Run(w, steps).rows)
  {
    if steps != [] {
      var v, last := Run(w, steps[..|steps| - 1]), steps[|steps| - 1];
      OneRowEach(w, steps[..|steps| - 1]);
      StatsAreExact(w, steps[..|steps| - 1]);
      match last
      case StoreStep(_) =>
      case LoadStep(_) =>
      case CommitStep(caller, commits) =>
        if commits && caller in v.loaded {
          forall k | 0 <= k < |v.rows| ensures Next(v, last).rows[k].who == v.rows[k].who {
            CommittedRow(v, v.loaded[caller], v.rows[k]);
          }
          SameWhos(v.rows, Next(v, last).rows);
        }
      case UpsertStep(who, metadata) => UpsertedRows(v, who, metadata);
      case StaleStep(_) => SameWhos(v.rows, Next(v, last).rows);
    }
  }

  /** A synchronised identity is there, with the new metadata and not deleted; its statistics and all other rows stay.
      */
  lemma UpsertedRows(w: World, who: Who, metadata: string)
    requires DistinctWhos(w.rows)
    ensures var rows := Upserted(w, who, metadata).rows;
      && DistinctWhos(rows)
      && (exists r :: r in rows && r.who == who && r.metadata == metadata && !r.deleted)
      && |w.rows| <= |rows|
      && (forall k :: 0 <= k < |w.rows| && w.rows[k].who != who ==> rows[k] == w.rows[k])
      && (forall k :: 0 <= k < |w.rows| && w.rows[k].who == who ==>
         rows[k] == Identity(w.rows[k].id, who, metadata, false, w.rows[k].stats, w.rows[k].cursor))
      && (forall k :: |w.rows| <= k < |rows| ==>
         rows[k] == Identity(w.nextId, who, metadata, false, Stats(0, 0, 0, None, None), 0)
           && forall r :: r in w.rows ==> r.who != who)
  {
    var rows := Upserted(w, who, metadata).rows;
    if exists r :: r in w.rows && r.who == who {
      var k :| 0 <= k < |w.rows| && w.rows[k].who == who;
      assert rows[k] in rows;
      SameWhos(w.rows, rows);
    } else {
      assert rows[|w.rows|] in rows;
    }
  }

  /** What a synchronisation no longer finds is marked deleted, and keeps its statistics. */
  lemma StaleRows(w: World, ids: set<nat>, k: nat)
    requires k < |w.rows|
    ensures var rows := Next(w, StaleStep(ids)).rows;
      && |rows| == |w.rows| && rows[k].deleted == (w.rows[k].deleted || w.rows[k].id in ids)
      && rows[k].(deleted := w.rows[k].deleted) == w.rows[k]
  {
  }

  /** A stale commit never moves a cursor back or forgets a row. */
  lemma CursorsNeverMoveBack(w: World, step: Step, k: nat)
    requires Inv(w) && k < |w.rows|
    ensures var w' := Next(w, step);
      |w.rows| <= |w'.rows| && w'.rows[k].id == w.rows[k].id && w'.rows[k].who == w.rows[k].who
        && w.rows[k].cursor <= w'.rows[k].cursor
  {
    if step.CommitStep? && step.commits && step.caller in w.loaded {
      CommittedRow(w, w.loaded[step.caller], w.rows[k]);
    }
  }

  /** After its commit, every identity a caller had loaded, however long ago, shows all its events. */
  lemma CommitCatchesUp(w: World, caller: nat, r: Identity)
    requires Inv(w) && caller in w.loaded
    requires r in Next(w, CommitStep(caller, true)).rows && exists i :: i in w.loaded[caller] && i.id == r.id
    ensures r.stats == Total(STATS, StatsOf, Select(w.events, Any(r.who)))
  {
    var loaded := w.loaded[caller];
    var k :| 0 <= k < |w.rows| && WrittenBack(w.events, loaded, w.rows[k]) == r;
    CommittedRow(w, loaded, w.rows[k]);
    LoadedOfFinds(loaded, r.id);
    CountedIsComplete(w.events, r);
  }

  /** Two callers with the same snapshot write the same statistics: the second changes nothing. */
  lemma SecondCommitChangesNothing(w: World, a: nat, b: nat)
    requires Inv(w) && a in w.loaded && b in w.loaded && w.loaded[a] == w.loaded[b]
    ensures var once := Next(w, CommitStep(a, true)); Next(once, CommitStep(b, true)) == once
  {
    var once := Next(w, CommitStep(a, true));
    var twice := Next(once, CommitStep(b, true));
    forall k | 0 <= k < |w.rows| ensures twice.rows[k] == once.rows[k] {
      CommittedRow(w, w.loaded[a], w.rows[k]);
    }
    assert twice.rows == once.rows;
  }
}

/** Usage statistics per identity, accumulated behind an event cursor from snapshots that may be stale
    (internal/repository/usage_identities.go). */
module UsageIdentities {
  import opened Accounting
  import opened Aggregation
  import opened EventFigures
  import opened EventInsertion
  import opened UsageEvents

  /** The accumulated statistics; `None` for a missing first or last use. */
  datatype Stats = Stats(total: int, success: int, failure: int, first: Option<int>, last: Option<int>)

  function Earlier(a: Option<int>, b: Option<int>): Option<int> {
    if a.None? then b else if b.None? then a else if b.value < a.value then b else a
  }

  function Later(a: Option<int>, b: Option<int>): Option<int> {
    if a.None? then b else if b.None? then a else if a.value < b.value then b else a
  }

  function AddStats(a: Stats, b: Stats): Stats {
    Stats(a.total + b.total, a.success + b.success, a.failure + b.failure, Earlier(a.first, b.first),
          Later(a.last, b.last))
  }

  const NO_STATS := Stats(0, 0, 0, None, None)

  const STATS: Monoid<Stats> := Monoid(NO_STATS, AddStats)

  lemma StatsLawful()
    ensures Lawful(STATS)
  {
  }

  function StatsOf(e: UsageEvent): Stats {
    Stats(1, if e.failed then 0 else 1, if e.failed then 1 else 0, Some(e.timestamp), Some(e.timestamp))
  }

  /** What an identity is matched by. */
  datatype Who = Who(authType: int, identity: string)

  /** `CanonicalName`. */
  function CanonicalName(authType: int): Option<string> {
    if authType == 1 then Some("oauth") else if authType == 2 then Some("apikey") else None
  }

  predicate Matches(who: Who, e: UsageEvent) {
    CanonicalName(who.authType).Some? && e.authType == CanonicalName(who.authType).value && e.authIndex == who.identity
  }

  datatype Identity = Identity(id: nat, who: Who, metadata: string, deleted: bool, stats: Stats, cursor: nat)

  function After(who: Who, cursor: nat): UsageEvent -> bool { (e: UsageEvent) => Matches(who, e) && cursor < e.id }

  function UpTo(who: Who, cursor: nat): UsageEvent -> bool { (e: UsageEvent) => Matches(who, e) && e.id <= cursor }

  function Any(who: Who): UsageEvent -> bool { (e: UsageEvent) => Matches(who, e) }

  /** The statistics of the matching events up to a cursor. */
  function StatsUpTo(events: seq<UsageEvent>, who: Who, cursor: nat): Stats {
    Total(STATS, StatsOf, Select(events, UpTo(who, cursor)))
  }

  function MaxId(es: seq<UsageEvent>): nat {
    if es == [] then 0 else if MaxId(es[1..]) < es[0].id then es[0].id else MaxId(es[1..])
  }

  /** `aggregateUsageIdentityDelta`: the statistics and highest id of the matching events past the cursor. */
  function Delta(events: seq<UsageEvent>, i: Identity): (Stats, nat) {
    var more := Select(events, After(i.who, i.cursor));
    (Total(STATS, StatsOf, more), MaxId(more))
  }

  /** The columns one loaded identity writes back, absolute values from its snapshot. */
  function Accumulated(events: seq<UsageEvent>, i: Identity, r: Identity): Identity {
    var (delta, max) := Delta(events, i);
    if delta.total == 0 then r else r.(stats := AddStats(i.stats, delta), cursor := max)
  }

  /** The loaded identity of a row, if any. */
  function LoadedOf(loaded: seq<Identity>, id: nat): Option<Identity> {
    if loaded == [] then None else if loaded[0].id == id then Some(loaded[0]) else LoadedOf(loaded[1..], id)
  }

  function WrittenBack(events: seq<UsageEvent>, loaded: seq<Identity>, r: Identity): Identity {
    match LoadedOf(loaded, r.id)
    case None => r
    case Some(i) => Accumulated(events, i, r)
  }

  function CommitAll(events: seq<UsageEvent>, rows: seq<Identity>, loaded: seq<Identity>): (r: seq<Identity>)
    ensures |r| == |rows|
  {
    seq(|rows|, k requires 0 <= k < |rows| => WrittenBack(events, loaded, rows[k]))
  }

  // What the columns count

  /** The event is of this identity: its index, and one of the two known types by its canonical name. */
  predicate IsOf(who: Who, e: UsageEvent) {
    e.authIndex == who.identity
      && ((who.authType == 1 && e.authType == "oauth") || (who.authType == 2 && e.authType == "apikey"))
  }

  function OfUpTo(who: Who, cursor: nat): UsageEvent -> bool { (e: UsageEvent) => IsOf(who, e) && e.id <= cursor }

  function OfPast(who: Who, cursor: nat): UsageEvent -> bool { (e: UsageEvent) => IsOf(who, e) && e.id > cursor }

  /** A use that is one of these instants, and none of them is before it. */
  predicate IsFirst(first: Option<int>, es: seq<UsageEvent>) {
    && (first.None? <==> es == [])
    && (first.Some? ==>
       (exists e :: e in es && e.timestamp == first.value) && forall e :: e in es ==> first.value <= e.timestamp)
  }

  predicate IsLast(last: Option<int>, es: seq<UsageEvent>) {
    && (last.None? <==> es == [])
    && (last.Some? ==>
       (exists e :: e in es && e.timestamp == last.value) && forall e :: e in es ==> e.timestamp <= last.value)
  }

  /** The statistics count exactly these events. */
  predicate Tells(s: Stats, es: seq<UsageEvent>) {
    && s.total == |es|
    && s.success == CountBy(es, (e: UsageEvent) => !e.failed)
    && s.failure == CountBy(es, (e: UsageEvent) => e.failed)
    && IsFirst(s.first, es) && IsLast(s.last, es)
  }

  lemma {:induction false} MaxIdBounds(es: seq<UsageEvent>)
    ensures forall e :: e in es ==> e.id <= MaxId(es)
    ensures es != [] ==> exists e :: e in es && e.id == MaxId(es)
  {
    if es != [] {
      assert es == [es[0]] + es[1..];
      MaxIdBounds(es[1..]);
      if es[1..] != [] && es[0].id <= MaxId(es[1..]) {
        var e :| e in es[1..] && e.id == MaxId(es[1..]);
        assert e in es;
      } else {
        assert es[0] in es;
      }
    }
  }

  lemma {:induction false} TotalCounts(es: seq<UsageEvent>)
    ensures Total(STATS, StatsOf, es).total == |es|
  {
    if es != [] {
      TotalCounts(es[1..]);
    }
  }

  lemma {:induction false} UsesFound(es: seq<UsageEvent>)
    ensures IsFirst(Total(STATS, StatsOf, es).first, es) && IsLast(Total(STATS, StatsOf, es).last, es)
  {
    if es != [] {
      var rest := es[1..];
      UsesFound(rest);
      assert forall e :: e in es <==> e == es[0] || e in rest;
      var before, after := Total(STATS, StatsOf, rest), Total(STATS, StatsOf, es);
      assert after.first == Earlier(Some(es[0].timestamp), before.first);
      assert after.last == Later(Some(es[0].timestamp), before.last);
    }
  }

  lemma TotalTells(es: seq<UsageEvent>)
    ensures Tells(Total(STATS, StatsOf, es), es)
  {
    TotalCounts(es);
    ColumnCount(STATS, StatsOf, (s: Stats) => s.success, es, (e: UsageEvent) => !e.failed);
    ColumnCount(STATS, StatsOf, (s: Stats) => s.failure, es, (e: UsageEvent) => e.failed);
    UsesFound(es);
  }

  /** The statistics of an identity count the events of its type and index up to the cursor. */
  lemma StatsUpToTells(events: seq<UsageEvent>, who: Who, cursor: nat)
    ensures Tells(StatsUpTo(events, who, cursor), Select(events, OfUpTo(who, cursor)))
  {
    SelectSame(events, UpTo(who, cursor), OfUpTo(who, cursor));
    TotalTells(Select(events, OfUpTo(who, cursor)));
  }

  predicate IsEarlier(a: Option<int>, b: Option<int>) { a.Some? && (b.Some? ==> a.value <= b.value) }

  /** `after` counts some more events on top of `before`. */
  predicate AddsEvents(before: Stats, after: Stats, more: seq<UsageEvent>) {
    && after.total == before.total + |more|
    && after.success == before.success + CountBy(more, (e: UsageEvent) => !e.failed)
    && after.failure == before.failure + CountBy(more, (e: UsageEvent) => e.failed)
    && (forall e :: e in more ==> IsEarlier(after.first, Some(e.timestamp)) && IsEarlier(Some(e.timestamp), after.last))
    && (before.first.Some? ==> IsEarlier(after.first, before.first))
    && (before.last.Some? ==> IsEarlier(before.last, after.last))
    && (after.first == before.first || exists e :: e in more && after.first == Some(e.timestamp))
    && (after.last == before.last || exists e :: e in more && after.last == Some(e.timestamp))
  }

  lemma AddedStatsTell(before: Stats, delta: Stats, more: seq<UsageEvent>)
    requires Tells(delta, more)
    ensures AddsEvents(before, AddStats(before, delta), more)
  {
  }

  /** What a commit makes of a row: loaded identities count the events of their type and index past their own cursor on
      top of their own statistics, and move the cursor to the last of them; without any, or not loaded, the row stays.
      */
  ghost predicate CommitsRow(events: seq<UsageEvent>, loaded: seq<Identity>, r: Identity, after: Identity) {
    && ((forall i :: i in loaded ==> i.id != r.id) ==> after == r)
    && forall i :: i in loaded && i.id == r.id ==>
       var more := Select(events, OfPast(i.who, i.cursor));
       && (more == [] ==> after == r)
       && (more != [] ==>
          && after == r.(stats := after.stats, cursor := after.cursor) && AddsEvents(i.stats, after.stats, more)
          && (forall e :: e in more ==> e.id <= after.cursor) && exists e :: e in more && e.id == after.cursor)
  }

  lemma AccumulatedTells(events: seq<UsageEvent>, i: Identity, r: Identity)
    ensures CommitsRow(events, [i], r.(id := i.id), Accumulated(events, i, r.(id := i.id)))
  {
    var more := Select(events, OfPast(i.who, i.cursor));
    SelectSame(events, After(i.who, i.cursor), OfPast(i.who, i.cursor));
    TotalTells(more);
    MaxIdBounds(more);
    AddedStatsTell(i.stats, Delta(events, i).0, more);
    assert forall x :: x in [i] ==> x == i;
  }

  lemma {:induction false} OnlyLoaded(loaded: seq<Identity>, i: Identity)
    requires DistinctIds(loaded) && i in loaded
    ensures LoadedOf(loaded, i.id) == Some(i)
  {
    LoadedOfFinds(loaded, i.id);
    var a :| 0 <= a < |loaded| && loaded[a] == i;
    var b :| 0 <= b < |loaded| && loaded[b] == LoadedOf(loaded, i.id).value;
    assert a == b;
  }

  lemma CommitTells(events: seq<UsageEvent>, loaded: seq<Identity>, r: Identity)
    requires DistinctIds(loaded)
    ensures CommitsRow(events, loaded, r, WrittenBack(events, loaded, r))
  {
    LoadedOfFinds(loaded, r.id);
    match LoadedOf(loaded, r.id)
    case None =>
    case Some(i) =>
      AccumulatedTells(events, i, r);
      assert i in [i] && r.(id := i.id) == r;
      forall x | x in loaded && x.id == r.id ensures x == i {
        OnlyLoaded(loaded, x);
      }
  }

  predicate DistinctIds(rows: seq<Identity>) { forall i, j :: 0 <= i < j < |rows| ==> rows[i].id != rows[j].id }

  lemma {:induction false} LoadedOfFinds(loaded: seq<Identity>, id: nat)
    ensures LoadedOf(loaded, id).Some? ==> LoadedOf(loaded, id).value in loaded && LoadedOf(loaded, id).value.id == id
    ensures LoadedOf(loaded, id).None? ==> forall i :: i in loaded ==> i.id != id
  {
    if loaded != [] {
      LoadedOfFinds(loaded[1..], id);
      assert loaded == [loaded[0]] + loaded[1..];
    }
  }

  lemma {:induction false} LoadedOfStep(loaded: seq<Identity>, n: nat, id: nat)
    requires n < |loaded|
    ensures LoadedOf(loaded[..n + 1], id) ==
      if LoadedOf(loaded[..n], id).Some? then LoadedOf(loaded[..n], id)
      else if loaded[n].id == id then Some(loaded[n])
      else None
  {
    if n == 0 {
      assert loaded[..1] == [loaded[0]] && loaded[..0] == [];
    } else {
      assert loaded[..n + 1][1..] == loaded[1..][..n] && loaded[..n][1..] == loaded[1..][..n - 1];
      LoadedOfStep(loaded[1..], n - 1, id);
    }
  }

  function WriteOne(events: seq<UsageEvent>, i: Identity, r: Identity): Identity {
    if i.id == r.id then Accumulated(events, i, r) else r
  }

  lemma WrittenBackStep(events: seq<UsageEvent>, loaded: seq<Identity>, n: nat, r: Identity)
    requires DistinctIds(loaded) && n < |loaded|
    ensures WrittenBack(events, loaded[..n + 1], r) == WriteOne(events, loaded[n], WrittenBack(events, loaded[..n], r))
    ensures WrittenBack(events, loaded[..n], r).id == r.id
  {
    LoadedOfStep(loaded, n, r.id);
    LoadedOfFinds(loaded[..n], r.id);
  }

  /** The identity table. */
  class IdentityTable {
    var rows: seq<Identity>

    ghost predicate Valid()
      reads this
    {
      DistinctIds(rows)
    }

    constructor ()
      ensures Valid() && rows == []
    {
      rows := [];
    }

    /** Reads every row, outside of any transaction. */
    method Load() returns (identities: seq<Identity>)
      requires Valid()
      ensures identities == rows && DistinctIds(identities)
    {
      identities := rows;
    }

    /** `UPDATE ... WHERE id = ?` with absolute values. */
    method UpdateStats(id: nat, stats: Stats, cursor: nat)
      requires Valid()
      modifies this
      ensures Valid()
      ensures |rows| == |old(rows)|
      ensures forall k :: 0 <= k < |rows| ==>
        rows[k] == if old(rows)[k].id == id then old(rows)[k].(stats := stats, cursor := cursor) else old(rows)[k]
    {
      rows := seq(|rows|, k requires 0 <= k < |rows| reads this =>
        if rows[k].id == id then rows[k].(stats := stats, cursor := cursor) else rows[k]);
    }

    /** The transaction of `AggregateUsageIdentityStats`, over identities loaded before it began. */
    method Aggregate(identities: seq<Identity>, events: seq<UsageEvent>)
      requires Valid() && DistinctIds(identities)
      modifies this
      ensures Valid()
      ensures rows == CommitAll(events, old(rows), identities)
      ensures forall k :: 0 <= k < |rows| ==> CommitsRow(events, identities, old(rows)[k], rows[k])
    {
      for n := 0 to |identities|
        invariant Valid() && |rows| == |old(rows)|
        invariant forall k :: 0 <= k < |rows| ==> rows[k] == WrittenBack(events, identities[..n], old(rows)[k])
      {
        var identity := identities[n];
        forall k | 0 <= k < |rows|
          ensures WrittenBack(events, identities[..n + 1], old(rows)[k]) == WriteOne(events, identity, rows[k])
        {
          WrittenBackStep(events, identities, n, old(rows)[k]);
        }
        var (delta, max) := Delta(events, identity);
        if delta.total != 0 {
          UpdateStats(identity.id, AddStats(identity.stats, delta), max);
        }
      }
      assert identities[..|identities|] == identities;
      forall k | 0 <= k < |rows| ensures CommitsRow(events, identities, old(rows)[k], rows[k]) {
        CommitTells(events, identities, old(rows)[k]);
      }
    }
  }

  // Accumulation behind a cursor

  /** The statistics are those of the matching events up to the cursor. */
  ghost predicate Counted(events: seq<UsageEvent>, i: Identity) {
    && i.stats == StatsUpTo(events, i.who, i.cursor)
    && i.cursor <= |events|
    && (i.cursor == 0 || exists e :: e in events && Matches(i.who, e) && e.id == i.cursor)
  }

  /** What a committed write leaves: the statistics of all matching events, behind the highest of their ids. */
  lemma AccumulatedIsCounted(events: seq<UsageEvent>, i: Identity, r: Identity)
    requires WellNumbered(events) && Counted(events, i) && i.who == r.who
    requires Delta(events, i).0.total != 0
    ensures Counted(events, Accumulated(events, i, r))
    ensures i.cursor < Accumulated(events, i, r).cursor
    ensures forall e :: e in events && Matches(r.who, e) ==> e.id <= Accumulated(events, i, r).cursor
  {
    var more := Select(events, After(i.who, i.cursor));
    var max := MaxId(more);
    TotalCounts(more);
    MaxIdBounds(more);
    forall e | e in events ensures Matches(i.who, e) ==> e.id <= i.cursor || e.id <= max {
      SelectIn(events, After(i.who, i.cursor), e);
    }
    var top :| top in more && top.id == max;
    SelectIn(events, After(i.who, i.cursor), top);
    StatsLawful();
    TotalSplit(STATS, StatsOf, events, UpTo(i.who, i.cursor), After(i.who, i.cursor), UpTo(i.who, max));
  }

  /** Nothing new for a snapshot: its statistics already cover every matching event. */
  lemma NothingNew(events: seq<UsageEvent>, i: Identity)
    requires Delta(events, i).0.total == 0
    ensures forall e :: e in events && Matches(i.who, e) ==> e.id <= i.cursor
  {
    TotalCounts(Select(events, After(i.who, i.cursor)));
    forall e | e in events && Matches(i.who, e) ensures e.id <= i.cursor {
      SelectIn(events, After(i.who, i.cursor), e);
    }
  }

  lemma CountedIsComplete(events: seq<UsageEvent>, r: Identity)
    requires Counted(events, r) && forall e :: e in events && Matches(r.who, e) ==> e.id <= r.cursor
    ensures r.stats == Total(STATS, StatsOf, Select(events, Any(r.who)))
  {
    SelectSame(events, UpTo(r.who, r.cursor), Any(r.who));
  }

  /** Statistics stay right while new events arrive under higher ids. */
  lemma StillCounted(events: seq<UsageEvent>, more: seq<UsageEvent>, i: Identity)
    requires WellNumbered(events + more) && Counted(events, i)
    ensures Counted(events + more, i)
  {
    SelectAppend(events, more, UpTo(i.who, i.cursor));
    forall e | e in more ensures !UpTo(i.who, i.cursor)(e) {
      var k :| 0 <= k < |more| && more[k] == e;
      assert (events + more)[|events| + k] == e;
    }
    SelectNone(more, UpTo(i.who, i.cursor));
    assert Select(events, UpTo(i.who, i.cursor)) + [] == Select(events, UpTo(i.who, i.cursor));
  }
}

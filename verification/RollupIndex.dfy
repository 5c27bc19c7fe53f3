/** The rollup table as an index over the raw events: what every transaction keeps, over every run of
    inserts, range rebuilds and successful or failed backfill batches. */
module RollupIndex {
  import opened Accounting
  import opened Aggregation
  import opened EventInsertion
  import opened Rollups
  import opened Trimming
  import opened UsageEvents
  import opened UsageStore

  function Outside(pending: set<UsageEvent>): UsageEvent -> bool { e => e !in pending }

  /** The rollups are the grouping of the stored events other than `pending`, the events stored without
      an increment and not rebuilt since. */
  ghost predicate Consistent(s: Store, pending: set<UsageEvent>) {
    && WellNumbered(s.events)
    && (forall e :: e in s.events ==> Admitted(e))
    && (forall e :: e in pending ==> e in s.events)
    && s.rollups == Group(Select(s.events, Outside(pending)))
  }

  // Insertion

  ghost function PendingAfterInsert(s: Store, input: seq<UsageEvent>, pending: set<UsageEvent>): set<UsageEvent> {
    pending + set e | e in Insert(s, input).events && e !in s.events && !Indexable(e)
  }

  lemma StampedAdmitted(s: Store, input: seq<UsageEvent>, e: UsageEvent)
    requires forall r :: r in input ==> Admissible(r.facts)
    requires e in Insert(s, input).events && e !in s.events
    ensures Admitted(e)
  {
    StoredRowsWereOffered(s.events, StampedAll(input), e);
    var r :| r in StampedAll(input) && e == r.(id := e.id);
    var i :| 0 <= i < |input| && StampedAll(input)[i] == r;
    assert input[i] in input;
  }

  lemma AddedEventsAreNew(s: Store, input: seq<UsageEvent>)
    requires WellNumbered(s.events)
    ensures s.events <= Insert(s, input).events
    ensures WellNumbered(Insert(s, input).events)
    ensures forall e :: e in Insert(s, input).events[|s.events|..] ==> e in Insert(s, input).events && e !in s.events
  {
    InsertIgnoreGrows(s.events, StampedAll(input));
    InsertIgnoreWellNumbered(s.events, StampedAll(input));
  }

  lemma InsertKeepsIndex(s: Store, input: seq<UsageEvent>, pending: set<UsageEvent>)
    requires Consistent(s, pending)
    ensures Insert(s, input).rollups
      == Group(Select(Insert(s, input).events, Outside(PendingAfterInsert(s, input, pending))))
  {
    var t, after := Insert(s, input), PendingAfterInsert(s, input, pending);
    AddedEventsAreNew(s, input);
    var added := t.events[|s.events|..];
    assert t.events == s.events + added;
    SelectAppend(s.events, added, Outside(after));
    SelectSame(s.events, Outside(pending), Outside(after));
    SelectSame(added, Indexable, Outside(after));
    RollupsLawful();
    GroupAppend(ROLLUPS, KeyOf, RowOf, Select(s.events, Outside(pending)), Select(added, Indexable));
  }

  /** Insertion keeps the index; only rows whose key is blank or padded join the pending events. */
  lemma InsertKeepsConsistent(s: Store, input: seq<UsageEvent>, pending: set<UsageEvent>)
    requires Consistent(s, pending)
    requires forall r :: r in input ==> Admissible(r.facts)
    ensures Consistent(Insert(s, input), PendingAfterInsert(s, input, pending))
  {
    InsertKeepsIndex(s, input, pending);
    AddedEventsAreNew(s, input);
    forall e | e in Insert(s, input).events ensures Admitted(e) {
      if e !in s.events { StampedAdmitted(s, input, e); }
    }
  }

  /** With trimmed non-blank keys nothing becomes pending. */
  lemma IndexableInsertAddsNoPending(s: Store, input: seq<UsageEvent>, pending: set<UsageEvent>)
    requires forall r :: r in input ==> Indexable(r)
    ensures PendingAfterInsert(s, input, pending) == pending
  {
    forall e | e in Insert(s, input).events && e !in s.events ensures Indexable(e) {
      StoredRowsWereOffered(s.events, StampedAll(input), e);
      var r :| r in StampedAll(input) && e == r.(id := e.id);
      var i :| 0 <= i < |input| && StampedAll(input)[i] == r;
      assert input[i] in input;
    }
  }

  // Range rebuilds

  ghost function PendingAfterRebuild(pending: set<UsageEvent>, first: int, last: int): set<UsageEvent> {
    set e | e in pending && !HourIn(e.timestamp, first, last)
  }

  function KeyIn(first: int, last: int): RollupKey -> bool { (k: RollupKey) => first <= k.bucketStart <= last }

  function KeyOut(first: int, last: int): RollupKey -> bool { (k: RollupKey) => !(first <= k.bucketStart <= last) }

  function EventOut(first: int, last: int): UsageEvent -> bool { (e: UsageEvent) => !HourIn(e.timestamp, first, last) }

  lemma HoursOfTimestamps(t: int, first: int, last: int)
    requires Aligned(first) && Aligned(last)
    ensures HourIn(t, first, last) <==> first <= t < last + HOUR
  {
    HourUnique(t, first);
    HourUnique(t, last + HOUR);
    HourUnique(t, last);
  }

  /** A rebuild makes its hours exact and leaves every other hour as it was. */
  lemma RebuildKeepsConsistent(s: Store, first: int, last: int, pending: set<UsageEvent>)
    requires Consistent(s, pending) && Aligned(first) && Aligned(last) && first <= last
    ensures Consistent(RebuildRange(s, first, last), PendingAfterRebuild(pending, first, last))
  {
    var after := PendingAfterRebuild(pending, first, last);
    var es := s.events;
    var before, now := Select(es, Outside(pending)), Select(es, Outside(after));
    var keyIn, keyOut, eventIn, eventOut :=
      KeyIn(first, last), KeyOut(first, last), EventIn(first, last), EventOut(first, last);
    GroupRestrict(ROLLUPS, KeyOf, RowOf, before, eventOut, keyOut);
    GroupRestrict(ROLLUPS, KeyOf, RowOf, now, eventOut, keyOut);
    GroupRestrict(ROLLUPS, KeyOf, RowOf, now, eventIn, keyIn);
    OutsideRangeUnchanged(es, pending, after, first, last);
    InsideRangeComplete(es, after, first, last);
    RebuildIsUnion(s, first, last);
    UnionOfRestrictions(Group(now), keyOut, keyIn);
  }

  lemma RebuildIsUnion(s: Store, first: int, last: int)
    requires first <= last
    ensures RebuildRange(s, first, last).rollups
         == RestrictGroups(s.rollups, KeyOut(first, last)) + Group(Select(s.events, TimestampIn(first, last + HOUR)))
  {
    assert (map k | k in s.rollups && !(first <= k.bucketStart <= last) :: s.rollups[k])
      == RestrictGroups(s.rollups, KeyOut(first, last));
  }

  lemma UnionOfRestrictions<K(!new), M>(g: map<K, M>, p: K -> bool, q: K -> bool)
    requires forall k :: p(k) == !q(k)
    ensures g == RestrictGroups(g, p) + RestrictGroups(g, q)
  {
  }

  lemma OutsideRangeUnchanged(es: seq<UsageEvent>, pending: set<UsageEvent>, after: set<UsageEvent>, first: int,
                              last: int)
    requires after == PendingAfterRebuild(pending, first, last)
    ensures Select(Select(es, Outside(pending)), EventOut(first, last))
      == Select(Select(es, Outside(after)), EventOut(first, last))
  {
    var both := (e: UsageEvent) => e !in pending && !HourIn(e.timestamp, first, last);
    SelectTwice(es, Outside(pending), EventOut(first, last), both);
    SelectTwice(es, Outside(after), EventOut(first, last), both);
  }

  lemma InsideRangeComplete(es: seq<UsageEvent>, after: set<UsageEvent>, first: int, last: int)
    requires Aligned(first) && Aligned(last)
    requires forall e :: e in after ==> !HourIn(e.timestamp, first, last)
    ensures Select(Select(es, Outside(after)), EventIn(first, last)) == Select(es, TimestampIn(first, last + HOUR))
  {
    SelectTwice(es, Outside(after), EventIn(first, last), EventIn(first, last));
    forall e: UsageEvent ensures EventIn(first, last)(e) == TimestampIn(first, last + HOUR)(e) {
      HoursOfTimestamps(e.timestamp, first, last);
    }
    SelectSame(es, EventIn(first, last), TimestampIn(first, last + HOUR));
  }

  // Exactness

  /** Every hour agrees with the raw events. */
  ghost predicate Exact(s: Store) { s.rollups == Group(s.events) }

  lemma {:induction false} SelectShorter(es: seq<UsageEvent>, p: UsageEvent -> bool, q: UsageEvent -> bool,
                                         e: UsageEvent)
    requires forall x :: x in es && p(x) ==> q(x)
    requires e in es && q(e) && !p(e)
    ensures |Select(es, p)| < |Select(es, q)|
  {
    if es[0] == e {
      SelectNoLonger(es[1..], p, q);
    } else {
      SelectShorter(es[1..], p, q, e);
    }
  }

  lemma {:induction false} SelectNoLonger(es: seq<UsageEvent>, p: UsageEvent -> bool, q: UsageEvent -> bool)
    requires forall x :: x in es && p(x) ==> q(x)
    ensures |Select(es, p)| <= |Select(es, q)|
  {
    if es != [] {
      SelectNoLonger(es[1..], p, q);
    }
  }

  function AtKeyOutside(k: RollupKey, pending: set<UsageEvent>): UsageEvent -> bool {
    e => e !in pending && KeyOf(e) == k
  }

  /** A pending event is missing from the request count of its own rollup row. */
  lemma PendingIsMissing(s: Store, pending: set<UsageEvent>, e: UsageEvent)
    requires Consistent(s, pending) && e in pending
    ensures KeyOf(e) in Group(s.events)
    ensures KeyOf(e) in s.rollups ==> s.rollups[KeyOf(e)].requests < Group(s.events)[KeyOf(e)].requests
  {
    var k, indexed := KeyOf(e), Select(s.events, Outside(pending));
    SelectTwice(s.events, Outside(pending), At(KeyOf, k), AtKeyOutside(k, pending));
    SelectShorter(s.events, AtKeyOutside(k, pending), At(KeyOf, k), e);
    RequestsAreCounted(Select(indexed, At(KeyOf, k)));
    RequestsAreCounted(Select(s.events, At(KeyOf, k)));
  }

  /** The rollups agree with the raw events exactly when nothing is pending. */
  lemma ExactIffNothingPending(s: Store, pending: set<UsageEvent>)
    requires Consistent(s, pending)
    ensures Exact(s) <==> pending == {}
  {
    if pending == {} {
      SelectAll(s.events, Outside(pending));
    } else {
      var e :| e in pending;
      PendingIsMissing(s, pending, e);
    }
  }

  /** A condition on the offered rows: the first one of each new key has a trimmed, non-blank key. */
  ghost predicate NewRowsIndexable(s: Store, input: seq<UsageEvent>) {
    forall i :: 0 <= i < |input| && FirstOfNewKey(EventKeys(s.events), input, i) ==> Indexable(input[i])
  }

  lemma StampedKey(input: seq<UsageEvent>, i: nat)
    requires i < |input|
    ensures StampedAll(input)[i].eventKey == input[i].eventKey
  {
  }

  lemma StampingKeepsFirsts(known: set<string>, input: seq<UsageEvent>, i: nat)
    requires i < |input|
    ensures FirstOfNewKey(known, StampedAll(input), i) <==> FirstOfNewKey(known, input, i)
    ensures Indexable(StampedAll(input)[i]) <==> Indexable(input[i])
  {
    forall j: nat | j <= i ensures StampedAll(input)[j].eventKey == input[j].eventKey {
      StampedKey(input, j);
    }
  }

  ghost predicate StoresIndexable(s: Store, input: seq<UsageEvent>) {
    forall e :: e in Insert(s, input).events && e !in s.events ==> Indexable(e)
  }

  lemma StoresIndexableIff(s: Store, input: seq<UsageEvent>)
    requires WellNumbered(s.events)
    ensures StoresIndexable(s, input) <==> NewRowsIndexable(s, input)
  {
    var known, rows := EventKeys(s.events), StampedAll(input);
    var added := FirstOccurrences(known, rows, |s.events|);
    InsertIgnoreIsFirstOccurrences(s.events, rows);
    AddedEventsAreNew(s, input);
    assert Insert(s, input).events[|s.events|..] == added;
    forall e ensures e in Insert(s, input).events && e !in s.events <==> e in added {
    }
    FirstOccurrencesIndexableIff(known, rows, |s.events|);
    forall i: nat | i < |input|
      ensures (FirstOfNewKey(known, rows, i) <==> FirstOfNewKey(known, input, i))
        && (Indexable(rows[i]) <==> Indexable(input[i]))
    {
      StampingKeepsFirsts(known, input, i);
    }
  }

  lemma NothingJoinsIff(s: Store, input: seq<UsageEvent>)
    ensures PendingAfterInsert(s, input, {}) == {} <==> StoresIndexable(s, input)
  {
    var after := PendingAfterInsert(s, input, {});
    forall e ensures e in after <==> e in Insert(s, input).events && e !in s.events && !Indexable(e) {
    }
  }

  /** An insertion into an exact store leaves it exact if and only if the first offered row of each new key
      has a trimmed, non-blank key. */
  lemma InsertKeepsExactIff(s: Store, input: seq<UsageEvent>)
    requires Consistent(s, {})
    requires forall r :: r in input ==> Admissible(r.facts)
    ensures Exact(Insert(s, input)) <==> NewRowsIndexable(s, input)
  {
    var t, after := Insert(s, input), PendingAfterInsert(s, input, {});
    assert Consistent(t, after) by { InsertKeepsConsistent(s, input, {}); }
    ExactIffNothingPending(t, after);
    NothingJoinsIff(s, input);
    StoresIndexableIff(s, input);
  }

  /** One padded key is enough: into the empty store, a row whose key begins with a space. */
  lemma PaddedKeyIsMissed(e: UsageEvent, s: Store)
    requires e.eventKey == " k" && Admissible(e.facts)
    requires s == Store([], map[], BackfillStatus(Pending, None, None))
    ensures Exact(s) && !Exact(Insert(s, [e]))
  {
    assert [' '] + "k" == " k" && "" + "k" + "" == "k";
    PaddingIsTrimmed(" ", "k", "", IsSpace);
    assert " " + "k" + "" == " k";
    assert FirstOfNewKey(EventKeys(s.events), [e], 0) && !Indexable([e][0]);
    assert Select(s.events, Outside({})) == [];
    InsertKeepsExactIff(s, [e]);
  }
}

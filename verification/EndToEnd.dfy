/** From queue messages to reported figures: decoding, intake, rollup index and analytics together
    (internal/service/redis_usage.go, redis_usage_processor.go, internal/repository/analytics_core.go). */
module EndToEnd {
  import opened Accounting
  import opened AggregateRows
  import opened Aggregation
  import opened AnalyticsPlan
  import opened EventInsertion
  import opened InboxInterleaving
  import opened InboxPipeline
  import opened InboxRuns
  import opened MixedReads
  import opened QueueMessages
  import opened Trimming
  import opened UsageEvents
  import opened WindowPlan
  import ExactlyOnce
  import ReachableReads
  import ReportedFigures
  import UsageStore

  lemma DecodedIsClean(c: Codec, id: nat, message: string, poppedAt: Option<int>)
    requires EventOf(IntakeDecoding(c), id, message, poppedAt).Some?
    ensures var e := EventOf(IntakeDecoding(c), id, message, poppedAt).value; WellFormed(e.facts) && Clean(e)
  {
    var e := Meaning(c, message, poppedAt.value).value;
    MeaningIsProjected(c, message, poppedAt.value);
    TrimIdempotent(e.provider);
    TrimIdempotent(e.model);
  }

  /** A turn never offers inadmissible facts: decoding refused them, so its insert fails only if the
      transaction does. */
  lemma TurnsFailOnlyWithTheTransaction(c: Codec, p: Intake, f: TurnFaults)
    ensures Inserts(IntakeDecoding(c), p, f) <==> f.insertCommits
  {
    var d := IntakeDecoding(c);
    forall e | e in Offered(d, p, f) ensures Admissible(e.facts) {
      var r := OfferedOf(d, p, f, e);
      DecodedIsClean(c, r.id, r.message, r.poppedAt);
    }
  }

  /** Also when other sections come between the decoding and the insert of a turn. */
  lemma InsertsFailOnlyWithTheTransaction(c: Codec, w: World, t: TurnState, commits: bool)
    requires t.left == [] && t.good != [] && t.inserted.None? && AllDecode(IntakeDecoding(c), t.good)
    ensures InsertAll(IntakeDecoding(c), w, t, commits).turn == Some(t.(inserted := Some(commits)))
  {
    var d := IntakeDecoding(c);
    forall e | e in EventsOf(d, t.good) ensures Admissible(e.facts) {
      var r := RowOfEvent(d, t.good, e);
      DecodedIsClean(c, r.id, r.message, r.poppedAt);
    }
  }

  lemma SameTextIsClean(e: UsageEvent, x: UsageEvent, id: nat)
    requires Clean(x) && e == UsageStore.Stamped(x).(id := id)
    ensures Clean(e)
  {
  }

  /** On an installation that starts empty, a stored event is the decoding of a popped message. */
  lemma StoredIsDecoded(d: Decoding, v: World, e: UsageEvent) returns (id: nat)
    requires Inv(d, v) && v.base == {} && e in v.tracked.store.events
    ensures id in v.popped && e.eventKey == d.key(id) && EventOfPopped(d, v, id).Some?
    ensures e == UsageStore.Stamped(EventOfPopped(d, v, id).value).(id := e.id) && e !in v.tracked.pending
  {
    assert EventInv(d, v, e);
    id :| id in v.popped && e.eventKey == d.key(id);
    assert v.first <= id;
  }

  /** It reads the same from the raw table and from its rollup row. */
  lemma IntakeEventsAreClean(c: Codec, v: World, e: UsageEvent)
    requires Inv(IntakeDecoding(c), v) && v.base == {} && e in v.tracked.store.events
    ensures Clean(e) && e !in v.tracked.pending
  {
    var d := IntakeDecoding(c);
    var id := StoredIsDecoded(d, v, e);
    DecodedIsClean(c, id, v.popped[id].message, v.popped[id].poppedAt);
    SameTextIsClean(e, EventOfPopped(d, v, id).value, e.id);
  }

  /** A store that starts empty. */
  ghost predicate Fresh(d: Decoding, w: World) { Initial(d, w) && w.tracked.store.events == [] }

  lemma FreshRun(c: Codec, w: World, sections: seq<Section>)
    requires Fresh(IntakeDecoding(c), w)
    ensures Inv(IntakeDecoding(c), After(IntakeDecoding(c), w, sections))
      && After(IntakeDecoding(c), w, sections).base == {}
  {
    IntakeKeysAreDistinct(c);
    InterleavingKeepsInv(IntakeDecoding(c), w, sections);
    BaseNeverChanges(IntakeDecoding(c), w, sections);
  }

  /** Whatever the intake went through, every window, provider and price table gives the same summary through
      the rollups as through the raw events, at any time. */
  lemma ReportsAreRaw(c: Codec, w: World, sections: seq<Section>, f: Filter, prices: Prices)
    requires Fresh(IntakeDecoding(c), w)
    ensures var s := After(IntakeDecoding(c), w, sections).tracked.store;
      MapSummary(PlanTotal(s, RollupWindowPlan(f), EVERYTHING, prices))
        == MapSummary(RawTotal(s.events, f, EVERYTHING, prices))
  {
    FreshRun(c, w, sections);
    StateReportsAreRaw(c, After(IntakeDecoding(c), w, sections), f, prices);
  }

  lemma StateReportsAreRaw(c: Codec, v: World, f: Filter, prices: Prices)
    requires Inv(IntakeDecoding(c), v) && v.base == {}
    ensures var s := v.tracked.store;
      MapSummary(PlanTotal(s, RollupWindowPlan(f), EVERYTHING, prices))
        == MapSummary(RawTotal(s.events, f, EVERYTHING, prices))
  {
    forall e | e in v.tracked.store.events ensures Clean(e) && e !in v.tracked.pending {
      IntakeEventsAreClean(c, v, e);
    }
    assert v.tracked.pending == {};
    assert ReachableReads.AllClean(v.tracked.store);
    if RollupWindowPlan(f).rollup.Some? {
      ReachableReads.EverythingRenders(v.tracked.store, RollupWindowPlan(f).rollup.value);
    }
    PlanMatchesRaw(v.tracked.store, {}, f, EVERYTHING, prices);
    SameSummary(PlanTotal(v.tracked.store, RollupWindowPlan(f), EVERYTHING, prices),
                RawTotal(v.tracked.store.events, f, EVERYTHING, prices));
  }

  /** An event as stored: under its key, with its row id, and with the state of its facts. */
  lemma StampedIsEventOf(c: Codec, q: QueuedUsage, poppedAt: int, x: UsageEvent, e: UsageEvent)
    requires IsEventOf(c, q, poppedAt, x) && WellFormed(x.facts)
    requires e == UsageStore.Stamped(x.(eventKey := e.eventKey)).(id := e.id)
    ensures IsEventOf(c, q, poppedAt, e) && e.state.Valid?
  {
  }

  /** Every stored event is what its own message says, field by field: of some popped message under whose key it is
      stored, with valid accounting. */
  lemma StoredEventIsOfMessage(c: Codec, w: World, sections: seq<Section>, e: UsageEvent) returns (id: nat)
    requires Fresh(IntakeDecoding(c), w) && e in After(IntakeDecoding(c), w, sections).tracked.store.events
    ensures var v := After(IntakeDecoding(c), w, sections);
      && id in v.popped && v.popped[id].poppedAt.Some? && c.parse(v.popped[id].message).Some?
      && e.eventKey == ExactlyOnce.InboxKey(id) && e.state.Valid?
      && IsEventOf(c, c.parse(v.popped[id].message).value, v.popped[id].poppedAt.value, e)
  {
    var d, v := IntakeDecoding(c), After(IntakeDecoding(c), w, sections);
    FreshRun(c, w, sections);
    id := StoredIsDecoded(d, v, e);
    var message, poppedAt := v.popped[id].message, v.popped[id].poppedAt.value;
    DecodedIsOfMessage(c, message, poppedAt);
    MeaningIsProjected(c, message, poppedAt);
    StampedIsEventOf(c, c.parse(message).value, poppedAt, Meaning(c, message, poppedAt).value, e);
  }

  /** And the summary reported through the rollups tells the figures of exactly the stored events in its scope. */
  lemma ReportsTell(c: Codec, w: World, sections: seq<Section>, f: Filter, prices: Prices)
    requires Fresh(IntakeDecoding(c), w)
    ensures var s := After(IntakeDecoding(c), w, sections).tracked.store;
      ReportedFigures.SummaryTells(MapSummary(PlanTotal(s, RollupWindowPlan(f), EVERYTHING, prices)),
                                   Select(s.events, ReportedFigures.Scope(f)), prices)
  {
    FreshRun(c, w, sections);
    ReportsAreRaw(c, w, sections, f, prices);
    ReportedFigures.RawSummaryTells(After(IntakeDecoding(c), w, sections).tracked.store.events, f, prices);
  }

  // Conservation

  predicate OneEventPerKey(es: seq<UsageEvent>) {
    forall i, j :: 0 <= i < j < |es| ==> es[i].eventKey != es[j].eventKey
  }

  lemma {:induction false} DistinctKeysCount(es: seq<UsageEvent>)
    requires OneEventPerKey(es)
    ensures |EventKeys(es)| == |es|
  {
    if es != [] {
      var front, last := es[..|es| - 1], es[|es| - 1];
      assert es == front + [last];
      DistinctKeysCount(front);
      assert last.eventKey !in EventKeys(front);
      assert EventKeys(es) == EventKeys(front) + {last.eventKey};
    }
  }

  lemma {:induction false} InjectiveImageCount(ids: set<nat>, key: nat -> string)
    requires forall a, b :: key(a) == key(b) ==> a == b
    ensures |set id | id in ids :: key(id)| == |ids|
    decreases |ids|
  {
    if ids != {} {
      var id :| id in ids;
      InjectiveImageCount(ids - {id}, key);
      assert (set x | x in ids :: key(x)) == (set x | x in ids - {id} :: key(x)) + {key(id)};
    }
  }

  lemma {:induction false} SelectedKeysAreDistinct(es: seq<UsageEvent>, keep: UsageEvent -> bool)
    requires OneEventPerKey(es)
    ensures OneEventPerKey(Select(es, keep))
  {
    if es != [] {
      var rest := es[1..];
      forall i, j | 0 <= i < j < |rest| ensures rest[i].eventKey != rest[j].eventKey {
        assert es[i + 1].eventKey != es[j + 1].eventKey;
      }
      SelectedKeysAreDistinct(rest, keep);
      forall e | e in Select(rest, keep) ensures e.eventKey != es[0].eventKey {
        SelectIn(rest, keep, e);
        var j :| 0 <= j < |rest| && rest[j] == e;
        assert es[0].eventKey != es[j + 1].eventKey;
      }
    }
  }

  /** The popped messages whose event is stored and lies in a window, under a provider. */
  ghost function Delivered(d: Decoding, v: World, f: Filter): set<nat> {
    set id | id in v.popped && HasEvent(v, d.key(id)) && EventOfPopped(d, v, id).Some?
             && InRaw(f, EVERYTHING)(EventOfPopped(d, v, id).value)
  }

  lemma SelectedAreDeliveries(d: Decoding, v: World, f: Filter)
    requires Inv(d, v) && DistinctKeys(d) && v.base == {}
    ensures |Select(v.tracked.store.events, InRaw(f, EVERYTHING))| == |Delivered(d, v, f)|
  {
    var es, ids := v.tracked.store.events, Delivered(d, v, f);
    var some := Select(es, InRaw(f, EVERYTHING));
    forall e | e in some ensures exists id :: id in ids && e.eventKey == d.key(id) {
      SelectIn(es, InRaw(f, EVERYTHING), e);
      var id := StoredIsDecoded(d, v, e);
      assert id in ids;
    }
    forall id | id in ids ensures d.key(id) in EventKeys(some) {
      var e :| e in es && e.eventKey == d.key(id);
      assert EventInv(d, v, e) && v.first <= id;
      SelectIn(es, InRaw(f, EVERYTHING), e);
    }
    assert EventKeys(some) == set id | id in ids :: d.key(id);
    SelectedKeysAreDistinct(es, InRaw(f, EVERYTHING));
    DistinctKeysCount(some);
    InjectiveImageCount(ids, d.key);
  }

  /** For every window and provider the reported number of requests, through the rollups or the raw events, is
      the number of popped messages delivered with an event in it: none is lost between the inbox and the
      report, and none is counted twice. */
  lemma ReportedRequestsAreDeliveries(c: Codec, w: World, sections: seq<Section>, f: Filter, prices: Prices)
    requires Fresh(IntakeDecoding(c), w)
    ensures var d, v := IntakeDecoding(c), After(IntakeDecoding(c), w, sections);
      && MapSummary(PlanTotal(v.tracked.store, RollupWindowPlan(f), EVERYTHING, prices)).totals.requests
         == |Delivered(d, v, f)|
      && MapSummary(PlanTotal(v.tracked.store, RawPlan(f), EVERYTHING, prices)).totals.requests == |Delivered(d, v, f)|
  {
    var d := IntakeDecoding(c);
    var v := After(d, w, sections);
    FreshRun(c, w, sections);
    IntakeKeysAreDistinct(c);
    ReportsAreRaw(c, w, sections, f, prices);
    ReachableReads.RawPlanIsRaw(v.tracked.store, f, EVERYTHING, prices);
    SelectedAreDeliveries(d, v, f);
    RequestsOfRows(Select(v.tracked.store.events, InRaw(f, EVERYTHING)), prices);
  }
}

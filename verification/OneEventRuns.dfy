/** Runs that put one given event into the rollups of an installation that starts empty: the smallest
    reachable stores whose rollups are read. */
module OneEventRuns {
  import opened Accounting
  import opened Aggregation
  import opened AnalyticsPlan
  import opened BackfillRuns
  import opened EventInsertion
  import opened GroupedReads
  import opened RollupIndex
  import opened Rollups
  import opened Trimming
  import opened UsageEvents
  import opened UsageStore
  import opened WindowPlan

  function OneEvent(provider: string, t: int): UsageEvent {
    UsageEvent(1, "k", "", provider, "", "", t, "", "", false, 0, None, Absent, NO_FACTS, None, None)
  }

  lemma OneEventIsIndexable(provider: string, t: int)
    ensures Indexable(OneEvent(provider, t)) && Admitted(OneEvent(provider, t))
  {
    NoEdgeIsTrimmed("k", IsSpace);
  }

  /** A first batch finds nothing to rebuild and completes the backfill; then the event arrives. */
  function OneEventSteps(provider: string, t: int, now: int): seq<Step> {
    [BatchStep(now, 24, NoFault), InsertStep([OneEvent(provider, t)], true)]
  }

  const NEW_INSTALLATION := Tracked(Store([], map[], BackfillStatus(Pending, None, None)), {}, None)

  /** The store after the first batch. */
  lemma EmptyBackfill(now: int)
    ensures var s := BackfillBatch(Store([], map[], BackfillStatus(Pending, None, None)), now, 24, NoFault);
      RollupReadAllowed(s.backfill) && s.events == [] && s.rollups == map[]
  {
    TargetAligned(BackfillStatus(Pending, None, None), now);
  }

  lemma InsertIntoNothing(s: Store, e: UsageEvent)
    requires s.events == [] && e.id == 1 && Stamped(e) == e
    ensures Insert(s, [e]).events == [e] && Insert(s, [e]).backfill == s.backfill
  {
    assert StampedAll([e]) == [e] && [e][1..] == [];
    assert e.(id := |s.events| + 1) == e;
    assert InsertIgnore([], [e]) == [e];
  }

  /** The run is one of production, and its store is exact, readable and holds just the event. */
  lemma OneEventRun(provider: string, t: int, now: int)
    ensures var steps, e := OneEventSteps(provider, t, now), OneEvent(provider, t);
      var s := Run(NEW_INSTALLATION, steps).store;
      && Initial(NEW_INSTALLATION) && (forall step :: step in steps ==> Production(step))
      && s.events == [e] && RollupReadAllowed(s.backfill) && Consistent(s, {}) && Exact(s)
  {
    var steps, e := OneEventSteps(provider, t, now), OneEvent(provider, t);
    OneEventIsIndexable(provider, t);
    forall step | step in steps ensures Production(step) {
    }
    TwoSteps(NEW_INSTALLATION, steps[0], steps[1]);
    var first := Next(NEW_INSTALLATION, steps[0]);
    EmptyBackfill(now);
    InsertIntoNothing(first.store, e);
    RunKeepsInv(NEW_INSTALLATION, steps);
    RunTracksLegacy(NEW_INSTALLATION, steps);
    var r := Run(NEW_INSTALLATION, steps);
    ExactIffNothingPending(r.store, r.pending);
  }

  // What is read from such a store

  lemma InRollupGroup<B(!new)>(s: Store, e: UsageEvent, f: Filter, g: Filter, w: Where, d: Dimension<B>, prices: Prices)
    requires e in s.events && s.rollups == Group(s.events) && w.key(KeyOf(e))
    requires RollupWindowPlan(f).rollup == Some(g)
    requires TrimSpace(e.provider) == TrimSpace(f.provider) && Covers(g, HourOf(e.timestamp))
    ensures d.key(KeyOf(e)) in PlanGroups(s, RollupWindowPlan(f), w, d, prices)
  {
    TrimIdempotent(f.provider);
    assert KeyOf(e) in RollupKeysIn(s, g, w);
    assert d.key(KeyOf(e)) in RollupGroups(s, g, w, d, prices);
  }

  lemma NotInRawGroup<B(!new)>(es: seq<UsageEvent>, f: Filter, w: Where, d: Dimension<B>, prices: Prices, b: B)
    requires forall e :: e in es && InRaw(f, w)(e) ==> d.event(e) != b
    ensures b !in RawGroups(es, f, w, d, prices)
  {
    forall x | x in Select(es, InRaw(f, w)) ensures d.event(x) != b {
      SelectIn(es, InRaw(f, w), x);
    }
  }
}

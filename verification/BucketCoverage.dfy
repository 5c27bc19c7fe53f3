/** The rollup table hour by hour: which events of a bucket its rows count, in every production run
    (internal/repository/usage_rollups_hourly.go, usage_rollup_backfill_runner.go). */
module BucketCoverage {
  import opened Aggregation
  import opened BackfillRuns
  import opened RollupIndex
  import opened Rollups
  import opened UsageEvents
  import opened UsageStore

  function InBucket(h: int): RollupKey -> bool { (k: RollupKey) => k.bucketStart == h }

  function OfHour(h: int): UsageEvent -> bool { (e: UsageEvent) => HourOf(e.timestamp) == h }

  /** The events of an hour that were not there before the rollups. */
  function NewOfHour(h: int, legacy: seq<UsageEvent>): UsageEvent -> bool {
    (e: UsageEvent) => HourOf(e.timestamp) == h && e !in legacy
  }

  /** The rollup rows of one hour. */
  ghost function Bucket(s: Store, h: int): map<RollupKey, HourlyRollup> { RestrictGroups(s.rollups, InBucket(h)) }

  /** They group the events of the hour that are not pending. */
  lemma BucketIsGroup(s: Store, pending: set<UsageEvent>, h: int)
    requires Consistent(s, pending)
    ensures Bucket(s, h) == Group(Select(Select(s.events, Outside(pending)), OfHour(h)))
  {
    GroupRestrict(ROLLUPS, KeyOf, RowOf, Select(s.events, Outside(pending)), OfHour(h), InBucket(h));
  }

  /** A bucket groups all raw events of its hour if and only if none of them is pending. */
  lemma BucketIsExactIff(s: Store, pending: set<UsageEvent>, h: int)
    requires Consistent(s, pending)
    ensures Bucket(s, h) == Group(Select(s.events, OfHour(h)))
      <==> forall e :: e in pending ==> HourOf(e.timestamp) != h
  {
    GroupRestrict(ROLLUPS, KeyOf, RowOf, s.events, OfHour(h), InBucket(h));
    if e :| e in pending && HourOf(e.timestamp) == h {
      PendingIsMissing(s, pending, e);
      assert KeyOf(e) in RestrictGroups(Group(s.events), InBucket(h));
    } else {
      BucketIsGroup(s, pending, h);
      SelectTwice(s.events, Outside(pending), OfHour(h), OfHour(h));
    }
  }

  predicate HourCovered(b: BackfillStatus, h: int) { b.covered.Some? && h <= b.covered.value }

  /** An hour that is not covered has exactly its new events in the rollups. */
  lemma UncoveredBucket(s: Store, pending: set<UsageEvent>, legacy: seq<UsageEvent>, h: int)
    requires Consistent(s, pending) && pending == Uncovered(legacy, s.backfill) && !HourCovered(s.backfill, h)
    ensures Bucket(s, h) == Group(Select(s.events, NewOfHour(h, legacy)))
  {
    BucketIsGroup(s, pending, h);
    SelectTwice(s.events, Outside(pending), OfHour(h), NewOfHour(h, legacy));
  }

  /** The state of every hour in every production run. Its rollups group all its raw events if and only if the
      hour is covered or no event was stored in it before the rollups; otherwise they group those stored since. */
  lemma EveryBucket(t: Tracked, steps: seq<Step>, h: int)
    requires Initial(t) && forall step :: step in steps ==> Production(step)
    ensures var s := Run(t, steps).store;
      && (Bucket(s, h) == Group(Select(s.events, OfHour(h)))
          <==> HourCovered(s.backfill, h) || forall e :: e in t.store.events ==> HourOf(e.timestamp) != h)
      && (!HourCovered(s.backfill, h) ==> Bucket(s, h) == Group(Select(s.events, NewOfHour(h, t.store.events))))
  {
    var r := Run(t, steps);
    RunKeepsInv(t, steps);
    RunTracksLegacy(t, steps);
    BucketIsExactIff(r.store, r.pending, h);
    if !HourCovered(r.store.backfill, h) {
      UncoveredBucket(r.store, r.pending, t.store.events, h);
    }
  }
}

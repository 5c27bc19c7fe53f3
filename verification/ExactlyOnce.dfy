/** What every run of the intake delivers: each popped message at most once, and none silently lost
    (internal/service/redis_usage_processor.go, internal/repository/redis_usage_inbox.go). */
module ExactlyOnce {
  import opened Accounting
  import opened Aggregation
  import opened Decimals
  import opened EventInsertion
  import opened InboxInterleaving
  import opened InboxPipeline
  import opened InboxRuns
  import opened RedisInbox
  import opened RollupIndex
  import opened Trimming
  import opened UsageEvents
  import Rollups
  import UsageStore

  // Event keys

  const KEY_PREFIX := "redis-inbox:"

  /** `redisUsageAttemptEventKey`. */
  function InboxKey(id: nat): string { KEY_PREFIX + Decimal(id) }

  lemma InboxKeyInjective(a: nat, b: nat)
    requires InboxKey(a) == InboxKey(b)
    ensures a == b
  {
    assert Decimal(a) == InboxKey(a)[|KEY_PREFIX|..] && Decimal(b) == InboxKey(b)[|KEY_PREFIX|..];
    DecimalInjective(a, b);
  }

  lemma InboxKeyIndexable(id: nat, e: UsageEvent)
    requires e.eventKey == InboxKey(id)
    ensures Indexable(e)
  {
    DecimalRoundTrip(id);
    var key := InboxKey(id);
    assert key[0] == 'r' && key[|key| - 1] == Decimal(id)[|Decimal(id)| - 1];
    assert Decimal(id)[|Decimal(id)| - 1] in Decimal(id);
    NoEdgeIsTrimmed(key, IsSpace);
  }

  /** The keys of the intake tell rows apart and are found again by the insert transaction. */
  lemma InboxKeysAreDistinct(d: Decoding)
    requires forall id :: d.key(id) == InboxKey(id)
    ensures DistinctKeys(d)
  {
    forall a, b | d.key(a) == d.key(b) ensures a == b { InboxKeyInjective(a, b); }
    forall id, e: UsageEvent | e.eventKey == d.key(id) ensures Indexable(e) { InboxKeyIndexable(id, e); }
  }

  // At most once

  function Under(key: string): UsageEvent -> bool { (e: UsageEvent) => e.eventKey == key }

  /** Distinct keys: one event under each stored key. */
  lemma {:induction false} EventsUnderKey(es: seq<UsageEvent>, key: string)
    requires forall i, j :: 0 <= i < j < |es| ==> es[i].eventKey != es[j].eventKey
    ensures |Select(es, Under(key))| == if key in EventKeys(es) then 1 else 0
  {
    if es != [] {
      assert es == [es[0]] + es[1..];
      forall i, j | 0 <= i < j < |es[1..]| ensures es[1..][i].eventKey != es[1..][j].eventKey {
        assert es[i + 1].eventKey != es[j + 1].eventKey;
      }
      EventsUnderKey(es[1..], key);
      if es[0].eventKey == key {
        forall e | e in es[1..] ensures e.eventKey != key {
          var j :| 0 <= j < |es[1..]| && es[1..][j] == e;
          assert es[j + 1].eventKey != es[0].eventKey;
        }
      }
    }
  }

  /** A row that stands for no event has none. */
  lemma NoEventForUndecodable(d: Decoding, v: World, r: InboxRow)
    requires Inv(d, v) && DistinctKeys(d) && RowInv(d, v, r) && DecodeRow(d, r).None?
    ensures !HasEvent(v, d.key(r.id))
  {
    forall e | e in v.tracked.store.events ensures e.eventKey != d.key(r.id) {
      assert EventInv(d, v, e);
    }
  }

  /** In every interleaving, whatever fails: an inbox row has at most one stored event, a processed row
      exactly one, a decode-failed row none. */
  lemma AtMostOneEventPerRow(d: Decoding, w: World, sections: seq<Section>, r: InboxRow)
    requires Initial(d, w) && DistinctKeys(d)
    requires r in After(d, w, sections).rows
    ensures var count := |Select(After(d, w, sections).tracked.store.events, Under(d.key(r.id)))|;
      && count <= 1
      && (r.status.Processed? ==> count == 1 && r.eventKey == d.key(r.id))
      && (r.status.DecodeFailed? ==> count == 0)
  {
    var v := After(d, w, sections);
    InterleavingKeepsInv(d, w, sections);
    EventsUnderKey(v.tracked.store.events, d.key(r.id));
    assert RowInv(d, v, r);
    if r.status.DecodeFailed? {
      NoEventForUndecodable(d, v, r);
    }
  }

  /** Every stored event was there before the run, or is the decoding of the one popped message whose key
      it carries; the latter are all in the rollups. */
  lemma EventsComeFromMessages(d: Decoding, w: World, sections: seq<Section>, e: UsageEvent)
    requires Initial(d, w) && DistinctKeys(d)
    requires e in After(d, w, sections).tracked.store.events
    ensures var v := After(d, w, sections);
      || e.eventKey in EventKeys(w.tracked.store.events)
      || exists id :: id in v.popped && e.eventKey == d.key(id) && EventOfPopped(d, v, id).Some?
           && e == UsageStore.Stamped(EventOfPopped(d, v, id).value).(id := e.id) && e !in v.tracked.pending
  {
    var v := After(d, w, sections);
    InterleavingKeepsInv(d, w, sections);
    BaseNeverChanges(d, w, sections);
    assert EventInv(d, v, e);
    if e.eventKey !in v.base {
      var id :| id in v.popped && e.eventKey == d.key(id);
      assert w.first <= id;
    }
  }

  /** The rollups count each of them once: they are the grouping of the stored events, every inbox event
      included. */
  lemma RollupsCountOnce(d: Decoding, w: World, sections: seq<Section>)
    requires Initial(d, w) && DistinctKeys(d)
    ensures var t := After(d, w, sections).tracked;
      && t.store.rollups == Rollups.Group(Select(t.store.events, Outside(t.pending)))
      && forall e, id :: e in t.pending && w.first <= id ==> e.eventKey != d.key(id)
  {
    var v := After(d, w, sections);
    InterleavingKeepsInv(d, w, sections);
    BaseNeverChanges(d, w, sections);
    forall e, id | e in v.tracked.pending && w.first <= id ensures e.eventKey != d.key(id) {
      assert EventInv(d, v, e);
    }
  }

  ghost predicate Waiting(w: World, id: nat) {
    exists r :: r in w.rows && r.id == id && (Processable(r) || r.status.Discarded?)
  }

  lemma Delivered(d: Decoding, v: World, id: nat)
    requires RowsInv(d, v) && id in v.popped
    ensures HasEvent(v, d.key(id)) || EventOfPopped(d, v, id).None? || id in v.abandoned || Waiting(v, id)
  {
    if id in v.dropped {
      assert DropInv(d, v, id);
    } else {
      var r :| r in v.rows && r.id == id;
      assert RowInv(d, v, r);
    }
  }

  /** No popped message disappears: it has its event, or cannot be decoded, or waits in a row that is
      processed again or was discarded, or its failed row was cleaned up. */
  lemma NothingLost(d: Decoding, w: World, sections: seq<Section>, id: nat)
    requires Initial(d, w) && DistinctKeys(d)
    requires id in After(d, w, sections).popped
    ensures var v := After(d, w, sections);
      HasEvent(v, d.key(id)) || EventOfPopped(d, v, id).None? || id in v.abandoned || Waiting(v, id)
  {
    InterleavingKeepsInv(d, w, sections);
    Delivered(d, After(d, w, sections), id);
  }
}

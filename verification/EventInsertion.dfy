/** Deduplicating insertion of usage events: the table that results, as a reference definition and as
    the insert-or-ignore statement computes it (internal/repository/db.go). */
module EventInsertion {
  import opened Trimming
  import opened UsageEvents

  function EventKeys(es: seq<UsageEvent>): set<string> { set e | e in es :: e.eventKey }

  /** `INSERT ... ON CONFLICT(event_key) DO NOTHING`, row by row; a stored row gets the next row id. */
  function InsertIgnore(table: seq<UsageEvent>, rows: seq<UsageEvent>): seq<UsageEvent>
    decreases |rows|
  {
    if rows == [] then table
    else if rows[0].eventKey in EventKeys(table) then InsertIgnore(table, rows[1..])
    else InsertIgnore(table + [rows[0].(id := |table| + 1)], rows[1..])
  }

  /** Reference: row `i` of the input is the first one of a key that is not yet known. */
  ghost predicate FirstOfNewKey(known: set<string>, rows: seq<UsageEvent>, i: nat)
    requires i < |rows|
  {
    rows[i].eventKey !in known && forall j :: 0 <= j < i ==> rows[j].eventKey != rows[i].eventKey
  }

  /** Reference: exactly those rows, in input order, numbered on from `n`. */
  ghost function FirstOccurrences(known: set<string>, rows: seq<UsageEvent>, n: nat): seq<UsageEvent> {
    if rows == [] then []
    else
      var front, last := rows[..|rows| - 1], |rows| - 1;
      var picked := FirstOccurrences(known, front, n);
      if FirstOfNewKey(known, rows, last) then picked + [rows[last].(id := n + |picked| + 1)] else picked
  }

  /** Inserting in batches is inserting at once. */
  lemma {:induction false} InsertIgnoreAppend(table: seq<UsageEvent>, a: seq<UsageEvent>, b: seq<UsageEvent>)
    ensures InsertIgnore(table, a + b) == InsertIgnore(InsertIgnore(table, a), b)
    decreases |a|
  {
    if a == [] {
      assert a + b == b;
    } else {
      assert (a + b)[1..] == a[1..] + b;
      if a[0].eventKey in EventKeys(table) {
        InsertIgnoreAppend(table, a[1..], b);
      } else {
        InsertIgnoreAppend(table + [a[0].(id := |table| + 1)], a[1..], b);
      }
    }
  }

  /** The table keeps its rows and afterwards knows exactly the old and the offered keys. */
  lemma {:induction false} InsertIgnoreGrows(table: seq<UsageEvent>, rows: seq<UsageEvent>)
    ensures table <= InsertIgnore(table, rows)
    ensures EventKeys(InsertIgnore(table, rows)) == EventKeys(table) + EventKeys(rows)
    decreases |rows|
  {
    if rows == [] {
    } else {
      assert rows == [rows[0]] + rows[1..];
      if rows[0].eventKey in EventKeys(table) {
        InsertIgnoreGrows(table, rows[1..]);
      } else {
        var next := table + [rows[0].(id := |table| + 1)];
        assert EventKeys(next) == EventKeys(table) + {rows[0].eventKey};
        InsertIgnoreGrows(next, rows[1..]);
        assert table <= next;
      }
      assert EventKeys(rows) == {rows[0].eventKey} + EventKeys(rows[1..]);
    }
  }

  lemma InsertIgnoreOne(table: seq<UsageEvent>, row: UsageEvent)
    ensures InsertIgnore(table, [row]) ==
      if row.eventKey in EventKeys(table) then table else table + [row.(id := |table| + 1)]
  {
    assert [row][1..] == [];
  }

  lemma InsertIgnoreSnoc(table: seq<UsageEvent>, front: seq<UsageEvent>, last: UsageEvent)
    ensures var stored := InsertIgnore(table, front);
      InsertIgnore(table, front + [last]) ==
        if last.eventKey in EventKeys(table) + EventKeys(front) then stored else stored + [last.(id := |stored| + 1)]
  {
    InsertIgnoreAppend(table, front, [last]);
    InsertIgnoreGrows(table, front);
    InsertIgnoreOne(InsertIgnore(table, front), last);
  }

  lemma LastIsFirstOfNewKey(known: set<string>, front: seq<UsageEvent>, last: UsageEvent)
    ensures FirstOfNewKey(known, front + [last], |front|) <==> last.eventKey !in known + EventKeys(front)
  {
    var rows := front + [last];
    if last.eventKey in EventKeys(front) {
      var e :| e in front && e.eventKey == last.eventKey;
      var j :| 0 <= j < |front| && front[j] == e;
      assert rows[j].eventKey == rows[|front|].eventKey;
    } else {
      forall j | 0 <= j < |front| ensures rows[j].eventKey != last.eventKey {
        assert rows[j] in front;
      }
    }
  }

  lemma {:induction false} OneMoreOccurrence(known: set<string>, rows: seq<UsageEvent>, n: nat)
    requires rows != []
    ensures var i := |rows| - 1;
      var picked := FirstOccurrences(known, rows[..i], n);
      FirstOccurrences(known, rows, n) ==
        if FirstOfNewKey(known, rows, i) then picked + [rows[i].(id := n + |picked| + 1)] else picked
  {
  }

  lemma {:induction false} FirstOccurrencesSnoc(known: set<string>, front: seq<UsageEvent>, last: UsageEvent, n: nat)
    ensures var picked := FirstOccurrences(known, front, n);
      FirstOccurrences(known, front + [last], n) ==
        if last.eventKey in known + EventKeys(front) then picked else picked + [last.(id := n + |picked| + 1)]
  {
    LastIsFirstOfNewKey(known, front, last);
    OneMoreOccurrence(known, front + [last], n);
    assert (front + [last])[..|front|] == front;
  }

  lemma AppendedBehind(table: seq<UsageEvent>, picked: seq<UsageEvent>, row: UsageEvent, stored: seq<UsageEvent>)
    requires stored == table + picked
    ensures stored + [row.(id := |stored| + 1)] == table + (picked + [row.(id := |table| + |picked| + 1)])
  {
  }

  /** The statement stores the first occurrence of each new key and nothing else. */
  lemma {:induction false} InsertIgnoreIsFirstOccurrences(table: seq<UsageEvent>, rows: seq<UsageEvent>)
    ensures InsertIgnore(table, rows) == table + FirstOccurrences(EventKeys(table), rows, |table|)
    decreases |rows|
  {
    if rows == [] {
      assert table + [] == table;
    } else {
      var front, last := rows[..|rows| - 1], rows[|rows| - 1];
      var known := EventKeys(table);
      var stored, picked := InsertIgnore(table, front), FirstOccurrences(known, front, |table|);
      assert rows == front + [last];
      InsertIgnoreIsFirstOccurrences(table, front);
      InsertIgnoreSnoc(table, front, last);
      FirstOccurrencesSnoc(known, front, last, |table|);
      AppendedBehind(table, picked, last, stored);
    }
  }

  /** Row ids are positions, and keys identify rows. */
  ghost predicate WellNumbered(table: seq<UsageEvent>) {
    && (forall i :: 0 <= i < |table| ==> table[i].id == i + 1)
    && (forall i, j :: 0 <= i < j < |table| ==> table[i].eventKey != table[j].eventKey)
  }

  lemma {:induction false} InsertIgnoreWellNumbered(table: seq<UsageEvent>, rows: seq<UsageEvent>)
    requires WellNumbered(table)
    ensures WellNumbered(InsertIgnore(table, rows))
    decreases |rows|
  {
    if rows == [] {
    } else if rows[0].eventKey in EventKeys(table) {
      InsertIgnoreWellNumbered(table, rows[1..]);
    } else {
      InsertIgnoreWellNumbered(table + [rows[0].(id := |table| + 1)], rows[1..]);
    }
  }

  /** What insertion stores is an offered row up to its id. */
  lemma {:induction false} StoredRowsWereOffered(table: seq<UsageEvent>, rows: seq<UsageEvent>, e: UsageEvent)
    requires e in InsertIgnore(table, rows) && e !in table
    ensures exists r :: r in rows && e == r.(id := e.id)
    decreases |rows|
  {
    if rows == [] {
    } else if rows[0].eventKey in EventKeys(table) {
      StoredRowsWereOffered(table, rows[1..], e);
    } else {
      var next := table + [rows[0].(id := |table| + 1)];
      if e == next[|table|] {
        assert rows[0] in rows;
      } else {
        StoredRowsWereOffered(next, rows[1..], e);
      }
    }
  }

  /** The keys for which the insert transaction finds its new rows again: trimmed and not blank. */
  predicate Indexable(e: UsageEvent) { e.eventKey != "" && TrimSpace(e.eventKey) == e.eventKey }

  /** What insertion stores has trimmed, non-blank keys exactly when the first row of each new key has. */
  lemma {:induction false} FirstOccurrencesIndexableIff(known: set<string>, rows: seq<UsageEvent>, n: nat)
    ensures (forall e :: e in FirstOccurrences(known, rows, n) ==> Indexable(e))
      <==> forall i :: 0 <= i < |rows| && FirstOfNewKey(known, rows, i) ==> Indexable(rows[i])
  {
    if rows != [] {
      var front, last := rows[..|rows| - 1], |rows| - 1;
      FirstOccurrencesIndexableIff(known, front, n);
      forall i | 0 <= i < last ensures FirstOfNewKey(known, rows, i) <==> FirstOfNewKey(known, front, i) {
      }
      var picked := FirstOccurrences(known, front, n);
      if FirstOfNewKey(known, rows, last) {
        var stored := rows[last].(id := n + |picked| + 1);
        assert FirstOccurrences(known, rows, n) == picked + [stored];
        assert Indexable(stored) <==> Indexable(rows[last]);
      } else {
        assert FirstOccurrences(known, rows, n) == picked;
      }
    }
  }

  /** Replaying stored rows stores nothing. */
  lemma {:induction false} ReplayInsertsNothing(table: seq<UsageEvent>, rows: seq<UsageEvent>)
    requires EventKeys(rows) <= EventKeys(table)
    ensures InsertIgnore(table, rows) == table
  {
    if rows != [] {
      assert rows[0] in rows && rows[0].eventKey in EventKeys(rows);
      assert EventKeys(rows[1..]) <= EventKeys(rows);
      ReplayInsertsNothing(table, rows[1..]);
    }
  }
}

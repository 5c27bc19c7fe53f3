/** Sums and regroupings of finitely many rows, whatever the order in which they arrive. */
module RowSums {
  import opened Aggregation

  /** `SUM` over the rows of a set of keys, in some order. */
  ghost function SumOver<K(!new), M(!new)>(m: Monoid<M>, rows: map<K, M>, ks: set<K>): M
    requires ks <= rows.Keys
  {
    if ks == {} then m.zero
    else
      var k :| k in ks;
      m.plus(SumOver(m, rows, ks - {k}), rows[k])
  }

  /** The order in which rows are summed does not matter. */
  lemma {:induction false} SumOverAny<K(!new), M(!new)>(m: Monoid<M>, rows: map<K, M>, ks: set<K>, k: K)
    requires Lawful(m) && ks <= rows.Keys && k in ks
    ensures SumOver(m, rows, ks) == m.plus(SumOver(m, rows, ks - {k}), rows[k])
    decreases |ks|
  {
    var first :| first in ks && SumOver(m, rows, ks) == m.plus(SumOver(m, rows, ks - {first}), rows[first]);
    if first != k {
      SumOverAny(m, rows, ks - {first}, k);
      SumOverAny(m, rows, ks - {k}, first);
      assert ks - {first} - {k} == ks - {k} - {first};
      var rest := SumOver(m, rows, ks - {first} - {k});
      assert Laws(m, rest, rows[k], rows[first]) && Laws(m, rest, rows[first], rows[k]);
      assert Laws(m, rows[k], rows[first], rest);
    }
  }

  lemma {:induction false} SumOverUnion<K(!new), M(!new)>(m: Monoid<M>, rows: map<K, M>, a: set<K>, b: set<K>)
    requires Lawful(m) && a + b <= rows.Keys && a !! b
    ensures SumOver(m, rows, a + b) == m.plus(SumOver(m, rows, a), SumOver(m, rows, b))
  {
    if b == {} {
      assert a + b == a;
      assert Laws(m, SumOver(m, rows, a), m.zero, m.zero);
    } else {
      var k :| k in b;
      SumOverUnion(m, rows, a, b - {k});
      SumOverAny(m, rows, b, k);
      SumOverAny(m, rows, a + b, k);
      assert a + b - {k} == a + (b - {k});
      assert Laws(m, SumOver(m, rows, a), SumOver(m, rows, b - {k}), rows[k]);
    }
  }

  /** What is kept by addition and holds of every row holds of every sum. */
  lemma {:induction false} SumOverKeeps<K(!new), M(!new)>(m: Monoid<M>, rows: map<K, M>, ks: set<K>, good: M -> bool)
    requires Lawful(m) && Kept(m, good) && ks <= rows.Keys
    requires forall k :: k in ks ==> good(rows[k])
    ensures good(SumOver(m, rows, ks))
    decreases |ks|
  {
    if ks != {} {
      var k :| k in ks;
      SumOverKeeps(m, rows, ks - {k}, good);
      SumOverAny(m, rows, ks, k);
    }
  }

  // Regrouping

  ghost function Part<K, B>(ks: set<K>, part: K -> B, b: B): set<K> { set k | k in ks && part(k) == b }

  ghost function Parts<K, B>(ks: set<K>, part: K -> B): set<B> { set k | k in ks :: part(k) }

  /** The groups that rows fall into. */
  ghost function Regroup<K(!new), B, M(!new)>(m: Monoid<M>, rows: map<K, M>, ks: set<K>, part: K -> B): map<B, M>
    requires ks <= rows.Keys
  {
    map b | b in Parts(ks, part) :: SumOver(m, rows, Part(ks, part, b))
  }

  lemma RegroupChanged<K(!new), B, M(!new)>(m: Monoid<M>, rows: map<K, M>, ks: set<K>, part: K -> B, k: K)
    requires Lawful(m) && ks <= rows.Keys && k in ks
    ensures SumOver(m, rows, Part(ks, part, part(k)))
      == m.plus(GroupAt(m, Regroup(m, rows, ks - {k}, part), part(k)), rows[k])
  {
    var b, before := part(k), Regroup(m, rows, ks - {k}, part);
    SumOverAny(m, rows, Part(ks, part, b), k);
    assert Part(ks, part, b) - {k} == Part(ks - {k}, part, b);
    if b !in before {
      assert Part(ks - {k}, part, b) == {};
    }
  }

  lemma RegroupKept<K(!new), B, M(!new)>(m: Monoid<M>, rows: map<K, M>, ks: set<K>, part: K -> B, k: K, c: B)
    requires ks <= rows.Keys && k in ks && c in Regroup(m, rows, ks - {k}, part) && c != part(k)
    ensures c in Regroup(m, rows, ks, part) && Regroup(m, rows, ks, part)[c] == Regroup(m, rows, ks - {k}, part)[c]
  {
    assert Part(ks, part, c) == Part(ks - {k}, part, c);
  }

  lemma RegroupKeys<K(!new), B, M(!new)>(m: Monoid<M>, rows: map<K, M>, ks: set<K>, part: K -> B, k: K)
    requires ks <= rows.Keys && k in ks
    ensures Regroup(m, rows, ks, part).Keys == Regroup(m, rows, ks - {k}, part).Keys + {part(k)}
  {
  }

  lemma IsUpdated<B, V>(before: map<B, V>, after: map<B, V>, b: B)
    requires after.Keys == before.Keys + {b}
    requires forall c :: c in before && c != b ==> after[c] == before[c]
    ensures after == before[b := after[b]]
  {
  }

  /** One more row updates one group. */
  lemma RegroupStep<K(!new), B, M(!new)>(m: Monoid<M>, rows: map<K, M>, ks: set<K>, part: K -> B, k: K)
    requires Lawful(m) && ks <= rows.Keys && k in ks
    ensures var before := Regroup(m, rows, ks - {k}, part);
      Regroup(m, rows, ks, part) == before[part(k) := m.plus(GroupAt(m, before, part(k)), rows[k])]
  {
    var before, after := Regroup(m, rows, ks - {k}, part), Regroup(m, rows, ks, part);
    RegroupKeys(m, rows, ks, part, k);
    RegroupChanged(m, rows, ks, part, k);
    forall c | c in before && c != part(k) ensures after[c] == before[c] {
      RegroupKept(m, rows, ks, part, k, c);
    }
    IsUpdated(before, after, part(k));
  }

  /** Adding one more row before or after a merge. */
  lemma MergeStep<B(!new), M(!new)>(m: Monoid<M>, dst: map<B, M>, groups: map<B, M>, b: B, row: M)
    requires Lawful(m)
    ensures var merged := MergeGroups(m, dst, groups);
      MergeGroups(m, dst, groups[b := m.plus(GroupAt(m, groups, b), row)])
        == merged[b := m.plus(GroupAt(m, merged, b), row)]
  {
    var merged, more := MergeGroups(m, dst, groups), groups[b := m.plus(GroupAt(m, groups, b), row)];
    MergedAt(m, dst, groups, b);
    MergedAt(m, dst, more, b);
    assert Laws(m, GroupAt(m, dst, b), GroupAt(m, groups, b), row);
  }

  /** A coarser sum over groups is the sum over their rows. */
  lemma {:induction false} SumOfGroups<K(!new), B(!new), M(!new)>(m: Monoid<M>, rows: map<K, M>, ks: set<K>,
      part: K -> B, bs: set<B>)
    requires Lawful(m) && ks <= rows.Keys && bs <= Parts(ks, part)
    ensures SumOver(m, Regroup(m, rows, ks, part), bs) == SumOver(m, rows, set k | k in ks && part(k) in bs)
    decreases |bs|
  {
    var groups, covered := Regroup(m, rows, ks, part), set k | k in ks && part(k) in bs;
    if bs == {} {
      assert covered == {};
    } else {
      var b :| b in bs;
      SumOfGroups(m, rows, ks, part, bs - {b});
      SumOverAny(m, groups, bs, b);
      var rest := set k | k in ks && part(k) in bs - {b};
      SumOverUnion(m, rows, rest, Part(ks, part, b));
      assert covered == rest + Part(ks, part, b);
    }
  }

  /** Grouping finely and then coarsely is grouping coarsely. */
  lemma RegroupTwice<K(!new), B(!new), C, M(!new)>(m: Monoid<M>, rows: map<K, M>, ks: set<K>, fine: K -> B,
      part: B -> C, coarse: K -> C)
    requires Lawful(m) && ks <= rows.Keys && forall k :: k in ks ==> coarse(k) == part(fine(k))
    ensures var groups := Regroup(m, rows, ks, fine);
      Regroup(m, groups, groups.Keys, part) == Regroup(m, rows, ks, coarse)
  {
    var groups := Regroup(m, rows, ks, fine);
    var twice, once := Regroup(m, groups, groups.Keys, part), Regroup(m, rows, ks, coarse);
    forall k | k in ks ensures fine(k) in groups && coarse(k) in twice {
      assert part(fine(k)) in Parts(groups.Keys, part);
    }
    assert twice.Keys == once.Keys;
    forall c | c in once ensures twice[c] == once[c] {
      SumOfGroups(m, rows, ks, fine, Part(groups.Keys, part, c));
      assert (set k | k in ks && fine(k) in Part(groups.Keys, part, c)) == Part(ks, coarse, c);
    }
  }

  function Among<E, K(==)>(key: E -> K, ks: set<K>): E -> bool { e => key(e) in ks }

  /** The sum of some groups of events is the sum of their events. */
  lemma {:induction false} SumOfEventGroups<E(!new), K(!new), M(!new)>(m: Monoid<M>, key: E -> K, row: E -> M,
      es: seq<E>, ks: set<K>)
    requires Lawful(m) && ks <= Keys(key, es)
    ensures SumOver(m, GroupBy(m, key, row, es), ks) == Total(m, row, Select(es, Among(key, ks)))
    decreases |ks|
  {
    var groups := GroupBy(m, key, row, es);
    if ks == {} {
      SelectNone(es, Among(key, ks));
    } else {
      var k :| k in ks;
      SumOfEventGroups(m, key, row, es, ks - {k});
      SumOverAny(m, groups, ks, k);
      TotalSplit(m, row, es, Among(key, ks - {k}), At(key, k), Among(key, ks));
    }
  }

  lemma RegroupedKeys<E(!new), K(!new), C>(key: E -> K, es: seq<E>, part: K -> C, coarse: E -> C)
    requires forall e :: e in es ==> coarse(e) == part(key(e))
    ensures Parts(Keys(key, es), part) == Keys(coarse, es)
  {
    forall e | e in es ensures key(e) in Keys(key, es) && coarse(e) in Parts(Keys(key, es), part) {
    }
  }

  lemma RegroupedAt<E(!new), K(!new), C, M(!new)>(m: Monoid<M>, key: E -> K, row: E -> M, es: seq<E>, part: K -> C,
                                                  coarse: E -> C, c: C)
    requires Lawful(m) && forall e :: e in es ==> coarse(e) == part(key(e))
    ensures SumOver(m, GroupBy(m, key, row, es), Part(Keys(key, es), part, c)) == TotalAt(m, coarse, row, es, c)
  {
    SumOfEventGroups(m, key, row, es, Part(Keys(key, es), part, c));
    SelectSame(es, Among(key, Part(Keys(key, es), part, c)), At(coarse, c));
  }

  /** Grouping events finely and the groups coarsely is grouping the events coarsely. */
  lemma RegroupEvents<E(!new), K(!new), C, M(!new)>(m: Monoid<M>, key: E -> K, row: E -> M, es: seq<E>, part: K -> C,
      coarse: E -> C)
    requires Lawful(m) && forall e :: e in es ==> coarse(e) == part(key(e))
    ensures var groups := GroupBy(m, key, row, es); Regroup(m, groups, groups.Keys, part) == GroupBy(m, coarse, row, es)
  {
    assert GroupBy(m, key, row, es).Keys == Keys(key, es);
    var twice, once := Regroup(m, GroupBy(m, key, row, es), Keys(key, es), part), GroupBy(m, coarse, row, es);
    RegroupedKeys(key, es, part, coarse);
    forall c | c in once ensures twice[c] == once[c] {
      RegroupedAt(m, key, row, es, part, coarse, c);
    }
  }

  ghost predicate Compatible<M(!new)>(m: Monoid<M>, same: (M, M) -> bool) {
    && same(m.zero, m.zero)
    && forall a, b, c, d :: same(a, b) && same(c, d) ==> same(m.plus(a, c), m.plus(b, d))
  }

  /** Rows that each match their events match them in sum. */
  lemma {:induction false} SumOverMatches<E(!new), K(!new), M(!new)>(
      m: Monoid<M>, same: (M, M) -> bool, rows: map<K, M>, key: E -> K, row: E -> M, es: seq<E>, ks: set<K>)
    requires Lawful(m) && Compatible(m, same) && ks <= rows.Keys
    requires forall k :: k in ks ==> same(rows[k], Total(m, row, Select(es, At(key, k))))
    ensures same(SumOver(m, rows, ks), Total(m, row, Select(es, Among(key, ks))))
    decreases |ks|
  {
    if ks == {} {
      SelectNone(es, Among(key, ks));
    } else {
      var k :| k in ks;
      SumOverAny(m, rows, ks, k);
      SumOverMatches(m, same, rows, key, row, es, ks - {k});
      TotalSplit(m, row, es, Among(key, ks - {k}), At(key, k), Among(key, ks));
    }
  }
}

/** Filtering, summing and grouping of event sequences: what a SQL `WHERE`, `SUM` and `GROUP BY`
    compute, over an arbitrary commutative monoid of aggregate rows. */
module Aggregation {

  datatype Monoid<!M> = Monoid(zero: M, plus: (M, M) -> M)

  ghost predicate Laws<M>(m: Monoid<M>, a: M, b: M, c: M) {
    && m.plus(a, m.zero) == a
    && m.plus(a, b) == m.plus(b, a)
    && m.plus(m.plus(a, b), c) == m.plus(a, m.plus(b, c))
  }

  /** A commutative monoid. */
  ghost predicate Lawful<M(!new)>(m: Monoid<M>) { forall a, b, c :: Laws(m, a, b, c) }

  /** `WHERE keep`. */
  function Select<E>(es: seq<E>, keep: E -> bool): seq<E>
  {
    if es == [] then []
    else if keep(es[0]) then [es[0]] + Select(es[1..], keep)
    else Select(es[1..], keep)
  }

  /** `SUM(value)`. */
  function Total<E(!new), M>(m: Monoid<M>, value: E -> M, es: seq<E>): M {
    if es == [] then m.zero else m.plus(value(es[0]), Total(m, value, es[1..]))
  }

  lemma {:induction false} TotalAppend<E(!new), M(!new)>(m: Monoid<M>, value: E -> M, a: seq<E>, b: seq<E>)
    requires Lawful(m)
    ensures Total(m, value, a + b) == m.plus(Total(m, value, a), Total(m, value, b))
  {
    if a == [] {
      assert a + b == b;
      assert Laws(m, Total(m, value, b), m.zero, m.zero);
    } else {
      assert (a + b)[1..] == a[1..] + b;
      TotalAppend(m, value, a[1..], b);
      assert Laws(m, value(a[0]), Total(m, value, a[1..]), Total(m, value, b));
    }
  }

  lemma {:induction false} SelectAppend<E(!new)>(a: seq<E>, b: seq<E>, keep: E -> bool)
    ensures Select(a + b, keep) == Select(a, keep) + Select(b, keep)
  {
    if a == [] {
      assert a + b == b;
    } else {
      assert (a + b)[1..] == a[1..] + b;
      SelectAppend(a[1..], b, keep);
    }
  }

  lemma {:induction false} SelectIn<E>(es: seq<E>, keep: E -> bool, e: E)
    ensures e in Select(es, keep) <==> e in es && keep(e)
  {
    if es != [] {
      SelectIn(es[1..], keep, e);
    }
  }

  lemma {:induction false} SelectSame<E(!new)>(es: seq<E>, p: E -> bool, q: E -> bool)
    requires forall e :: e in es ==> p(e) == q(e)
    ensures Select(es, p) == Select(es, q)
  {
    if es != [] {
      SelectSame(es[1..], p, q);
    }
  }

  lemma {:induction false} SelectAll<E(!new)>(es: seq<E>, p: E -> bool)
    requires forall e :: e in es ==> p(e)
    ensures Select(es, p) == es
  {
    if es != [] {
      SelectAll(es[1..], p);
    }
  }

  lemma {:induction false} SelectNone<E(!new)>(es: seq<E>, p: E -> bool)
    requires forall e :: e in es ==> !p(e)
    ensures Select(es, p) == []
  {
    if es != [] {
      SelectNone(es[1..], p);
    }
  }

  lemma {:induction false} SelectTwice<E(!new)>(es: seq<E>, p: E -> bool, q: E -> bool, both: E -> bool)
    requires forall e :: e in es ==> both(e) == (p(e) && q(e))
    ensures Select(Select(es, p), q) == Select(es, both)
  {
    if es != [] {
      SelectTwice(es[1..], p, q, both);
    }
  }

  /** The sum over a disjoint union of two filters is the sum of the two filtered sums. */
  lemma {:induction false} TotalSplit<E(!new), M(!new)>(m: Monoid<M>, value: E -> M, es: seq<E>, p: E -> bool,
      q: E -> bool, either: E -> bool)
    requires Lawful(m)
    requires forall e :: e in es ==> either(e) == (p(e) || q(e)) && !(p(e) && q(e))
    ensures Total(m, value, Select(es, either))
      == m.plus(Total(m, value, Select(es, p)), Total(m, value, Select(es, q)))
  {
    if es == [] {
      assert Laws(m, m.zero, m.zero, m.zero);
    } else {
      TotalSplit(m, value, es[1..], p, q, either);
      var v := value(es[0]);
      var tp, tq := Total(m, value, Select(es[1..], p)), Total(m, value, Select(es[1..], q));
      assert es[0] in es;
      if p(es[0]) {
        TotalFirst(m, value, es, p);
        TotalFirst(m, value, es, either);
        assert Laws(m, v, tp, tq);
      } else if q(es[0]) {
        TotalFirst(m, value, es, q);
        TotalFirst(m, value, es, either);
        assert Laws(m, v, tp, tq) && Laws(m, tp, v, tq);
      }
    }
  }

  lemma TotalFirst<E(!new), M(!new)>(m: Monoid<M>, value: E -> M, es: seq<E>, p: E -> bool)
    requires es != [] && p(es[0])
    ensures Total(m, value, Select(es, p)) == m.plus(value(es[0]), Total(m, value, Select(es[1..], p)))
  {
    assert Select(es, p)[1..] == Select(es[1..], p);
  }

  /** What holds of zero and is kept by addition. */
  ghost predicate Kept<M(!new)>(m: Monoid<M>, good: M -> bool) {
    good(m.zero) && forall a, b :: good(a) && good(b) ==> good(m.plus(a, b))
  }

  /** It holds of every total of values of which it holds. */
  lemma {:induction false} TotalKeeps<E(!new), M(!new)>(m: Monoid<M>, value: E -> M, es: seq<E>, good: M -> bool)
    requires Kept(m, good) && forall e :: e in es ==> good(value(e))
    ensures good(Total(m, value, es))
  {
    if es != [] {
      TotalKeeps(m, value, es[1..], good);
    }
  }

  /** The rows of one group. */
  function At<E, K(==)>(key: E -> K, k: K): E -> bool { e => key(e) == k }

  function Keys<E(==), K>(key: E -> K, es: seq<E>): set<K> { set e | e in es :: key(e) }

  function TotalAt<E(!new), K(==), M>(m: Monoid<M>, key: E -> K, value: E -> M, es: seq<E>, k: K): M {
    Total(m, value, Select(es, At(key, k)))
  }

  /** `SELECT key, SUM(value) ... GROUP BY key`. */
  function GroupBy<E(==, !new), K(==), M>(m: Monoid<M>, key: E -> K, value: E -> M, es: seq<E>): map<K, M> {
    map k | k in Keys(key, es) :: TotalAt(m, key, value, es, k)
  }

  /** Adding every group of `more` into `groups`. */
  function MergeGroups<K, M>(m: Monoid<M>, groups: map<K, M>, more: map<K, M>): map<K, M> {
    map k | k in groups.Keys + more.Keys ::
      if k !in more then groups[k] else if k in groups then m.plus(groups[k], more[k]) else more[k]
  }

  lemma TotalAtMissing<E(!new), K, M>(m: Monoid<M>, key: E -> K, value: E -> M, es: seq<E>, k: K)
    requires k !in Keys(key, es)
    ensures TotalAt(m, key, value, es, k) == m.zero
  {
    SelectNone(es, At(key, k));
  }

  lemma TotalAtAppend<E(!new), K, M(!new)>(m: Monoid<M>, key: E -> K, value: E -> M, a: seq<E>, b: seq<E>, k: K)
    requires Lawful(m)
    ensures TotalAt(m, key, value, a + b, k) == m.plus(TotalAt(m, key, value, a, k), TotalAt(m, key, value, b, k))
  {
    SelectAppend(a, b, At(key, k));
    TotalAppend(m, value, Select(a, At(key, k)), Select(b, At(key, k)));
  }

  lemma TotalAtCases<E(!new), K, M(!new)>(m: Monoid<M>, key: E -> K, value: E -> M, a: seq<E>, b: seq<E>, k: K)
    requires Lawful(m)
    ensures TotalAt(m, key, value, a + b, k) ==
      if k !in Keys(key, b) then TotalAt(m, key, value, a, k)
      else if k in Keys(key, a) then m.plus(TotalAt(m, key, value, a, k), TotalAt(m, key, value, b, k))
      else TotalAt(m, key, value, b, k)
  {
    TotalAtAppend(m, key, value, a, b, k);
    assert Laws(m, TotalAt(m, key, value, a, k), m.zero, m.zero);
    assert Laws(m, TotalAt(m, key, value, b, k), m.zero, m.zero);
    if k !in Keys(key, b) {
      TotalAtMissing(m, key, value, b, k);
    } else if k !in Keys(key, a) {
      TotalAtMissing(m, key, value, a, k);
    }
  }

  lemma KeysAppend<E, K>(key: E -> K, a: seq<E>, b: seq<E>)
    ensures Keys(key, a + b) == Keys(key, a) + Keys(key, b)
  {
  }

  /** Grouping is a homomorphism: any split of the events may be grouped apart and merged. */
  lemma GroupAppend<E(!new), K, M(!new)>(m: Monoid<M>, key: E -> K, value: E -> M, a: seq<E>, b: seq<E>)
    requires Lawful(m)
    ensures GroupBy(m, key, value, a + b) == MergeGroups(m, GroupBy(m, key, value, a), GroupBy(m, key, value, b))
  {
    KeysAppend(key, a, b);
    var ga, gb, g := GroupBy(m, key, value, a), GroupBy(m, key, value, b), GroupBy(m, key, value, a + b);
    var merged := MergeGroups(m, ga, gb);
    assert g.Keys == merged.Keys;
    forall k | k in g.Keys
      ensures g[k] == merged[k]
    {
      TotalAtCases(m, key, value, a, b, k);
    }
  }

  /** Neither the order nor the batching of merges matters. */
  lemma MergeLaws<K, M(!new)>(m: Monoid<M>, a: map<K, M>, b: map<K, M>, c: map<K, M>)
    requires Lawful(m)
    ensures MergeGroups(m, a, b) == MergeGroups(m, b, a)
    ensures MergeGroups(m, MergeGroups(m, a, b), c) == MergeGroups(m, a, MergeGroups(m, b, c))
  {
    var left, right := MergeGroups(m, MergeGroups(m, a, b), c), MergeGroups(m, a, MergeGroups(m, b, c));
    assert left.Keys == right.Keys;
    forall k | k in left.Keys
      ensures left[k] == right[k]
    {
      if k in a && k in b && k in c { assert Laws(m, a[k], b[k], c[k]); }
    }
    forall k | k in a && k in b
      ensures m.plus(a[k], b[k]) == m.plus(b[k], a[k])
    {
      assert Laws(m, a[k], b[k], b[k]);
    }
  }

  lemma {:induction false} MergeThree<K, M(!new)>(m: Monoid<M>, x: map<K, M>, a: map<K, M>, b: map<K, M>)
    requires Lawful(m)
    ensures MergeGroups(m, MergeGroups(m, a, x), b) == MergeGroups(m, x, MergeGroups(m, a, b))
  {
    MergeLaws(m, a, x, b);
    MergeLaws(m, x, a, b);
  }

  lemma WithoutOne<E>(b: seq<E>, i: nat, x: E, rest: seq<E>)
    requires i < |b| && b[i] == x && multiset([x] + rest) == multiset(b)
    ensures b == b[..i] + [x] + b[i + 1..] && multiset(rest) == multiset(b[..i] + b[i + 1..])
  {
    assert b == b[..i] + [x] + b[i + 1..];
    var others := multiset(b[..i] + b[i + 1..]);
    assert multiset([x] + rest) == multiset{x} + multiset(rest);
    assert multiset(b) == multiset{x} + others;
    assert multiset(rest) == multiset{x} + multiset(rest) - multiset{x};
    assert others == multiset{x} + others - multiset{x};
  }

  /** Grouping does not depend on the order of the events. */
  lemma {:induction false} GroupPermuted<E(!new), K, M(!new)>(m: Monoid<M>, key: E -> K, value: E -> M, a: seq<E>,
                                                              b: seq<E>)
    requires Lawful(m) && multiset(a) == multiset(b)
    ensures GroupBy(m, key, value, a) == GroupBy(m, key, value, b)
    decreases |a|
  {
    if a == [] {
      assert b == [] by { assert |multiset(b)| == |b|; }
    } else {
      var x, rest := a[0], a[1..];
      assert a == [x] + rest && x in multiset(a) && x in b;
      var i: nat :| i < |b| && b[i] == x;
      var left, right := b[..i], b[i + 1..];
      WithoutOne(b, i, x, rest);
      GroupPermuted(m, key, value, rest, left + right);
      GroupAppend(m, key, value, [x], rest);
      GroupAppend(m, key, value, left, right);
      GroupAppend(m, key, value, left + [x], right);
      GroupAppend(m, key, value, left, [x]);
      MergeThree(m, GroupBy(m, key, value, [x]), GroupBy(m, key, value, left), GroupBy(m, key, value, right));
    }
  }

  lemma {:induction false} TotalSame<E(!new), M>(m: Monoid<M>, f: E -> M, g: E -> M, es: seq<E>)
    requires forall e :: e in es ==> f(e) == g(e)
    ensures Total(m, f, es) == Total(m, g, es)
  {
    if es != [] {
      TotalSame(m, f, g, es[1..]);
    }
  }

  lemma GroupSame<E(!new), K, M>(m: Monoid<M>, key: E -> K, f: E -> M, g: E -> M, es: seq<E>)
    requires forall e :: e in es ==> f(e) == g(e)
    ensures GroupBy(m, key, f, es) == GroupBy(m, key, g, es)
  {
    forall k | k in Keys(key, es)
      ensures TotalAt(m, key, f, es, k) == TotalAt(m, key, g, es, k)
    {
      forall e | e in Select(es, At(key, k)) { SelectIn(es, At(key, k), e); }
      TotalSame(m, f, g, Select(es, At(key, k)));
    }
  }

  lemma GroupOfOne<E(!new), K, M(!new)>(m: Monoid<M>, key: E -> K, value: E -> M, e: E)
    requires Lawful(m)
    ensures GroupBy(m, key, value, [e]) == map[key(e) := value(e)]
  {
    assert Keys(key, [e]) == {key(e)};
    SelectAll([e], At(key, key(e)));
    assert Total(m, value, [e]) == m.plus(value(e), m.zero);
    assert Laws(m, value(e), m.zero, m.zero);
  }

  /** One more event updates one group. */
  lemma GroupStep<E(!new), K, M(!new)>(m: Monoid<M>, key: E -> K, value: E -> M, es: seq<E>, e: E)
    requires Lawful(m)
    ensures var g := GroupBy(m, key, value, es);
      GroupBy(m, key, value, es + [e]) == g[key(e) := if key(e) in g then m.plus(g[key(e)], value(e)) else value(e)]
  {
    GroupAppend(m, key, value, es, [e]);
    GroupOfOne(m, key, value, e);
  }

  lemma {:induction false} SelectSingle<E>(e: E, keep: E -> bool)
    ensures Select([e], keep) == if keep(e) then [e] else []
  {
    assert [e][1..] == [];
    assert Select([e][1..], keep) == [];
  }

  lemma {:induction false} SelectAtMost<E>(es: seq<E>, keep: E -> bool)
    ensures |Select(es, keep)| <= |es|
  {
    if es != [] {
      SelectAtMost(es[1..], keep);
    }
  }

  lemma SelectStep<E(!new)>(es: seq<E>, i: nat, keep: E -> bool)
    requires i < |es|
    ensures Select(es[..i + 1], keep) == if keep(es[i]) then Select(es[..i], keep) + [es[i]] else Select(es[..i], keep)
  {
    assert es[..i + 1] == es[..i] + [es[i]];
    SelectAppend(es[..i], [es[i]], keep);
  }

  function RestrictGroups<K, M>(groups: map<K, M>, keep: K -> bool): map<K, M> {
    map k | k in groups && keep(k) :: groups[k]
  }

  lemma KeysRestrict<E(!new), K>(key: E -> K, es: seq<E>, keep: E -> bool, keepKey: K -> bool)
    requires forall e :: e in es ==> keep(e) == keepKey(key(e))
    ensures Keys(key, Select(es, keep)) == set k | k in Keys(key, es) && keepKey(k)
  {
    forall e ensures e in Select(es, keep) <==> e in es && keep(e) {
      SelectIn(es, keep, e);
    }
  }

  lemma TotalAtRestrict<E(!new), K, M>(m: Monoid<M>, key: E -> K, value: E -> M, es: seq<E>, keep: E -> bool,
                                       keepKey: K -> bool, k: K)
    requires forall e :: e in es ==> keep(e) == keepKey(key(e))
    requires keepKey(k)
    ensures TotalAt(m, key, value, Select(es, keep), k) == TotalAt(m, key, value, es, k)
  {
    SelectTwice(es, keep, At(key, k), At(key, k));
  }

  /** A filter that only looks at the group key filters whole groups. */
  lemma GroupRestrict<E(!new), K, M(!new)>(m: Monoid<M>, key: E -> K, value: E -> M, es: seq<E>, keep: E -> bool,
                                           keepKey: K -> bool)
    requires forall e :: e in es ==> keep(e) == keepKey(key(e))
    ensures GroupBy(m, key, value, Select(es, keep)) == RestrictGroups(GroupBy(m, key, value, es), keepKey)
  {
    KeysRestrict(key, es, keep, keepKey);
    var kept := GroupBy(m, key, value, Select(es, keep));
    var restricted := RestrictGroups(GroupBy(m, key, value, es), keepKey);
    assert kept.Keys == restricted.Keys;
    forall k | k in kept
      ensures kept[k] == restricted[k]
    {
      TotalAtRestrict(m, key, value, es, keep, keepKey, k);
    }
  }

  /** The value of a group, zero when it is absent. */
  function GroupAt<K, M>(m: Monoid<M>, groups: map<K, M>, k: K): M { if k in groups then groups[k] else m.zero }

  lemma MergedAt<K, M(!new)>(m: Monoid<M>, a: map<K, M>, b: map<K, M>, k: K)
    requires Lawful(m)
    ensures GroupAt(m, MergeGroups(m, a, b), k) == m.plus(GroupAt(m, a, k), GroupAt(m, b, k))
  {
    assert Laws(m, GroupAt(m, a, k), m.zero, m.zero);
    assert Laws(m, GroupAt(m, b, k), m.zero, m.zero);
  }

  lemma GroupByAt<E(!new), K, M>(m: Monoid<M>, key: E -> K, value: E -> M, es: seq<E>, k: K)
    ensures GroupAt(m, GroupBy(m, key, value, es), k) == Total(m, value, Select(es, At(key, k)))
  {
    if k !in Keys(key, es) {
      TotalAtMissing(m, key, value, es, k);
    }
  }
}

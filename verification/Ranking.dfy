/** The order in which breakdown rows are listed and cut: cost descending, then tokens descending, then
    name ascending (internal/repository/analytics_rollup_provider_model.go, analytics_model.go). */
module Ranking {

  /** Byte-wise string order. */
  predicate Before(a: string, b: string) {
    b != "" && (a == "" || a[0] < b[0] || (a[0] == b[0] && Before(a[1..], b[1..])))
  }

  /** At the first place where two strings differ, one ends or has the smaller character. */
  ghost predicate DiffersAt(a: string, b: string, n: nat) {
    && n <= |a| && n < |b| && (forall k :: 0 <= k < n ==> a[k] == b[k])
    && (n < |a| ==> a[n] < b[n])
  }

  /** Byte-wise order, without recursion. */
  ghost predicate Precedes(a: string, b: string) { exists n: nat :: DiffersAt(a, b, n) }

  lemma {:induction false} BeforeIsPrecedes(a: string, b: string)
    ensures Before(a, b) <==> Precedes(a, b)
  {
    if a == "" && b != "" {
      assert DiffersAt(a, b, 0);
    } else if a != "" && b != "" && a[0] < b[0] {
      assert DiffersAt(a, b, 0);
    } else if a != "" && b != "" && a[0] == b[0] {
      BeforeIsPrecedes(a[1..], b[1..]);
      if Precedes(a[1..], b[1..]) {
        var n: nat :| DiffersAt(a[1..], b[1..], n);
        forall k | 0 <= k < n + 1 ensures a[k] == b[k] {
          assert 0 < k ==> a[1..][k - 1] == b[1..][k - 1];
        }
        assert DiffersAt(a, b, n + 1);
      }
      if Precedes(a, b) {
        var n: nat :| DiffersAt(a, b, n);
        assert n != 0;
        assert DiffersAt(a[1..], b[1..], n - 1);
      }
    }
  }

  lemma {:induction false} BeforeTransitive(a: string, b: string, c: string)
    requires Before(a, b) && Before(b, c)
    ensures Before(a, c)
  {
    if a != "" && a[0] == b[0] == c[0] {
      BeforeTransitive(a[1..], b[1..], c[1..]);
    }
  }

  lemma {:induction false} BeforeTrichotomy(a: string, b: string)
    ensures a == b ==> !Before(a, b)
    ensures a != b ==> (Before(a, b) <==> !Before(b, a))
  {
    if a != "" && b != "" && a[0] == b[0] {
      BeforeTrichotomy(a[1..], b[1..]);
      assert a == [a[0]] + a[1..] && b == [b[0]] + b[1..];
    }
  }

  /** What a row is ranked by. */
  datatype Rank = Rank(cost: real, tokens: int)

  type Ranks = map<string, Rank>

  /** `a` is listed above `b`. */
  predicate Above(ranks: Ranks, a: string, b: string)
    requires a in ranks && b in ranks
  {
    if ranks[a].cost != ranks[b].cost then ranks[a].cost > ranks[b].cost
    else if ranks[a].tokens != ranks[b].tokens then ranks[a].tokens > ranks[b].tokens
    else Before(a, b)
  }

  lemma AboveTransitive(ranks: Ranks, a: string, b: string, c: string)
    requires a in ranks && b in ranks && c in ranks
    requires Above(ranks, a, b) && Above(ranks, b, c)
    ensures Above(ranks, a, c)
  {
    if Before(a, b) && Before(b, c) {
      BeforeTransitive(a, b, c);
    }
  }

  lemma AboveTotal(ranks: Ranks, a: string, b: string)
    requires a in ranks && b in ranks
    ensures a == b ==> !Above(ranks, a, b)
    ensures a != b ==> (Above(ranks, a, b) <==> !Above(ranks, b, a))
  {
    BeforeTrichotomy(a, b);
  }

  predicate Descending(ranks: Ranks, names: seq<string>) {
    && (forall i :: 0 <= i < |names| ==> names[i] in ranks)
    && forall i, j :: 0 <= i < j < |names| ==> Above(ranks, names[i], names[j])
  }

  /** All names of `among`, each once, in listing order. */
  ghost predicate Listing(ranks: Ranks, names: seq<string>, among: set<string>) {
    && Descending(ranks, names)
    && (forall n :: n in names <==> n in among)
  }

  lemma ListingTail(ranks: Ranks, names: seq<string>, among: set<string>)
    requires Listing(ranks, names, among) && names != []
    ensures Listing(ranks, names[1..], among - {names[0]})
  {
    forall i | 0 < i < |names| ensures names[i] != names[0] {
      AboveTotal(ranks, names[0], names[i]);
    }
    assert names == [names[0]] + names[1..];
  }

  lemma SameFirst(ranks: Ranks, a: seq<string>, b: seq<string>, among: set<string>)
    requires Listing(ranks, a, among) && Listing(ranks, b, among) && a != [] && b != []
    ensures a[0] == b[0]
  {
    assert a[0] in b && b[0] in a;
    if a[0] != b[0] {
      AboveTotal(ranks, a[0], b[0]);
    }
  }

  lemma EmptyListing(ranks: Ranks, names: seq<string>, among: set<string>)
    requires Listing(ranks, names, among)
    ensures names == [] <==> among == {}
  {
    if names != [] {
      assert names[0] in names;
    }
  }

  /** The order is total: there is only one listing, so every cut of it is determined too. */
  lemma {:induction false} ListingUnique(ranks: Ranks, a: seq<string>, b: seq<string>, among: set<string>)
    requires Listing(ranks, a, among) && Listing(ranks, b, among)
    ensures a == b
  {
    EmptyListing(ranks, a, among);
    EmptyListing(ranks, b, among);
    if a != [] {
      SameFirst(ranks, a, b, among);
      ListingTail(ranks, a, among);
      ListingTail(ranks, b, among);
      ListingUnique(ranks, a[1..], b[1..], among - {a[0]});
      assert a == [a[0]] + a[1..] && b == [b[0]] + b[1..];
    }
  }

  /** Puts a name into its place of a listing. */
  method Place(ranks: Ranks, names: seq<string>, name: string) returns (r: seq<string>)
    requires Descending(ranks, names) && name in ranks && name !in names
    ensures Descending(ranks, r)
    ensures forall n :: n in r <==> n in names || n == name
  {
    var i := 0;
    while i < |names| && Above(ranks, names[i], name)
      invariant i <= |names|
      invariant forall k :: 0 <= k < i ==> Above(ranks, names[k], name)
    {
      i := i + 1;
    }
    forall k | i <= k < |names| ensures Above(ranks, name, names[k]) {
      AboveTotal(ranks, names[i], name);
      if i < k { AboveTransitive(ranks, name, names[i], names[k]); }
    }
    r := names[..i] + [name] + names[i..];
    assert names == names[..i] + names[i..];
  }

  /** `sort.Slice` over the rows collected from a map in any order. */
  method Sort(ranks: Ranks) returns (names: seq<string>)
    ensures Listing(ranks, names, ranks.Keys)
  {
    names := [];
    var rest := ranks.Keys;
    while rest != {}
      invariant rest <= ranks.Keys
      invariant Listing(ranks, names, ranks.Keys - rest)
    {
      var name :| name in rest;
      names := Place(ranks, names, name);
      rest := rest - {name};
    }
  }

  function Cut(names: seq<string>): seq<string> { if |names| > 20 then names[..20] else names }
}

/** What one event counts for, read from its own columns, and sums of it over events. */
module EventFigures {
  import opened Accounting
  import opened Aggregation
  import opened UsageEvents

  function CountBy(es: seq<UsageEvent>, p: UsageEvent -> bool): nat { |Select(es, p)| }

  function SumBy(es: seq<UsageEvent>, value: UsageEvent -> int): int {
    if es == [] then 0 else value(es[0]) + SumBy(es[1..], value)
  }

  function AmountBy(es: seq<UsageEvent>, value: UsageEvent -> real): real {
    if es == [] then 0.0 else value(es[0]) + AmountBy(es[1..], value)
  }

  /** A canonical bucket of an event with valid accounting, zero otherwise. */
  function BucketOf(e: UsageEvent, bucket: Option<int64>): int {
    if e.state.Valid? && bucket.Some? then bucket.value as int else 0
  }

  /** Valid accounting of one of the three qualities. */
  predicate HasQuality(e: UsageEvent, quality: TokenQuality) {
    e.state.Valid? && e.facts.quality.Some? && e.facts.quality.value == quality
  }

  function WhenComplete(e: UsageEvent, tokens: int): int { if HasQuality(e, Complete) then tokens else 0 }

  /** The prompt tokens billed at the prompt price. */
  function PromptOf(e: UsageEvent): int { BucketOf(e, e.facts.uncached) + BucketOf(e, e.facts.cacheWrite) }

  /** A complete attempt without a single billed token. */
  predicate BilledNothing(e: UsageEvent) {
    && HasQuality(e, Complete)
    && BucketOf(e, e.facts.uncached) == 0 && BucketOf(e, e.facts.cacheWrite) == 0
    && BucketOf(e, e.facts.cacheRead) == 0 && BucketOf(e, e.facts.output) == 0
  }

  lemma {:induction false} SumSplits(es: seq<UsageEvent>, value: UsageEvent -> int, a: UsageEvent -> int,
                                     b: UsageEvent -> int)
    requires forall e :: e in es ==> value(e) == a(e) + b(e)
    ensures SumBy(es, value) == SumBy(es, a) + SumBy(es, b)
  {
    if es != [] {
      assert es[0] in es && forall e :: e in es[1..] ==> e in es;
      SumSplits(es[1..], value, a, b);
    }
  }

  /** Counting is adding ones. */
  lemma {:induction false} CountIsSum(es: seq<UsageEvent>, p: UsageEvent -> bool, put: UsageEvent -> int)
    requires forall e :: e in es ==> put(e) == if p(e) then 1 else 0
    ensures SumBy(es, put) == CountBy(es, p)
  {
    if es != [] {
      assert es[0] in es && forall e :: e in es[1..] ==> e in es;
      CountIsSum(es[1..], p, put);
    }
  }

  /** A column that is added row by row is the sum of what each event puts into it. */
  lemma {:induction false} ColumnSum<M(!new)>(m: Monoid<M>, value: UsageEvent -> M, column: M -> int,
                                              es: seq<UsageEvent>, put: UsageEvent -> int)
    requires column(m.zero) == 0 && forall a, b :: column(m.plus(a, b)) == column(a) + column(b)
    requires forall e :: e in es ==> column(value(e)) == put(e)
    ensures column(Total(m, value, es)) == SumBy(es, put)
  {
    if es != [] {
      assert es[0] in es && forall e :: e in es[1..] ==> e in es;
      ColumnSum(m, value, column, es[1..], put);
    }
  }

  /** A column that counts. */
  lemma {:induction false} ColumnCount<M(!new)>(m: Monoid<M>, value: UsageEvent -> M, column: M -> int,
                                                es: seq<UsageEvent>, p: UsageEvent -> bool)
    requires column(m.zero) == 0 && forall a, b :: column(m.plus(a, b)) == column(a) + column(b)
    requires forall e :: e in es ==> column(value(e)) == if p(e) then 1 else 0
    ensures column(Total(m, value, es)) == CountBy(es, p)
  {
    var put := (e: UsageEvent) => if p(e) then 1 else 0;
    ColumnSum(m, value, column, es, put);
    CountIsSum(es, p, put);
  }

  /** A column of money. */
  lemma {:induction false} ColumnAmount<M(!new)>(m: Monoid<M>, value: UsageEvent -> M, column: M -> real,
                                                 es: seq<UsageEvent>, put: UsageEvent -> real)
    requires column(m.zero) == 0.0 && forall a, b :: column(m.plus(a, b)) == column(a) + column(b)
    requires forall e :: e in es ==> column(value(e)) == put(e)
    ensures column(Total(m, value, es)) == AmountBy(es, put)
  {
    if es != [] {
      assert es[0] in es && forall e :: e in es[1..] ==> e in es;
      ColumnAmount(m, value, column, es[1..], put);
    }
  }
}

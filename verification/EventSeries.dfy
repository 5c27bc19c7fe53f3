/** What the overview adds up event by event, and its fold into bucket series
    (internal/repository/usage_overview.go, cost_completeness.go). */
module EventSeries {
  import opened AggregateRows
  import opened Aggregation
  import opened UsageEvents

  /** Attempts, tokens and cost of some events; each of them counts as one whose cost is missing or known. */
  datatype Measures = Measures(
    total: int, input: int, output: int, cached: int, reasoning: int, valid: int,
    cost: real, missing: int, known: int)

  function AddMeasures(a: Measures, b: Measures): Measures {
    Measures(a.total + b.total, a.input + b.input, a.output + b.output, a.cached + b.cached, a.reasoning + b.reasoning,
             a.valid + b.valid, a.cost + b.cost, a.missing + b.missing, a.known + b.known)
  }

  const NO_MEASURES := Measures(0, 0, 0, 0, 0, 0, 0.0, 0, 0)

  const MEASURES: Monoid<Measures> := Monoid(NO_MEASURES, AddMeasures)

  lemma MeasuresLawful()
    ensures Lawful(MEASURES)
  {
  }

  /** The evaluation of one event. */
  type Evaluation = UsageEvent -> Measures

  /** Every event counts as missing or as known. */
  ghost predicate Decides(value: Evaluation) {
    forall e :: (value(e).missing == 0 && value(e).known == 1) || (value(e).missing == 1 && value(e).known == 0)
  }

  function Measured(value: Evaluation, es: seq<UsageEvent>): Measures { Total(MEASURES, value, es) }

  lemma MeasuredSnoc(value: Evaluation, es: seq<UsageEvent>, e: UsageEvent)
    ensures Measured(value, es + [e]) == AddMeasures(Measured(value, es), value(e))
  {
    MeasuresLawful();
    TotalAppend(MEASURES, value, es, [e]);
    assert [e][1..] == [];
    assert Total(MEASURES, value, [e]) == AddMeasures(value(e), NO_MEASURES);
  }

  lemma {:induction false} MeasuredCounts(value: Evaluation, es: seq<UsageEvent>)
    requires Decides(value)
    ensures var m := Measured(value, es); 0 <= m.missing && 0 <= m.known && m.missing + m.known == |es|
  {
    if es != [] {
      MeasuredCounts(value, es[1..]);
    }
  }

  // Status per bucket

  function StatusOf(one: Measures): CostStatus { if one.known == 1 then Available else Unavailable }

  /** `mergeUsageOverviewCostStatus`. */
  function MergeStatus(existingRequests: int, existing: CostStatus, incoming: CostStatus): CostStatus {
    if existingRequests == 0 then incoming else if existing == incoming then existing else Partial
  }

  /** Merging one more event is assessing the counts with it. */
  lemma MergeIsAssessment(before: Measures, one: Measures, existing: CostStatus)
    requires 0 <= before.missing && 0 <= before.known
    requires (one.missing == 0 && one.known == 1) || (one.missing == 1 && one.known == 0)
    requires 0 < before.missing + before.known ==>
      existing == AssessCostCompleteness(before.missing, before.known).status
    ensures MergeStatus(before.missing + before.known, existing, StatusOf(one))
         == AssessCostCompleteness(before.missing + one.missing, before.known + one.known).status
  {
  }

  /** What the series shows of a bucket. */
  datatype SeriesCell = SeriesCell(
    requests: int, status: CostStatus, cost: real,
    total: int, input: int, output: int, cached: int, reasoning: int, valid: int,
    rpm: real, tpm: real)

  /** Bucket widths in minutes: 60 for an hour, 24 * 60 for a day. */
  type Minutes = m: int | 0 < m witness 1

  function CellFor(requests: int, m: Measures, status: CostStatus, minutes: Minutes): SeriesCell {
    SeriesCell(requests, status, m.cost, m.total, m.input, m.output, m.cached, m.reasoning, m.valid,
               requests as real / minutes as real, m.total as real / minutes as real)
  }

  function CellOf(value: Evaluation, minutes: Minutes): seq<UsageEvent> -> SeriesCell {
    (es: seq<UsageEvent>) =>
      var m := Measured(value, es);
      CellFor(|es|, m, AssessCostCompleteness(m.missing, m.known).status, minutes)
  }

  const ZERO_CELL := SeriesCell(0, Unavailable, 0.0, 0, 0, 0, 0, 0, 0, 0.0, 0.0)

  /** One event folded into a cell. */
  function Folded(cell: SeriesCell, one: Measures, minutes: Minutes): SeriesCell {
    SeriesCell(
      cell.requests + 1, MergeStatus(cell.requests, cell.status, StatusOf(one)), cell.cost + one.cost,
      cell.total + one.total, cell.input + one.input, cell.output + one.output, cell.cached + one.cached,
      cell.reasoning + one.reasoning, cell.valid + one.valid,
      (cell.requests + 1) as real / minutes as real, (cell.total + one.total) as real / minutes as real)
  }

  /** Folding an event into the cell of some events gives the cell of all of them; nothing reads as the
      zero cell. */
  lemma FoldIsCell(value: Evaluation, es: seq<UsageEvent>, e: UsageEvent, minutes: Minutes, cell: SeriesCell)
    requires Decides(value) && cell == (if es == [] then ZERO_CELL else CellOf(value, minutes)(es))
    ensures Folded(cell, value(e), minutes) == CellOf(value, minutes)(es + [e])
  {
    MeasuredSnoc(value, es, e);
    MeasuredCounts(value, es);
    MergeIsAssessment(Measured(value, es), value(e), cell.status);
    if es == [] {
      assert Measured(value, es) == NO_MEASURES;
    }
  }

  /** A value for each bucket, computed from the bucket's events. */
  function ByBucket<K(==), V>(events: seq<UsageEvent>, bucket: UsageEvent -> K, cell: seq<UsageEvent> -> V): map<K, V> {
    map b | b in Keys(bucket, events) :: cell(Select(events, At(bucket, b)))
  }

  lemma SelectOneMore<K>(events: seq<UsageEvent>, e: UsageEvent, bucket: UsageEvent -> K, b: K)
    ensures Select(events + [e], At(bucket, b)) ==
      if bucket(e) == b then Select(events, At(bucket, b)) + [e] else Select(events, At(bucket, b))
  {
    SelectAppend(events, [e], At(bucket, b));
    assert [e][1..] == [];
  }

  lemma EmptyBucket<K>(events: seq<UsageEvent>, bucket: UsageEvent -> K, b: K)
    ensures b !in Keys(bucket, events) <==> Select(events, At(bucket, b)) == []
  {
    if x :| x in events && bucket(x) == b {
      SelectIn(events, At(bucket, b), x);
    } else {
      SelectNone(events, At(bucket, b));
    }
  }

  lemma ByBucketStep<K, V>(events: seq<UsageEvent>, e: UsageEvent, bucket: UsageEvent -> K, cell: seq<UsageEvent> -> V)
    ensures ByBucket(events + [e], bucket, cell)
      == ByBucket(events, bucket, cell)[bucket(e) := cell(Select(events, At(bucket, bucket(e))) + [e])]
  {
    KeysAppend(bucket, events, [e]);
    var after := ByBucket(events + [e], bucket, cell);
    var step := ByBucket(events, bucket, cell)[bucket(e) := cell(Select(events, At(bucket, bucket(e))) + [e])];
    assert Keys(bucket, [e]) == {bucket(e)};
    assert after.Keys == step.Keys;
    forall b | b in after ensures after[b] == step[b] {
      SelectOneMore(events, e, bucket, b);
    }
  }

  /** One event added to its cell in a series. */
  function SeriesWith<K(==)>(series: map<K, SeriesCell>, b: K, one: Measures, minutes: Minutes): map<K, SeriesCell> {
    series[b := Folded(if b in series then series[b] else ZERO_CELL, one, minutes)]
  }

  lemma SeriesStep<K>(events: seq<UsageEvent>, e: UsageEvent, bucket: UsageEvent -> K, value: Evaluation,
                      minutes: Minutes)
    requires Decides(value)
    ensures ByBucket(events + [e], bucket, CellOf(value, minutes))
         == SeriesWith(ByBucket(events, bucket, CellOf(value, minutes)), bucket(e), value(e), minutes)
  {
    var b := bucket(e);
    var some := Select(events, At(bucket, b));
    ByBucketStep(events, e, bucket, CellOf(value, minutes));
    EmptyBucket(events, bucket, b);
    FoldIsCell(value, some, e, minutes, if some == [] then ZERO_CELL else CellOf(value, minutes)(some));
  }

  /** A series, and the same series for each model. */
  datatype Series = Series(buckets: map<string, SeriesCell>, models: map<(string, string), SeriesCell>)

  /** Buckets of one model. */
  function ModelBuckets(model: UsageEvent -> string, bucket: UsageEvent -> string): UsageEvent -> (string, string) {
    (e: UsageEvent) => (model(e), bucket(e))
  }

  ghost predicate IsSeries(series: Series, events: seq<UsageEvent>, bucket: UsageEvent -> string,
                           model: UsageEvent -> string,
                           value: Evaluation, minutes: Minutes)
  {
    && series.buckets == ByBucket(events, bucket, CellOf(value, minutes))
    && series.models == ByBucket(events, ModelBuckets(model, bucket), CellOf(value, minutes))
  }

  function InBucket(bucket: UsageEvent -> string, b: string): UsageEvent -> bool { (e: UsageEvent) => bucket(e) == b }

  function OfModelIn(model: UsageEvent -> string, m: string, bucket: UsageEvent -> string, b: string):
    UsageEvent -> bool {
    (e: UsageEvent) => model(e) == m && bucket(e) == b
  }

  /** A series has a cell for exactly the buckets with an event, and for exactly the models and buckets with one, each
      of exactly those events. */
  lemma CellsOfSeries(series: Series, events: seq<UsageEvent>, bucket: UsageEvent -> string,
                      model: UsageEvent -> string, value: Evaluation, minutes: Minutes, m: string, b: string)
    requires IsSeries(series, events, bucket, model, value, minutes)
    ensures b in series.buckets <==> Select(events, InBucket(bucket, b)) != []
    ensures b in series.buckets ==> series.buckets[b] == CellOf(value, minutes)(Select(events, InBucket(bucket, b)))
    ensures (m, b) in series.models <==> Select(events, OfModelIn(model, m, bucket, b)) != []
    ensures (m, b) in series.models ==>
      series.models[(m, b)] == CellOf(value, minutes)(Select(events, OfModelIn(model, m, bucket, b)))
  {
    EmptyBucket(events, bucket, b);
    SelectSame(events, At(bucket, b), InBucket(bucket, b));
    EmptyBucket(events, ModelBuckets(model, bucket), (m, b));
    SelectSame(events, At(ModelBuckets(model, bucket), (m, b)), OfModelIn(model, m, bucket, b));
  }

  /** `applyUsageEventToOverviewSeries`, for every event that a series keeps: each cell shows the requests,
      tokens, cost, cost status and rates of its bucket's events, and of its bucket's events of one model. */
  method OverviewSeries(events: seq<UsageEvent>, keep: UsageEvent -> bool, bucket: UsageEvent -> string,
                        model: UsageEvent -> string,
                        value: Evaluation, minutes: Minutes)
    returns (series: Series)
    requires Decides(value)
    ensures IsSeries(series, Select(events, keep), bucket, model, value, minutes)
  {
    series := Series(map[], map[]);
    for i := 0 to |events|
      invariant IsSeries(series, Select(events[..i], keep), bucket, model, value, minutes)
    {
      var e := events[i];
      SelectStep(events, i, keep);
      if keep(e) {
        SeriesStep(Select(events[..i], keep), e, bucket, value, minutes);
        SeriesStep(Select(events[..i], keep), e, ModelBuckets(model, bucket), value, minutes);
        series := Series(SeriesWith(series.buckets, bucket(e), value(e), minutes),
                         SeriesWith(series.models, (model(e), bucket(e)), value(e), minutes));
      }
    }
    assert events[..|events|] == events;
  }
}

/** Analytics reads over a window plan: raw segments scan events, the rollup segment scans rollup rows,
    and their aggregates are added (internal/repository/analytics_core.go, analytics_trend.go). */
module AnalyticsPlan {
  import opened Accounting
  import opened AggregateRows
  import opened Aggregation
  import opened RollupSoundness
  import opened Rollups
  import opened RowSums
  import opened Trimming
  import opened UsageEvents
  import opened UsageStore
  import opened WindowPlan

  /** Price rows by trimmed model name, at most one each. */
  type Prices = map<string, Price>

  /** The price row a model joins with. */
  function PriceOf(prices: Prices, model: string): Option<Price> {
    if SqlTrim(model) in prices then Some(prices[SqlTrim(model)]) else None
  }

  /** A raw row of the query: one event. */
  function EventRow(prices: Prices): UsageEvent -> AggregateRow {
    (e: UsageEvent) => Render(InMemoryRowOf(e), PriceOf(prices, e.model))
  }

  /** The rollup rows of the query. */
  function Rendered(table: map<RollupKey, HourlyRollup>, prices: Prices): map<RollupKey, AggregateRow> {
    map k | k in table :: Render(table[k], PriceOf(prices, k.model))
  }

  predicate ProviderMatches(f: Filter, provider: string) {
    TrimSpace(f.provider) == "" || SqlTrim(provider) == TrimSpace(f.provider)
  }

  /** A further restriction of a query, such as one group of a GROUP BY, rendered for either source. */
  datatype Where = Where(event: UsageEvent -> bool, key: RollupKey -> bool)

  const EVERYTHING := Where(e => true, k => true)

  function InRaw(f: Filter, w: Where): UsageEvent -> bool {
    (e: UsageEvent) => Covers(f, e.timestamp) && ProviderMatches(f, e.provider) && w.event(e)
  }

  predicate InRollup(f: Filter, w: Where, k: RollupKey) {
    Covers(f, k.bucketStart) && ProviderMatches(f, k.provider) && w.key(k)
  }

  function RawTotal(es: seq<UsageEvent>, f: Filter, w: Where, prices: Prices): AggregateRow {
    Total(ROWS, EventRow(prices), Select(es, InRaw(f, w)))
  }

  ghost function RollupKeysIn(s: Store, f: Filter, w: Where): set<RollupKey> {
    set k | k in s.rollups && InRollup(f, w, k)
  }

  ghost function RollupTotal(s: Store, f: Filter, w: Where, prices: Prices): AggregateRow {
    SumOver(ROWS, Rendered(s.rollups, prices), RollupKeysIn(s, f, w))
  }

  function RawSegments(es: seq<UsageEvent>, fs: seq<Filter>, w: Where, prices: Prices): AggregateRow {
    if fs == [] then EMPTY_ROW
    else AddRows(RawSegments(es, fs[..|fs| - 1], w, prices), RawTotal(es, fs[|fs| - 1], w, prices))
  }

  /** The merged aggregate of all segments of a plan. */
  ghost function PlanTotal(s: Store, p: Plan, w: Where, prices: Prices): AggregateRow {
    var raw := RawSegments(s.events, p.raw, w, prices);
    if p.rollup.None? then raw else AddRows(raw, RollupTotal(s, p.rollup.value, w, prices))
  }

  // Rollup rows against events

  /** The rendered row of a group has the value of its rendered events. */
  lemma {:induction false} GroupRowMatches(es: seq<UsageEvent>, value: UsageEvent -> HourlyRollup,
                                           row: UsageEvent -> AggregateRow, price: Option<Price>)
    requires forall e :: e in es ==> Sound(value(e)) && row(e) == Render(value(e), price)
    ensures Same(Render(Total(ROLLUPS, value, es), price), Total(ROWS, row, es))
  {
    if es == [] {
      EmptyRendersEmpty(price);
    } else {
      var rest := es[1..];
      assert es[0] in es;
      GroupRowMatches(rest, value, row, price);
      TotalOfSound(value, rest);
      RenderAdds(value(es[0]), Total(ROLLUPS, value, rest), price);
      OneSame(row(es[0]), value(es[0]), price);
      SameAdd(Render(value(es[0]), price), row(es[0]), Render(Total(ROLLUPS, value, rest), price),
              Total(ROWS, row, rest));
    }
  }

  lemma OneSame(r: AggregateRow, v: HourlyRollup, price: Option<Price>)
    requires Sound(v) && r == Render(v, price)
    ensures Same(Render(v, price), r)
  {
  }

  lemma EmptyRendersEmpty(price: Option<Price>)
    ensures Render(EMPTY_ROLLUP, price) == EMPTY_ROW
  {
  }

  /** Provider and model read the same through either source. */
  predicate Clean(e: UsageEvent) {
    SqlTrim(e.provider) == TrimSpace(e.provider) && SqlTrim(e.model) == TrimSpace(e.model)
  }

  lemma CleanRow(e: UsageEvent, prices: Prices)
    requires Admitted(e) && Clean(e)
    ensures Sound(RowOf(e)) && EventRow(prices)(e) == Render(RowOf(e), PriceOf(prices, KeyOf(e).model))
  {
    AdmittedRowSound(e);
    RowsAgree(e);
    TrimIdempotent(e.model);
  }

  lemma KeyRowMatches(es: seq<UsageEvent>, k: RollupKey, prices: Prices)
    requires forall e :: e in es ==> Admitted(e)
    requires forall e :: e in es && KeyOf(e) == k ==> Clean(e)
    requires k in Group(es)
    ensures Same(Rendered(Group(es), prices)[k], Total(ROWS, EventRow(prices), Select(es, At(KeyOf, k))))
  {
    var some, price := Select(es, At(KeyOf, k)), PriceOf(prices, k.model);
    forall e | e in some ensures Sound(RowOf(e)) && EventRow(prices)(e) == Render(RowOf(e), price) {
      SelectIn(es, At(KeyOf, k), e);
      CleanRow(e, prices);
    }
    GroupRowMatches(some, RowOf, EventRow(prices), price);
  }

  lemma SameCompatible()
    ensures Compatible(ROWS, Same)
  {
    assert Same(EMPTY_ROW, EMPTY_ROW);
    forall a, b, c, d | Same(a, b) && Same(c, d) ensures Same(ROWS.plus(a, c), ROWS.plus(b, d)) {
      SameAdd(a, b, c, d);
    }
  }

  /** Summing rollup rows of a grouping is summing the events they group. */
  lemma KeysMatchEvents(es: seq<UsageEvent>, ks: set<RollupKey>, prices: Prices)
    requires forall e :: e in es ==> Admitted(e)
    requires forall e :: e in es && KeyOf(e) in ks ==> Clean(e)
    requires ks <= Group(es).Keys
    ensures Same(SumOver(ROWS, Rendered(Group(es), prices), ks),
                 Total(ROWS, EventRow(prices), Select(es, Among(KeyOf, ks))))
  {
    var rows := Rendered(Group(es), prices);
    forall k | k in ks ensures Same(rows[k], Total(ROWS, EventRow(prices), Select(es, At(KeyOf, k)))) {
      KeyRowMatches(es, k, prices);
    }
    RowsLawful();
    SameCompatible();
    SumOverMatches(ROWS, Same, rows, KeyOf, EventRow(prices), es, ks);
  }
}

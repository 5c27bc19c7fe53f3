/** The per-model breakdown over a window plan: segment rows are grouped by model and provider, merged by
    model, ranked and cut to twenty (internal/repository/analytics_rollup_provider_model.go,
    analytics_model.go). */
module ModelBreakdown {
  import opened Accounting
  import opened AggregateRows
  import opened Aggregation
  import opened AnalyticsCore
  import opened AnalyticsPlan
  import opened BackfillRuns
  import opened GroupedReads
  import opened MixedReads
  import opened Ranking
  import opened ReachableReads
  import opened RollupIndex
  import opened Rollups
  import opened RowSums
  import opened Trimming
  import opened UsageEvents
  import opened UsageStore
  import opened WindowPlan

  datatype ModelProvider = ModelProvider(model: string, provider: string)

  const BY_MODEL_PROVIDER: Dimension<ModelProvider> :=
    Dimension((e: UsageEvent) => ModelProvider(SqlTrim(e.model), SqlTrim(e.provider)),
              (k: RollupKey) => ModelProvider(SqlTrim(k.model), SqlTrim(k.provider)))

  const BY_MODEL: Dimension<string> :=
    Dimension((e: UsageEvent) => SqlTrim(e.model), (k: RollupKey) => SqlTrim(k.model))

  const MODELED := Where((e: UsageEvent) => SqlTrim(e.model) != "", (k: RollupKey) => SqlTrim(k.model) != "")

  const MODEL: ModelProvider -> string := (p: ModelProvider) => p.model

  // Merging segment rows

  type ProviderSets = map<string, set<string>>

  function ProvidersOf(sets: ProviderSets, model: string): set<string> { if model in sets then sets[model] else {} }

  /** The named providers of a model among the groups. */
  function Named(pairs: set<ModelProvider>, model: string): set<string> {
    set p | p in pairs && p.model == model && p.provider != "" :: p.provider
  }

  ghost predicate SetsAre(sets: ProviderSets, pairs: set<ModelProvider>) {
    forall model :: ProvidersOf(sets, model) == Named(pairs, model)
  }

  method NoteProvider(sets: ProviderSets, p: ModelProvider, ghost pairs: set<ModelProvider>) returns (r: ProviderSets)
    requires SetsAre(sets, pairs)
    ensures SetsAre(r, pairs + {p})
  {
    r := sets;
    if p.provider != "" {
      r := sets[p.model := ProvidersOf(sets, p.model) + {p.provider}];
    }
    forall model ensures ProvidersOf(r, model) == Named(pairs + {p}, model) {
      assert Named(pairs + {p}, model) == Named(pairs, model) + Named({p}, model);
      assert Named({p}, model) == if p.model == model && p.provider != "" then {p.provider} else {};
    }
  }

  /** `addAnalyticsModelRows`: the rows of a segment are added to the model rows, their named providers to
      the provider sets. */
  method AddModelRows(dst: map<string, AggregateRow>, sets: ProviderSets, rows: map<ModelProvider, AggregateRow>,
                      ghost pairs: set<ModelProvider>)
    returns (r: map<string, AggregateRow>, rsets: ProviderSets)
    requires SetsAre(sets, pairs)
    ensures r == MergeGroups(ROWS, dst, Regroup(ROWS, rows, rows.Keys, MODEL))
    ensures SetsAre(rsets, pairs + rows.Keys)
  {
    RowsLawful();
    r, rsets := dst, sets;
    var rest := rows.Keys;
    while rest != {}
      invariant rest <= rows.Keys
      invariant r == MergeGroups(ROWS, dst, Regroup(ROWS, rows, rows.Keys - rest, MODEL))
      invariant SetsAre(rsets, pairs + (rows.Keys - rest))
    {
      var p :| p in rest;
      ghost var read := rows.Keys - (rest - {p});
      assert read - {p} == rows.Keys - rest && pairs + read == pairs + (rows.Keys - rest) + {p};
      RegroupStep(ROWS, rows, read, MODEL, p);
      MergeStep(ROWS, dst, Regroup(ROWS, rows, read - {p}, MODEL), p.model, rows[p]);
      r := r[p.model := AddRows(GroupAt(ROWS, r, p.model), rows[p])];
      rsets := NoteProvider(rsets, p, pairs + (rows.Keys - rest));
      rest := rest - {p};
    }
    assert rows.Keys - rest == rows.Keys;
  }

  /** Regrouping the groups of a finer dimension gives the groups of a coarser one, in a raw segment. */
  lemma RegroupRaw<B(!new), C>(es: seq<UsageEvent>, f: Filter, w: Where, d: Dimension<B>, part: B -> C, c: Dimension<C>,
                               prices: Prices)
    requires forall e :: c.event(e) == part(d.event(e))
    ensures Regroup(ROWS, RawGroups(es, f, w, d, prices), RawGroups(es, f, w, d, prices).Keys, part)
      == RawGroups(es, f, w, c, prices)
  {
    RowsLawful();
    RegroupEvents(ROWS, d.event, EventRow(prices), Select(es, InRaw(f, w)), part, c.event);
  }

  /** The same in a rollup segment. */
  lemma RegroupRollup<B(!new), C(!new)>(s: Store, g: Filter, w: Where, d: Dimension<B>, part: B -> C, c: Dimension<C>,
                                        prices: Prices)
    requires forall k :: c.key(k) == part(d.key(k))
    ensures Regroup(ROWS, RollupGroups(s, g, w, d, prices), RollupGroups(s, g, w, d, prices).Keys, part)
      == RollupGroups(s, g, w, c, prices)
  {
    RowsLawful();
    RollupGroupsAreRegrouped(s, g, w, d, prices);
    RollupGroupsAreRegrouped(s, g, w, c, prices);
    RegroupTwice(ROWS, Rendered(s.rollups, prices), RollupKeysIn(s, g, w), d.key, part, c.key);
  }

  /** One more raw segment, grouped finely by `d` and coarsely by `c`. */
  lemma RawSegmentStep<B(!new), C(!new)>(es: seq<UsageEvent>, fs: seq<Filter>, i: nat, w: Where, d: Dimension<B>,
                                         part: B -> C, c: Dimension<C>,
                                         prices: Prices)
    requires i < |fs| && forall e :: c.event(e) == part(d.event(e))
    ensures var rows := RawGroups(es, fs[i], w, d, prices);
      && SegmentGroups(es, fs[..i + 1], w, c, prices)
         == MergeGroups(ROWS, SegmentGroups(es, fs[..i], w, c, prices), Regroup(ROWS, rows, rows.Keys, part))
      && SegmentGroups(es, fs[..i + 1], w, d, prices).Keys == SegmentGroups(es, fs[..i], w, d, prices).Keys + rows.Keys
  {
    SegmentGroupsSnoc(es, fs, i, w, d, prices);
    SegmentGroupsSnoc(es, fs, i, w, c, prices);
    RegroupRaw(es, fs[i], w, d, part, c, prices);
  }

  method MergeRawSegments(es: seq<UsageEvent>, fs: seq<Filter>, prices: Prices)
    returns (combined: map<string, AggregateRow>, sets: ProviderSets)
    ensures combined == SegmentGroups(es, fs, MODELED, BY_MODEL, prices)
    ensures SetsAre(sets, SegmentGroups(es, fs, MODELED, BY_MODEL_PROVIDER, prices).Keys)
  {
    combined, sets := map[], map[];
    for i := 0 to |fs|
      invariant combined == SegmentGroups(es, fs[..i], MODELED, BY_MODEL, prices)
      invariant SetsAre(sets, SegmentGroups(es, fs[..i], MODELED, BY_MODEL_PROVIDER, prices).Keys)
    {
      RawSegmentStep(es, fs, i, MODELED, BY_MODEL_PROVIDER, MODEL, BY_MODEL, prices);
      var rows := RawGroups(es, fs[i], MODELED, BY_MODEL_PROVIDER, prices);
      combined, sets :=
        AddModelRows(combined, sets, rows, SegmentGroups(es, fs[..i], MODELED, BY_MODEL_PROVIDER, prices).Keys);
    }
    assert fs[..|fs|] == fs;
  }

  /** The merged model rows and provider sets of a plan. */
  method MergeSegments(s: Store, p: Plan, prices: Prices)
    returns (combined: map<string, AggregateRow>, sets: ProviderSets)
    ensures combined == PlanGroups(s, p, MODELED, BY_MODEL, prices)
    ensures SetsAre(sets, PlanGroups(s, p, MODELED, BY_MODEL_PROVIDER, prices).Keys)
  {
    combined, sets := MergeRawSegments(s.events, p.raw, prices);
    if p.rollup.Some? {
      var rows := GroupRollupRows(s, p.rollup.value, MODELED, BY_MODEL_PROVIDER, prices);
      RegroupRollup(s, p.rollup.value, MODELED, BY_MODEL_PROVIDER, MODEL, BY_MODEL, prices);
      combined, sets :=
        AddModelRows(combined, sets, rows, SegmentGroups(s.events, p.raw, MODELED, BY_MODEL_PROVIDER, prices).Keys);
    }
  }

  // The reported rows

  function RanksOf(rows: map<string, AggregateRow>): Ranks { map n | n in rows :: Rank(rows[n].cost, rows[n].total) }

  const MULTIPLE_PROVIDERS := "Multiple providers"

  lemma OnlyOne(names: set<string>, a: string, b: string)
    requires |names| == 1 && a in names && b in names
    ensures a == b
  {
    assert |names - {a}| == 0;
  }

  /** The only named provider, blank without one. */
  function Label(names: set<string>): string {
    if |names| > 1 then MULTIPLE_PROVIDERS
    else if names == {} then ""
    else
      assert forall a, b :: a in names && b in names ==> a == b by {
        forall a, b | a in names && b in names ensures a == b { OnlyOne(names, a, b); }
      }
      var name :| name in names;
      name
  }

  datatype ModelRecord = ModelRecord(
    model: string, provider: string, totals: AggregateRow,
    successRate: real, averageLatency: real, cost: CostAssessment, cache: CacheEfficiency)

  /** The columns of a model row that are reported as they are. */
  function Reported(row: AggregateRow): AggregateRow {
    row.(eligible := 0, ineligible := 0, absent := 0, complete := 0, inconsistent := 0, unclassifiedAttempts := 0,
         canonical := NO_TOKENS)
  }

  function MapModel(model: string, names: set<string>, row: AggregateRow): ModelRecord {
    var cost := AssessCostCompleteness(row.missing, row.known);
    ModelRecord(
      model, Label(names), Reported(row),
      if 0 < row.requests then Percent(row.successes, row.requests) else 0.0,
      if 0 < row.latencySamples then row.latencyTotal as real / row.latencySamples as real else 0.0,
      cost,
      CacheEfficiencyOf(row.input, row.cacheReadObserved, row.cacheRead, row.savings, row.eligible, row.ineligible,
                        cost.status.Available?))
  }

  lemma SameRecord(model: string, names: set<string>, a: AggregateRow, b: AggregateRow)
    requires Same(a, b)
    ensures MapModel(model, names, a) == MapModel(model, names, b)
  {
  }

  /** The first twenty models of the listing, with their provider label. */
  ghost predicate ListedAs(rows: map<string, AggregateRow>, pairs: set<ModelProvider>, names: seq<string>,
                           breakdown: seq<ModelRecord>) {
    && Listing(RanksOf(rows), names, rows.Keys)
    && |breakdown| == |Cut(names)| <= 20
    && forall i :: 0 <= i < |breakdown| ==>
       names[i] in rows && breakdown[i] == MapModel(names[i], Named(pairs, names[i]), rows[names[i]])
  }

  ghost predicate IsBreakdown(rows: map<string, AggregateRow>, pairs: set<ModelProvider>, breakdown: seq<ModelRecord>) {
    exists names :: ListedAs(rows, pairs, names, breakdown)
  }

  /** The breakdown a plan or a scan reports, given its grouping expressions. */
  ghost predicate PlanBreakdown(s: Store, p: Plan, w: Where, d: Dimension<string>, dp: Dimension<ModelProvider>,
                                prices: Prices, breakdown: seq<ModelRecord>) {
    IsBreakdown(PlanGroups(s, p, w, d, prices), PlanGroups(s, p, w, dp, prices).Keys, breakdown)
  }

  ghost predicate RawBreakdown(s: Store, f: Filter, w: Where, d: Dimension<string>, dp: Dimension<ModelProvider>,
                               prices: Prices, breakdown: seq<ModelRecord>) {
    IsBreakdown(RawGroups(s.events, f, w, d, prices), RawGroups(s.events, f, w, dp, prices).Keys, breakdown)
  }

  // Order and cut

  /** No model may be listed after a cheaper one, of equal cost after one with fewer tokens, of equal tokens after a
      later name. */
  ghost predicate MayPrecede(aCost: real, aTokens: int, aName: string, bCost: real, bTokens: int, bName: string) {
    && aCost >= bCost
    && (aCost == bCost ==> aTokens >= bTokens)
    && (aCost == bCost && aTokens == bTokens ==> Precedes(aName, bName))
  }

  lemma AboveMayPrecede(ranks: Ranks, a: string, b: string)
    requires a in ranks && b in ranks && Above(ranks, a, b)
    ensures MayPrecede(ranks[a].cost, ranks[a].tokens, a, ranks[b].cost, ranks[b].tokens, b)
  {
    BeforeIsPrecedes(a, b);
  }

  ghost predicate InOrder(breakdown: seq<ModelRecord>) {
    forall i, j :: 0 <= i < j < |breakdown| ==>
      MayPrecede(breakdown[i].totals.cost, breakdown[i].totals.total, breakdown[i].model,
                 breakdown[j].totals.cost, breakdown[j].totals.total, breakdown[j].model)
  }

  ghost predicate IsReported(breakdown: seq<ModelRecord>, model: string) {
    exists i :: 0 <= i < |breakdown| && breakdown[i].model == model
  }

  /** A model may be left out only when twenty others are reported, all of which may precede it. */
  ghost predicate RightlyLeftOut(breakdown: seq<ModelRecord>, model: string, cost: real, tokens: int) {
    |breakdown| == 20 && forall i :: 0 <= i < |breakdown| ==>
      MayPrecede(breakdown[i].totals.cost, breakdown[i].totals.total, breakdown[i].model, cost, tokens, model)
  }

  lemma BreakdownInOrder(rows: map<string, AggregateRow>, pairs: set<ModelProvider>, breakdown: seq<ModelRecord>)
    requires IsBreakdown(rows, pairs, breakdown)
    ensures InOrder(breakdown)
  {
    var names :| ListedAs(rows, pairs, names, breakdown);
    forall i, j | 0 <= i < j < |breakdown|
      ensures MayPrecede(breakdown[i].totals.cost, breakdown[i].totals.total, breakdown[i].model,
                         breakdown[j].totals.cost, breakdown[j].totals.total, breakdown[j].model)
    {
      AboveMayPrecede(RanksOf(rows), names[i], names[j]);
    }
  }

  lemma LeftOutIsBelow(rows: map<string, AggregateRow>, pairs: set<ModelProvider>, breakdown: seq<ModelRecord>,
                       model: string)
    requires IsBreakdown(rows, pairs, breakdown) && model in rows && !IsReported(breakdown, model)
    ensures RightlyLeftOut(breakdown, model, rows[model].cost, rows[model].total)
  {
    var names :| ListedAs(rows, pairs, names, breakdown);
    var at :| 0 <= at < |names| && names[at] == model;
    assert |breakdown| <= at;
    forall i | 0 <= i < |breakdown|
      ensures MayPrecede(breakdown[i].totals.cost, breakdown[i].totals.total, breakdown[i].model, rows[model].cost,
                         rows[model].total, model)
    {
      AboveMayPrecede(RanksOf(rows), names[i], model);
    }
  }

  lemma RecordIsMapped(rows: map<string, AggregateRow>, pairs: set<ModelProvider>, breakdown: seq<ModelRecord>, i: nat)
    requires IsBreakdown(rows, pairs, breakdown) && i < |breakdown|
    ensures var model := breakdown[i].model;
      model in rows && breakdown[i] == MapModel(model, Named(pairs, model), rows[model])
  {
  }

  /** At most twenty different models are listed, in order; the others are rightly left out. */
  ghost predicate IsTop(rows: map<string, AggregateRow>, breakdown: seq<ModelRecord>) {
    && |breakdown| <= 20 && InOrder(breakdown)
    && (forall i :: 0 <= i < |breakdown| ==> breakdown[i].model in rows)
    && (forall i, j :: 0 <= i < j < |breakdown| ==> breakdown[i].model != breakdown[j].model)
    && forall model :: model in rows && !IsReported(breakdown, model) ==>
       RightlyLeftOut(breakdown, model, rows[model].cost, rows[model].total)
  }

  lemma BreakdownIsTheTop(rows: map<string, AggregateRow>, pairs: set<ModelProvider>, breakdown: seq<ModelRecord>)
    requires IsBreakdown(rows, pairs, breakdown)
    ensures IsTop(rows, breakdown)
  {
    BreakdownInOrder(rows, pairs, breakdown);
    forall i | 0 <= i < |breakdown| ensures breakdown[i].model in rows {
      RecordIsMapped(rows, pairs, breakdown, i);
    }
    forall model | model in rows && !IsReported(breakdown, model)
      ensures RightlyLeftOut(breakdown, model, rows[model].cost, rows[model].total)
    {
      LeftOutIsBelow(rows, pairs, breakdown, model);
    }
    forall i, j | 0 <= i < j < |breakdown| ensures breakdown[i].model != breakdown[j].model {
      var names :| ListedAs(rows, pairs, names, breakdown);
      AboveTotal(RanksOf(rows), names[i], names[j]);
    }
  }

  /** The records of the first `n` listed models. */
  ghost predicate MappedSoFar(combined: map<string, AggregateRow>, pairs: set<ModelProvider>, listed: seq<string>,
                              n: nat, breakdown: seq<ModelRecord>)
  {
    |breakdown| == n <= |listed| && forall k :: 0 <= k < n ==>
      listed[k] in combined && breakdown[k] == MapModel(listed[k], Named(pairs, listed[k]), combined[listed[k]])
  }

  lemma MapOneMore(combined: map<string, AggregateRow>, pairs: set<ModelProvider>, listed: seq<string>, n: nat,
                   breakdown: seq<ModelRecord>, record: ModelRecord)
    requires MappedSoFar(combined, pairs, listed, n, breakdown) && n < |listed| && listed[n] in combined
    requires record == MapModel(listed[n], Named(pairs, listed[n]), combined[listed[n]])
    ensures MappedSoFar(combined, pairs, listed, n + 1, breakdown + [record])
  {
  }

  /** Sorting, cutting and mapping the merged rows. */
  method RankModels(combined: map<string, AggregateRow>, sets: ProviderSets, ghost pairs: set<ModelProvider>)
    returns (breakdown: seq<ModelRecord>)
    requires SetsAre(sets, pairs)
    ensures IsBreakdown(combined, pairs, breakdown)
  {
    var listed := Sort(RanksOf(combined));
    breakdown := [];
    for i := 0 to |Cut(listed)|
      invariant MappedSoFar(combined, pairs, listed, i, breakdown)
    {
      var record := MapModel(listed[i], ProvidersOf(sets, listed[i]), combined[listed[i]]);
      MapOneMore(combined, pairs, listed, i, breakdown, record);
      breakdown := breakdown + [record];
    }
    assert ListedAs(combined, pairs, listed, breakdown);
  }

  /** `buildAnalyticsCoreModelBreakdown`. */
  method BuildModelBreakdown(s: Store, p: Plan, prices: Prices) returns (breakdown: seq<ModelRecord>)
    ensures PlanBreakdown(s, p, MODELED, BY_MODEL, BY_MODEL_PROVIDER, prices, breakdown)
    ensures IsTop(PlanGroups(s, p, MODELED, BY_MODEL, prices), breakdown)
  {
    var combined, sets := MergeSegments(s, p, prices);
    breakdown := RankModels(combined, sets, PlanGroups(s, p, MODELED, BY_MODEL_PROVIDER, prices).Keys);
    BreakdownIsTheTop(combined, PlanGroups(s, p, MODELED, BY_MODEL_PROVIDER, prices).Keys, breakdown);
  }

  // Against the raw scan

  lemma SameRanks(a: map<string, AggregateRow>, b: map<string, AggregateRow>)
    requires SameRows(a, b)
    ensures RanksOf(a) == RanksOf(b)
  {
  }

  /** Rows that agree are listed, cut and mapped alike. */
  lemma BreakdownUnique(a: map<string, AggregateRow>, b: map<string, AggregateRow>, pairs: set<ModelProvider>,
                        left: seq<ModelRecord>, right: seq<ModelRecord>)
    requires SameRows(a, b)
    requires IsBreakdown(a, pairs, left) && IsBreakdown(b, pairs, right)
    ensures left == right
  {
    var an :| ListedAs(a, pairs, an, left);
    var bn :| ListedAs(b, pairs, bn, right);
    SameRanks(a, b);
    ListingUnique(RanksOf(a), an, bn, a.Keys);
    forall i | 0 <= i < |left| ensures left[i] == right[i] {
      SameRecord(an[i], Named(pairs, an[i]), a[an[i]], b[an[i]]);
    }
  }

  lemma ModelsRender(g: Filter, es: seq<UsageEvent>)
    requires forall e :: e in es ==> Clean(e)
    ensures Renders(MODELED, g, es) && Stable(BY_MODEL, g, es) && Stable(BY_MODEL_PROVIDER, g, es)
  {
    forall e | e in es
      ensures SqlTrim(KeyOf(e).model) == SqlTrim(e.model) && SqlTrim(KeyOf(e).provider) == SqlTrim(e.provider) {
      TrimIdempotent(e.model);
      TrimIdempotent(e.provider);
    }
  }

  ghost predicate NothingMissed(s: Store, pending: set<UsageEvent>, f: Filter, w: Where) {
    var p := RollupWindowPlan(f);
    p.rollup.Some? ==> forall e :: e in pending ==> !InHours(p.rollup.value, w)(e)
  }

  ghost predicate ReadsAlike<B(!new)>(s: Store, w: Where, d: Dimension<B>) {
    forall g :: Renders(w, g, s.events) && Stable(d, g, s.events)
  }

  ghost predicate SameRows<B>(a: map<B, AggregateRow>, b: map<B, AggregateRow>) {
    a.Keys == b.Keys && forall k :: k in b ==> Same(a[k], b[k])
  }

  lemma GroupsMatchRaw<B(!new)>(s: Store, pending: set<UsageEvent>, f: Filter, w: Where, d: Dimension<B>,
                                prices: Prices)
    requires Consistent(s, pending) && NothingMissed(s, pending, f, w) && ReadsAlike(s, w, d)
    ensures SameRows(PlanGroups(s, RollupWindowPlan(f), w, d, prices), RawGroups(s.events, f, w, d, prices))
  {
    PlanGroupsMatchRaw(s, pending, f, w, d, prices);
  }

  lemma ModelsReadAlike(s: Store)
    requires forall e :: e in s.events ==> Clean(e)
    ensures ReadsAlike(s, MODELED, BY_MODEL) && ReadsAlike(s, MODELED, BY_MODEL_PROVIDER)
  {
    forall g
      ensures Renders(MODELED, g, s.events) && Stable(BY_MODEL, g, s.events) && Stable(BY_MODEL_PROVIDER, g, s.events) {
      ModelsRender(g, s.events);
    }
  }

  lemma BreakdownsAgree(s: Store, pending: set<UsageEvent>, f: Filter, w: Where, d: Dimension<string>,
                        dp: Dimension<ModelProvider>, prices: Prices,
                        merged: seq<ModelRecord>, raw: seq<ModelRecord>)
    requires Consistent(s, pending) && NothingMissed(s, pending, f, w) && ReadsAlike(s, w, d) && ReadsAlike(s, w, dp)
    requires PlanBreakdown(s, RollupWindowPlan(f), w, d, dp, prices, merged)
    requires RawBreakdown(s, f, w, d, dp, prices, raw)
    ensures merged == raw
  {
    GroupsMatchRaw(s, pending, f, w, d, prices);
    GroupsMatchRaw(s, pending, f, w, dp, prices);
    BreakdownUnique(PlanGroups(s, RollupWindowPlan(f), w, d, prices), RawGroups(s.events, f, w, d, prices),
                    RawGroups(s.events, f, w, dp, prices).Keys, merged, raw);
  }

  /** The breakdown read through the plan is the breakdown of the raw scan: the same twenty models in the
      same order, with the same provider label and the same values. */
  lemma BreakdownMatchesRaw(s: Store, pending: set<UsageEvent>, f: Filter, prices: Prices,
                            merged: seq<ModelRecord>, raw: seq<ModelRecord>)
    requires Consistent(s, pending) && NothingMissed(s, pending, f, MODELED)
    requires forall e :: e in s.events ==> Clean(e)
    requires PlanBreakdown(s, RollupWindowPlan(f), MODELED, BY_MODEL, BY_MODEL_PROVIDER, prices, merged)
    requires RawBreakdown(s, f, MODELED, BY_MODEL, BY_MODEL_PROVIDER, prices, raw)
    ensures merged == raw
  {
    ModelsReadAlike(s);
    BreakdownsAgree(s, pending, f, MODELED, BY_MODEL, BY_MODEL_PROVIDER, prices, merged, raw);
  }

  lemma ReachableBreakdownsAgree(t: Tracked, steps: seq<Step>, f: Filter, w: Where, d: Dimension<string>,
                                 dp: Dimension<ModelProvider>, prices: Prices, shown: seq<ModelRecord>,
                                 raw: seq<ModelRecord>)
    requires Initial(t) && forall step :: step in steps ==> Production(step)
    requires LegacyWithinTarget(t, Run(t, steps).store.backfill)
    requires ReadsAlike(Run(t, steps).store, w, d) && ReadsAlike(Run(t, steps).store, w, dp)
    requires var s := Run(t, steps).store;
      PlanBreakdown(s, ChosenPlan(s, f), w, d, dp, prices, shown) && RawBreakdown(s, f, w, d, dp, prices, raw)
    ensures shown == raw
  {
    var s := Run(t, steps).store;
    ReachableGroupsAreRaw(t, steps, f, w, d, prices);
    ReachableGroupsAreRaw(t, steps, f, w, dp, prices);
    BreakdownUnique(PlanGroups(s, ChosenPlan(s, f), w, d, prices), RawGroups(s.events, f, w, d, prices),
                    RawGroups(s.events, f, w, dp, prices).Keys, shown, raw);
  }

  /** In every reachable store with no legacy event past the target, the breakdown read through the chosen plan is
      that of the raw scan. */
  lemma ReachableBreakdownIsRaw(t: Tracked, steps: seq<Step>, f: Filter, prices: Prices, shown: seq<ModelRecord>,
                                raw: seq<ModelRecord>)
    requires Initial(t) && forall step :: step in steps ==> Production(step)
    requires AllClean(Run(t, steps).store) && LegacyWithinTarget(t, Run(t, steps).store.backfill)
    requires var s := Run(t, steps).store;
      && PlanBreakdown(s, ChosenPlan(s, f), MODELED, BY_MODEL, BY_MODEL_PROVIDER, prices, shown)
      && RawBreakdown(s, f, MODELED, BY_MODEL, BY_MODEL_PROVIDER, prices, raw)
    ensures shown == raw
  {
    ModelsReadAlike(Run(t, steps).store);
    ReachableBreakdownsAgree(t, steps, f, MODELED, BY_MODEL, BY_MODEL_PROVIDER, prices, shown, raw);
  }
}

/** What the per-model breakdown lists, told from the events: the costliest models first, each with the figures of its
    own attempts, and nothing left out that ranks above what is listed
    (internal/repository/analytics_rollup_provider_model.go, analytics_model.go). */
module BreakdownFigures {
  import opened AggregateRows
  import opened Aggregation
  import opened AnalyticsCore
  import opened AnalyticsPlan
  import opened BackfillRuns
  import opened EventFigures
  import opened GroupedReads
  import opened ModelBreakdown
  import opened ReachableReads
  import opened ReportedFigures
  import opened Trimming
  import opened UsageEvents
  import opened WindowPlan

  // Each record

  /** The attempts asked for that name this model. */
  function OfModel(f: Filter, model: string): UsageEvent -> bool {
    (e: UsageEvent) => InScope(f, e) && SqlTrim(e.model) == model
  }

  predicate NamesProvider(e: UsageEvent) { SqlTrim(e.provider) != "" }

  /** The provider when all that is named is one, a fixed text when different ones are, blank when none is. */
  predicate LabelTells(shown: string, es: seq<UsageEvent>) {
    && ((forall e :: e in es ==> !NamesProvider(e)) ==> shown == "")
    && (forall e :: e in es && NamesProvider(e) && AllNameIt(es, SqlTrim(e.provider)) ==> shown == SqlTrim(e.provider))
    && (forall e :: e in es && NamesProvider(e) && !AllNameIt(es, SqlTrim(e.provider)) ==>
       shown == "Multiple providers")
  }

  predicate AllNameIt(es: seq<UsageEvent>, provider: string) {
    forall e :: e in es && NamesProvider(e) ==> SqlTrim(e.provider) == provider
  }

  /** Percentage of succeeded attempts, and the mean of the positive latencies. */
  predicate AveragesTell(successRate: real, averageLatency: real, es: seq<UsageEvent>) {
    && (es != [] ==> successRate * |es| as real == 100.0 * CountBy(es, (e: UsageEvent) => !e.failed) as real)
    && var samples := CountBy(es, (e: UsageEvent) => 0 < e.latencyMs);
       if samples == 0 then averageLatency == 0.0
       else averageLatency * samples as real
            == SumBy(es, (e: UsageEvent) => if 0 < e.latencyMs then e.latencyMs as int else 0) as real
  }

  predicate RecordTells(r: ModelRecord, es: seq<UsageEvent>, prices: Prices) {
    && TellsOutcomes(r.totals, es) && TellsLatency(r.totals, es) && TellsTokens(r.totals, es)
    && TellsMoney(r.totals, es, prices) && r.totals.valid == CountBy(es, (e: UsageEvent) => e.state.Valid?)
    && AveragesTell(r.successRate, r.averageLatency, es)
    && CostTells(r.cost, es, prices) && CacheTells(r.cache, r.cost, es, prices)
  }

  lemma ReportedTells(row: AggregateRow, totals: AggregateRow, es: seq<UsageEvent>, prices: Prices)
    requires Tells(row, es, prices) && totals == Reported(row)
    ensures TellsOutcomes(totals, es) && TellsLatency(totals, es) && TellsTokens(totals, es)
    ensures TellsMoney(totals, es, prices) && totals.valid == CountBy(es, (e: UsageEvent) => e.state.Valid?)
  {
  }

  lemma MeanOf(total: int, samples: int)
    requires samples != 0
    ensures total as real / samples as real * samples as real == total as real
  {
    var mean := total as real / samples as real;
    assert mean * samples as real == total as real;
  }

  lemma AveragesOf(model: string, names: set<string>, row: AggregateRow, es: seq<UsageEvent>)
    requires TellsOutcomes(row, es) && TellsLatency(row, es)
    ensures var r := MapModel(model, names, row); AveragesTell(r.successRate, r.averageLatency, es)
  {
    if 0 < row.requests {
      PercentOf(row.successes, row.requests);
    }
    if 0 < row.latencySamples {
      MeanOf(row.latencyTotal, row.latencySamples);
    }
  }

  lemma MapModelTells(model: string, names: set<string>, row: AggregateRow, es: seq<UsageEvent>, prices: Prices)
    requires Tells(row, es, prices) && es != [] && forall e :: e in es ==> Admitted(e)
    ensures RecordTells(MapModel(model, names, row), es, prices)
  {
    var r := MapModel(model, names, row);
    ReportedTells(row, r.totals, es, prices);
    AveragesOf(model, names, row, es);
    CostStatusTells(r.cost, row.missing, row.known, es, prices);
    InputIsNatural(es);
    CacheEfficiencyTells(row, r.cost, es, prices);
    assert r.cache == CacheOf(row, r.cost.status.Available?);
  }

  lemma LabelOf(names: set<string>, es: seq<UsageEvent>)
    requires forall p :: p in names <==> p != "" && exists e :: e in es && SqlTrim(e.provider) == p
    ensures LabelTells(Label(names), es)
  {
    forall e | e in es && NamesProvider(e) && AllNameIt(es, SqlTrim(e.provider))
      ensures Label(names) == SqlTrim(e.provider)
    {
      assert names == {SqlTrim(e.provider)};
    }
    forall e | e in es && NamesProvider(e) && !AllNameIt(es, SqlTrim(e.provider))
      ensures Label(names) == "Multiple providers"
    {
      var o :| o in es && NamesProvider(o) && SqlTrim(o.provider) != SqlTrim(e.provider);
      if |names| <= 1 {
        OneOrNone(names, SqlTrim(e.provider), SqlTrim(o.provider));
      }
    }
    if forall e :: e in es ==> !NamesProvider(e) {
      assert names == {};
    }
  }

  lemma OneOrNone(names: set<string>, a: string, b: string)
    requires |names| <= 1 && a in names && b in names
    ensures a == b
  {
    OnlyOne(names, a, b);
  }

  // The breakdown of a window

  lemma ModelSelected(es: seq<UsageEvent>, f: Filter, model: string, w: Where, d: Dimension<string>)
    requires w == MODELED && d == BY_MODEL && model != ""
    ensures Select(es, AskedFor(f, AtGroup(w, d, model))) == Select(es, OfModel(f, model))
  {
    forall e ensures AskedFor(f, AtGroup(w, d, model))(e) == OfModel(f, model)(e) {}
    SelectSame(es, AskedFor(f, AtGroup(w, d, model)), OfModel(f, model));
  }

  lemma ModelAsked(es: seq<UsageEvent>, f: Filter, model: string, w: Where, d: Dimension<string>)
    requires w == MODELED && d == BY_MODEL
    ensures (exists e :: e in es && Asked(f, w, e) && d.event(e) == model)
      <==> model != "" && Select(es, OfModel(f, model)) != []
  {
    if e :| e in es && Asked(f, w, e) && d.event(e) == model {
      SelectIn(es, OfModel(f, model), e);
    } else if model != "" {
      forall e | e in es ensures !OfModel(f, model)(e) {
        assert OfModel(f, model)(e) ==> Asked(f, w, e) && d.event(e) == model;
      }
      SelectNone(es, OfModel(f, model));
    }
  }

  lemma RawModelTells(es: seq<UsageEvent>, f: Filter, prices: Prices, model: string)
    requires forall e :: e in es ==> Admitted(e)
    ensures model in RawGroups(es, f, MODELED, BY_MODEL, prices)
      <==> model != "" && Select(es, OfModel(f, model)) != []
    ensures model in RawGroups(es, f, MODELED, BY_MODEL, prices) ==>
      Tells(RawGroups(es, f, MODELED, BY_MODEL, prices)[model], Select(es, OfModel(f, model)), prices)
  {
    RawGroupsTell(es, f, MODELED, BY_MODEL, prices, model);
    ModelAsked(es, f, model, MODELED, BY_MODEL);
    if model != "" {
      ModelSelected(es, f, model, MODELED, BY_MODEL);
    }
  }

  lemma NamedAreProviders(es: seq<UsageEvent>, f: Filter, prices: Prices, model: string, p: string)
    requires (forall e :: e in es ==> Admitted(e)) && model != ""
    ensures p in Named(RawGroups(es, f, MODELED, BY_MODEL_PROVIDER, prices).Keys, model)
      <==> p != "" && exists e :: e in Select(es, OfModel(f, model)) && SqlTrim(e.provider) == p
  {
    RawGroupsTell(es, f, MODELED, BY_MODEL_PROVIDER, prices, ModelProvider(model, p));
    forall e ensures e in Select(es, OfModel(f, model)) <==> e in es && InScope(f, e) && SqlTrim(e.model) == model
    {
      SelectIn(es, OfModel(f, model), e);
    }
  }

  lemma RawRecordTells(es: seq<UsageEvent>, f: Filter, prices: Prices, model: string, pairs: set<ModelProvider>)
    requires forall e :: e in es ==> Admitted(e)
    requires model in RawGroups(es, f, MODELED, BY_MODEL, prices)
    requires pairs == RawGroups(es, f, MODELED, BY_MODEL_PROVIDER, prices).Keys
    ensures var r := MapModel(model, Named(pairs, model), RawGroups(es, f, MODELED, BY_MODEL, prices)[model]);
      RecordTells(r, Select(es, OfModel(f, model)), prices) && LabelTells(r.provider, Select(es, OfModel(f, model)))
  {
    RawModelTells(es, f, prices, model);
    forall e | e in Select(es, OfModel(f, model)) ensures Admitted(e) {
      SelectIn(es, OfModel(f, model), e);
    }
    MapModelTells(model, Named(pairs, model), RawGroups(es, f, MODELED, BY_MODEL, prices)[model],
                  Select(es, OfModel(f, model)), prices);
    forall p ensures p in Named(pairs, model)
      <==> p != "" && exists e :: e in Select(es, OfModel(f, model)) && SqlTrim(e.provider) == p
    {
      NamedAreProviders(es, f, prices, model, p);
    }
    LabelOf(Named(pairs, model), Select(es, OfModel(f, model)));
  }

  /** What the breakdown says of the stored events. */
  ghost predicate BreakdownTells(breakdown: seq<ModelRecord>, es: seq<UsageEvent>, f: Filter, prices: Prices) {
    && |breakdown| <= 20 && InOrder(breakdown)
    && (forall i :: 0 <= i < |breakdown| ==> OneRecordTells(breakdown[i], es, f, prices))
    && (forall i, j :: 0 <= i < j < |breakdown| ==> breakdown[i].model != breakdown[j].model)
    && (forall model :: model != "" && Select(es, OfModel(f, model)) != [] && !IsReported(breakdown, model) ==>
       LeftOut(breakdown, model, Select(es, OfModel(f, model)), prices))
  }

  predicate OneRecordTells(r: ModelRecord, es: seq<UsageEvent>, f: Filter, prices: Prices) {
    var some := Select(es, OfModel(f, r.model));
    r.model != "" && some != [] && RecordTells(r, some, prices) && LabelTells(r.provider, some)
  }

  ghost predicate LeftOut(breakdown: seq<ModelRecord>, model: string, es: seq<UsageEvent>, prices: Prices) {
    RightlyLeftOut(breakdown, model, AmountBy(es, (e: UsageEvent) => PaidFor(prices, e)),
                   SumBy(es, (e: UsageEvent) => BucketOf(e, e.facts.total)))
  }

  lemma LikeRawBreakdown(rows: map<string, AggregateRow>, raw: map<string, AggregateRow>, pairs: set<ModelProvider>,
                         breakdown: seq<ModelRecord>)
    requires SameRows(rows, raw) && IsBreakdown(rows, pairs, breakdown)
    ensures IsBreakdown(raw, pairs, breakdown)
  {
    var names :| ListedAs(rows, pairs, names, breakdown);
    SameRanks(rows, raw);
    forall i | 0 <= i < |breakdown|
      ensures names[i] in raw && breakdown[i] == MapModel(names[i], Named(pairs, names[i]), raw[names[i]])
    {
      SameRecord(names[i], Named(pairs, names[i]), rows[names[i]], raw[names[i]]);
    }
    assert ListedAs(raw, pairs, names, breakdown);
  }

  lemma RawBreakdownTells(es: seq<UsageEvent>, f: Filter, prices: Prices, raw: map<string, AggregateRow>,
                          pairs: set<ModelProvider>, breakdown: seq<ModelRecord>)
    requires forall e :: e in es ==> Admitted(e)
    requires raw == RawGroups(es, f, MODELED, BY_MODEL, prices)
    requires pairs == RawGroups(es, f, MODELED, BY_MODEL_PROVIDER, prices).Keys
    requires IsBreakdown(raw, pairs, breakdown)
    ensures BreakdownTells(breakdown, es, f, prices)
  {
    BreakdownIsTheTop(raw, pairs, breakdown);
    forall i | 0 <= i < |breakdown| ensures OneRecordTells(breakdown[i], es, f, prices) {
      RecordIsMapped(raw, pairs, breakdown, i);
      RawModelTells(es, f, prices, breakdown[i].model);
      RawRecordTells(es, f, prices, breakdown[i].model, pairs);
    }
    forall model | model != "" && Select(es, OfModel(f, model)) != [] && !IsReported(breakdown, model)
      ensures LeftOut(breakdown, model, Select(es, OfModel(f, model)), prices)
    {
      RawModelTells(es, f, prices, model);
    }
  }

  /** In every reachable store with no legacy event past the target, the breakdown reported through the chosen plan
      lists
      the costliest models of the events asked for, each with the figures of its own events. */
  lemma ReachableBreakdownTells(t: Tracked, steps: seq<Step>, f: Filter, prices: Prices, shown: seq<ModelRecord>)
    requires Initial(t) && forall step :: step in steps ==> Production(step)
    requires AllClean(Run(t, steps).store) && LegacyWithinTarget(t, Run(t, steps).store.backfill)
    requires var s := Run(t, steps).store;
      PlanBreakdown(s, ChosenPlan(s, f), MODELED, BY_MODEL, BY_MODEL_PROVIDER, prices, shown)
    ensures BreakdownTells(shown, Run(t, steps).store.events, f, prices)
  {
    var s := Run(t, steps).store;
    RunKeepsInv(t, steps);
    ModelsReadAlike(s);
    ReachableGroupsAreRaw(t, steps, f, MODELED, BY_MODEL, prices);
    ReachableGroupsAreRaw(t, steps, f, MODELED, BY_MODEL_PROVIDER, prices);
    var raw, pairs := RawGroups(s.events, f, MODELED, BY_MODEL, prices),
                      RawGroups(s.events, f, MODELED, BY_MODEL_PROVIDER, prices).Keys;
    LikeRawBreakdown(PlanGroups(s, ChosenPlan(s, f), MODELED, BY_MODEL, prices), raw, pairs, shown);
    RawBreakdownTells(s.events, f, prices, raw, pairs, shown);
  }
}

/** The heatmap as a grouping: events and rollup rows are joined with the cells of local hours
    (internal/repository/analytics_heatmap.go). */
module HeatmapReads {
  import opened Accounting
  import opened AggregateRows
  import opened Aggregation
  import opened AnalyticsCore
  import opened AnalyticsPlan
  import opened BackfillRuns
  import opened GroupedReads
  import opened LocalHours
  import opened MixedReads
  import opened ReachableReads
  import opened ReportedFigures
  import opened TimeKeyedReads
  import opened UsageEvents
  import opened WindowPlan

  /** The instant lies in cell `j`, in whole seconds as the join compares them. */
  predicate InCellAt(c: Calendar, j: nat, t: int) { Second(Bound(c, j)) <= Second(t) < Second(Bound(c, j + 1)) }

  const NO_CELL := -1

  /** The cell of an instant among the first `cells` ones. */
  function CellAt(c: Calendar, cells: nat, t: int): int {
    if cells == 0 then NO_CELL else if InCellAt(c, cells - 1, t) then cells - 1 else CellAt(c, cells - 1, t)
  }

  lemma {:induction false} CellAtRange(c: Calendar, cells: nat, t: int)
    ensures NO_CELL <= CellAt(c, cells, t) < cells
    ensures CellAt(c, cells, t) != NO_CELL ==> InCellAt(c, CellAt(c, cells, t), t)
  {
    if cells != 0 {
      CellAtRange(c, cells - 1, t);
    }
  }

  lemma {:induction false} BoundsAscend(c: Calendar, i: nat, j: nat)
    requires i <= j && forall k :: i <= k < j ==> Tiles(c, k)
    ensures Second(Bound(c, i)) <= Second(Bound(c, j))
  {
    if i < j {
      BoundsAscend(c, i, j - 1);
      assert Tiles(c, j - 1);
      SecondsGrow(Bound(c, j - 1), Bound(c, j));
    }
  }

  /** Cells that tile: the join finds one cell for an instant at most, and it is this one. */
  lemma {:induction false} CellAtIs(c: Calendar, cells: nat, t: int, j: nat)
    requires j < cells && InCellAt(c, j, t) && forall k :: 0 <= k < cells ==> Tiles(c, k)
    ensures CellAt(c, cells, t) == j
  {
    if j < cells - 1 {
      BoundsAscend(c, j + 1, cells - 1);
      CellAtIs(c, cells - 1, t, j);
    }
  }

  /** Heatmap cells, as raw events and rollup rows are joined with them. */
  function Heatmap(c: Calendar, cells: nat): Dimension<int> {
    Dimension((e: UsageEvent) => CellAt(c, cells, e.timestamp), (k: RollupKey) => CellAt(c, cells, k.bucketStart))
  }

  /** The join drops what lies in no cell. */
  function InSomeCell(c: Calendar, cells: nat): Where {
    Where((e: UsageEvent) => CellAt(c, cells, e.timestamp) != NO_CELL,
          (k: RollupKey) => CellAt(c, cells, k.bucketStart) != NO_CELL)
  }

  /** Local hours begin on UTC hours. */
  ghost predicate HoursOnHours(c: Calendar, cells: nat) { forall j :: 0 <= j <= cells ==> Aligned(Bound(c, j)) }

  lemma SecondsOfAligned(t: int, boundary: int)
    requires Aligned(boundary)
    ensures Second(boundary) <= Second(t) <==> boundary <= HourOf(t)
    ensures Second(boundary) <= Second(HourOf(t)) <==> boundary <= HourOf(t)
  {
    var hours := boundary / HOUR;
    assert boundary == hours * HOUR && boundary % 1_000_000_000 == 0;
    WholeSecond(t, boundary);
    WholeSecond(HourOf(t), boundary);
    HourUnique(t, boundary);
  }

  /** An hour lies in one cell as a whole. */
  lemma {:induction false} HourCell(c: Calendar, cells: nat, t: int)
    requires HoursOnHours(c, cells)
    ensures CellAt(c, cells, HourOf(t)) == CellAt(c, cells, t)
  {
    if cells != 0 {
      HourCell(c, cells - 1, t);
      SecondsOfAligned(t, Bound(c, cells - 1));
      SecondsOfAligned(t, Bound(c, cells));
    }
  }

  lemma HeatmapIsStable(c: Calendar, cells: nat, g: Filter, es: seq<UsageEvent>)
    requires HoursOnHours(c, cells) && forall e :: e in es ==> Clean(e)
    ensures Stable(Heatmap(c, cells), g, es) && Renders(InSomeCell(c, cells), g, es)
  {
    forall e | e in es ensures CellAt(c, cells, KeyOf(e).bucketStart) == CellAt(c, cells, e.timestamp) {
      HourCell(c, cells, e.timestamp);
    }
  }

  /** Where local hours begin on UTC hours, the heatmap through the chosen plan is the heatmap of the raw
      events, in every reachable store. */
  lemma ReachableHeatmapIsRaw(t: Tracked, steps: seq<Step>, f: Filter, c: Calendar, cells: nat, prices: Prices)
    requires Initial(t) && forall step :: step in steps ==> Production(step)
    requires AllClean(Run(t, steps).store) && LegacyWithinTarget(t, Run(t, steps).store.backfill)
    requires HoursOnHours(c, cells)
    ensures var s := Run(t, steps).store;
      SameGroups(PlanGroups(s, ChosenPlan(s, f), InSomeCell(c, cells), Heatmap(c, cells), prices),
                 RawGroups(s.events, f, InSomeCell(c, cells), Heatmap(c, cells), prices))
  {
    if RollupWindowPlan(f).rollup.Some? {
      HeatmapIsStable(c, cells, RollupWindowPlan(f).rollup.value, Run(t, steps).store.events);
    }
    ReachableGroupsAreRaw(t, steps, f, InSomeCell(c, cells), Heatmap(c, cells), prices);
  }

  /** The attempts in scope from the start of a local hour to the next one. */
  function WithinCell(f: Filter, c: Calendar, j: nat): UsageEvent -> bool {
    (e: UsageEvent) => InScope(f, e) && Bound(c, j) <= e.timestamp < Bound(c, j + 1)
  }

  lemma CellOfInterval(c: Calendar, cells: nat, t: int, j: nat)
    requires j < cells && HoursOnHours(c, cells) && forall k :: 0 <= k < cells ==> Tiles(c, k)
    ensures CellAt(c, cells, t) == j <==> Bound(c, j) <= t < Bound(c, j + 1)
  {
    SecondsOfAligned(t, Bound(c, j));
    SecondsOfAligned(t, Bound(c, j + 1));
    HourUnique(t, Bound(c, j));
    HourUnique(t, Bound(c, j + 1));
    CellAtRange(c, cells, t);
    if InCellAt(c, j, t) {
      CellAtIs(c, cells, t, j);
    }
  }

  lemma WithinCellIsGroup(es: seq<UsageEvent>, f: Filter, c: Calendar, cells: nat, j: nat)
    requires j < cells && HoursOnHours(c, cells) && forall k :: 0 <= k < cells ==> Tiles(c, k)
    ensures Select(es, AskedFor(f, AtGroup(InSomeCell(c, cells), Heatmap(c, cells), j)))
      == Select(es, WithinCell(f, c, j))
    ensures (exists e :: e in es && Asked(f, InSomeCell(c, cells), e) && Heatmap(c, cells).event(e) == j)
        <==> Select(es, WithinCell(f, c, j)) != []
  {
    forall e: UsageEvent
      ensures CellAt(c, cells, e.timestamp) == j <==> Bound(c, j) <= e.timestamp < Bound(c, j + 1)
    {
      CellOfInterval(c, cells, e.timestamp, j);
    }
    SelectSame(es, AskedFor(f, AtGroup(InSomeCell(c, cells), Heatmap(c, cells), j)), WithinCell(f, c, j));
    if e :| e in es && Asked(f, InSomeCell(c, cells), e) && Heatmap(c, cells).event(e) == j {
      SelectIn(es, WithinCell(f, c, j), e);
    } else {
      SelectNone(es, WithinCell(f, c, j));
    }
  }

  /** Each cell of that heatmap has the figures of exactly the attempts of its local hour; a cell without any is
      absent. */
  lemma ReachableHeatmapTells(t: Tracked, steps: seq<Step>, f: Filter, c: Calendar, cells: nat, prices: Prices, j: nat)
    requires Initial(t) && forall step :: step in steps ==> Production(step)
    requires AllClean(Run(t, steps).store) && LegacyWithinTarget(t, Run(t, steps).store.backfill)
    requires j < cells && HoursOnHours(c, cells) && forall k :: 0 <= k < cells ==> Tiles(c, k)
    ensures var s := Run(t, steps).store;
      var heat := PlanGroups(s, ChosenPlan(s, f), InSomeCell(c, cells), Heatmap(c, cells), prices);
      var some := Select(s.events, WithinCell(f, c, j));
      (j in heat <==> some != []) && (j in heat ==> GroupTells(heat[j], some, prices))
  {
    if RollupWindowPlan(f).rollup.Some? {
      HeatmapIsStable(c, cells, RollupWindowPlan(f).rollup.value, Run(t, steps).store.events);
    }
    ReachableGroupsTell(t, steps, f, InSomeCell(c, cells), Heatmap(c, cells), prices, j);
    WithinCellIsGroup(Run(t, steps).store.events, f, c, cells, j);
  }

  function CellOfInstant(c: Calendar, cells: nat): int -> int { (t: int) => CellAt(c, cells, t) }

  lemma HeatmapIsTimeKeyed(c: Calendar, cells: nat)
    ensures TimeKeyed(InSomeCell(c, cells), Heatmap(c, cells), (j: int) => j != NO_CELL, CellOfInstant(c, cells))
  {
  }

  /** The exact condition: every readable store shows the raw heatmap if and only if every rollup hour lies in one
      cell, or outside all of them, as a whole. */
  lemma HeatmapIsRawIff(f: Filter, g: Filter, c: Calendar, cells: nat, prices: Prices)
    requires RollupWindowPlan(f).rollup == Some(g)
    ensures (forall t, steps :: Readable(t, steps) ==>
              ReportIsRaw(Run(t, steps).store, f, InSomeCell(c, cells), Heatmap(c, cells), prices))
      <==> WholeHours(g, CellOfInstant(c, cells))
  {
    HeatmapIsTimeKeyed(c, cells);
    ReportsAreRawIff(f, g, InSomeCell(c, cells), Heatmap(c, cells), (j: int) => j != NO_CELL, CellOfInstant(c, cells),
                     prices);
  }

  lemma HoursOnHoursAreWhole(c: Calendar, cells: nat, g: Filter)
    requires HoursOnHours(c, cells)
    ensures WholeHours(g, CellOfInstant(c, cells))
  {
    forall t ensures CellAt(c, cells, HourOf(t)) == CellAt(c, cells, t) {
      HourCell(c, cells, t);
    }
  }

  // One cell, also where the cells of a calendar leave gaps or overlap

  predicate Between(start: int, end: int, t: int) { Second(start) <= Second(t) < Second(end) }

  /** The join with cell `j` alone. */
  function InOneCell(start: int, end: int): Where {
    Where((e: UsageEvent) => Between(start, end, e.timestamp), (k: RollupKey) => Between(start, end, k.bucketStart))
  }

  lemma CellRenders(start: int, end: int, g: Filter, es: seq<UsageEvent>)
    requires Aligned(start) && Aligned(end) && forall e :: e in es ==> Clean(e)
    ensures Renders(InOneCell(start, end), g, es)
  {
    forall e | e in es ensures Between(start, end, e.timestamp) == Between(start, end, HourOf(e.timestamp)) {
      SecondsOfAligned(e.timestamp, start);
      SecondsOfAligned(e.timestamp, end);
    }
  }

  /** Every single cell between two UTC hours, of any calendar, shows what the raw events show. */
  lemma ReachableCellIsRaw(t: Tracked, steps: seq<Step>, f: Filter, c: Calendar, j: nat, prices: Prices)
    requires Initial(t) && forall step :: step in steps ==> Production(step)
    requires AllClean(Run(t, steps).store) && LegacyWithinTarget(t, Run(t, steps).store.backfill)
    requires Aligned(Boundary(c, j / 24, j % 24)) && Aligned(Boundary(c, j / 24, j % 24 + 1))
    ensures var s, w := Run(t, steps).store, InOneCell(Boundary(c, j / 24, j % 24), Boundary(c, j / 24, j % 24 + 1));
      Same(PlanTotal(s, ChosenPlan(s, f), w, prices), RawTotal(s.events, f, w, prices))
  {
    var w := InOneCell(Boundary(c, j / 24, j % 24), Boundary(c, j / 24, j % 24 + 1));
    if RollupWindowPlan(f).rollup.Some? {
      CellRenders(Boundary(c, j / 24, j % 24), Boundary(c, j / 24, j % 24 + 1), RollupWindowPlan(f).rollup.value,
                  Run(t, steps).store.events);
    }
    ReachableTotalIsRaw(t, steps, f, w, prices);
  }
}

/** Heatmap cells: the hours of local days, found by binary search over a clock whose offset may change
    (internal/repository/analytics_heatmap.go). */
module LocalHours {
  import opened Aggregation
  import opened UsageEvents

  datatype LocalHour = LocalHour(year: int, month: int, day: int, hour: int)

  /** `localDateTimeAtOrAfter`. */
  predicate AtOrAfter(v: LocalHour, target: LocalHour) {
    if v.year != target.year then v.year > target.year
    else if v.month != target.month then v.month > target.month
    else if v.day != target.day then v.day > target.day
    else v.hour >= target.hour
  }

  predicate IsDate(v: LocalHour) { 1 <= v.month <= 12 && 1 <= v.day <= 31 && 0 <= v.hour < 24 }

  /** Hours of an idealised calendar with 31 days in each month. */
  function Ordinal(v: LocalHour): int { ((v.year * 12 + v.month) * 31 + v.day) * 24 + v.hour }

  /** The comparison of fields is the order of time. */
  lemma AtOrAfterIsLater(v: LocalHour, target: LocalHour)
    requires IsDate(v) && IsDate(target)
    ensures AtOrAfter(v, target) <==> Ordinal(v) >= Ordinal(target)
  {
  }

  /** A local clock, and the consecutive local days of a heatmap with the instants `time.Date` gives for
      their midnights. */
  datatype Calendar = Calendar(clock: int -> LocalHour, dayStart: nat -> int, date: nat -> LocalHour)

  const SECOND := 1_000_000_000

  /** Date and hour never go back, days follow each other, and midnights are whole seconds that show their
      own date. */
  ghost predicate Regular(c: Calendar) {
    && (forall s: int, t: int :: s <= t ==> AtOrAfter(c.clock(t), c.clock(s)))
    && (forall d: nat :: c.dayStart(d) < c.dayStart(d + 1) && c.dayStart(d) % 1_000_000_000 == 0)
    && (forall d: nat :: c.date(d).hour == 0 && AtOrAfter(c.clock(c.dayStart(d)), c.date(d)))
  }

  lemma AtOrAfterTransitive(a: LocalHour, b: LocalHour, target: LocalHour)
    requires AtOrAfter(a, b) && AtOrAfter(b, target)
    ensures AtOrAfter(a, target)
  {
  }

  /** The hour a boundary looks for: past the last hour of a day, the first one of the next. */
  function Target(c: Calendar, day: nat, hour: nat): LocalHour {
    if 24 <= hour then c.date(day + 1).(hour := hour - 24) else c.date(day).(hour := hour)
  }

  /** Reference: the first instant of `low..high` whose local time has reached the target, `high` if none has. */
  function FirstInstant(c: Calendar, target: LocalHour, low: int, high: int): (t: int)
    requires low <= high
    ensures low <= t <= high
    decreases high - low
  {
    if low == high || AtOrAfter(c.clock(low), target) then low else FirstInstant(c, target, low + 1, high)
  }

  lemma {:induction false} FirstInstantIs(c: Calendar, target: LocalHour, low: int, high: int, t: int)
    requires low <= t <= high
    requires forall u :: low <= u < t ==> !AtOrAfter(c.clock(u), target)
    requires t == high || AtOrAfter(c.clock(t), target)
    ensures FirstInstant(c, target, low, high) == t
    decreases high - low
  {
    if low < t {
      FirstInstantIs(c, target, low + 1, high, t);
    }
  }

  lemma {:induction false} BeforeFirstInstant(c: Calendar, target: LocalHour, low: int, high: int)
    requires low <= high
    ensures var t := FirstInstant(c, target, low, high);
      (forall u :: low <= u < t ==> !AtOrAfter(c.clock(u), target)) && (t == high || AtOrAfter(c.clock(t), target))
    decreases high - low
  {
    if low < high && !AtOrAfter(c.clock(low), target) {
      BeforeFirstInstant(c, target, low + 1, high);
    }
  }

  /** The start of a local hour of a day. */
  function Boundary(c: Calendar, day: nat, hour: nat): int {
    if c.dayStart(day + 1) < c.dayStart(day) then c.dayStart(day)
    else FirstInstant(c, Target(c, day, hour), c.dayStart(day), c.dayStart(day + 1))
  }

  /** `localHourBoundary`: the search needs a clock that does not go back, and finds the first instant. */
  method LocalHourBoundary(c: Calendar, day: nat, hour: nat) returns (t: int)
    requires Regular(c)
    ensures t == Boundary(c, day, hour)
  {
    var target := Target(c, day, hour);
    var low, high := c.dayStart(day), c.dayStart(day + 1);
    ghost var first, last := low, high;
    while low < high
      invariant first <= low <= high <= last
      invariant forall u :: first <= u < low ==> !AtOrAfter(c.clock(u), target)
      invariant high == last || AtOrAfter(c.clock(high), target)
      decreases high - low
    {
      var mid := low + (high - low) / 2;
      if AtOrAfter(c.clock(mid), target) {
        high := mid;
      } else {
        forall u | first <= u <= mid ensures !AtOrAfter(c.clock(u), target) {
          if AtOrAfter(c.clock(u), target) {
            AtOrAfterTransitive(c.clock(mid), c.clock(u), target);
          }
        }
        low := mid + 1;
      }
    }
    FirstInstantIs(c, target, first, last, low);
    t := low;
  }

  // Tiling

  lemma BoundaryGrows(c: Calendar, day: nat, hour: nat)
    requires Regular(c) && hour < 24
    requires Dated(c)
    ensures Boundary(c, day, hour) <= Boundary(c, day, hour + 1)
  {
    var start, end := Boundary(c, day, hour), Boundary(c, day, hour + 1);
    BeforeFirstInstant(c, Target(c, day, hour), c.dayStart(day), c.dayStart(day + 1));
    BeforeFirstInstant(c, Target(c, day, hour + 1), c.dayStart(day), c.dayStart(day + 1));
    if end < start {
      NextTargetIsLater(c, day, hour);
      AtOrAfterTransitive(c.clock(end), Target(c, day, hour + 1), Target(c, day, hour));
    }
  }

  /** Dates follow each other. */
  ghost predicate Dated(c: Calendar) {
    forall d: nat :: AtOrAfter(c.date(d + 1), c.date(d).(hour := 23))
  }

  lemma NextTargetIsLater(c: Calendar, day: nat, hour: nat)
    requires Dated(c) && Regular(c) && hour < 24
    ensures AtOrAfter(Target(c, day, hour + 1), Target(c, day, hour))
  {
    if hour == 23 {
      assert AtOrAfter(c.date(day + 1), c.date(day).(hour := 23));
    }
  }

  lemma DayOpens(c: Calendar, day: nat)
    requires Regular(c)
    ensures Boundary(c, day, 0) == c.dayStart(day)
  {
    assert c.date(day).(hour := 0) == c.date(day);
    FirstInstantIs(c, Target(c, day, 0), c.dayStart(day), c.dayStart(day + 1), c.dayStart(day));
  }

  /** The midnight of the next day is the first instant of its date. */
  ghost predicate MidnightIsFirst(c: Calendar, day: nat) {
    !AtOrAfter(c.clock(c.dayStart(day + 1) - 1), c.date(day + 1))
  }

  /** The last cell of a day meets the first one of the next day if and only if the next midnight is the
      first instant of its date: otherwise the repeated time in between is in no cell. */
  lemma DaysMeetIff(c: Calendar, day: nat)
    requires Regular(c)
    ensures Boundary(c, day, 24) == Boundary(c, day + 1, 0) <==> MidnightIsFirst(c, day)
  {
    DayOpens(c, day + 1);
    var target, low, high := c.date(day + 1), c.dayStart(day), c.dayStart(day + 1);
    assert Target(c, day, 24) == target;
    BeforeFirstInstant(c, target, low, high);
    if MidnightIsFirst(c, day) {
      forall u | low <= u < high ensures !AtOrAfter(c.clock(u), target) {
        if AtOrAfter(c.clock(u), target) {
          AtOrAfterTransitive(c.clock(high - 1), c.clock(u), target);
        }
      }
      FirstInstantIs(c, target, low, high, high);
    }
  }

  // A repeated midnight

  const DAY := 24 * HOUR

  /** A clock without changes of its offset. */
  function Plain(t: int): LocalHour { LocalHour(0, 0, t / DAY, t % DAY / HOUR) }

  lemma PlainGrows(s: int, t: int)
    requires s <= t
    ensures AtOrAfter(Plain(t), Plain(s))
  {
    assert s / DAY <= t / DAY;
    if s / DAY == t / DAY {
      assert s % DAY <= t % DAY;
    }
  }

  /** Its first hour of day 1 is repeated, and the calendar takes the second of the two midnights. */
  const REPEATED_MIDNIGHT := Calendar(
    t => if t < DAY + HOUR then Plain(t) else Plain(t - HOUR),
    d => if d == 0 then 0 else d * DAY + HOUR,
    d => LocalHour(0, 0, d, 0))

  lemma PlainMidnight(d: nat)
    ensures Plain(d * DAY) == LocalHour(0, 0, d, 0)
  {
  }

  lemma FirstHourOfDayOne(t: int)
    requires DAY <= t < DAY + HOUR
    ensures Plain(t) == LocalHour(0, 0, 1, 0)
  {
  }

  lemma RepeatedMidnightGrows(s: int, t: int)
    requires s <= t
    ensures AtOrAfter(REPEATED_MIDNIGHT.clock(t), REPEATED_MIDNIGHT.clock(s))
  {
    var u, v := if s < DAY + HOUR then s else s - HOUR, if t < DAY + HOUR then t else t - HOUR;
    if u <= v {
      PlainGrows(u, v);
    } else {
      FirstHourOfDayOne(u);
      FirstHourOfDayOne(v);
    }
  }

  lemma RepeatedMidnightDates(d: nat)
    ensures var c := REPEATED_MIDNIGHT;
      && c.dayStart(d) < c.dayStart(d + 1) && c.dayStart(d) % 1_000_000_000 == 0
      && c.date(d).hour == 0 && c.clock(c.dayStart(d)) == c.date(d)
  {
    PlainMidnight(d);
    var seconds := if d == 0 then 0 else d * 86_400 + 3_600;
    assert REPEATED_MIDNIGHT.dayStart(d) == seconds * 1_000_000_000;
  }

  lemma RepeatedMidnightIsRegular()
    ensures Regular(REPEATED_MIDNIGHT)
  {
    var c := REPEATED_MIDNIGHT;
    forall s: int, t: int | s <= t ensures AtOrAfter(c.clock(t), c.clock(s)) {
      RepeatedMidnightGrows(s, t);
    }
    forall d: nat
      ensures c.dayStart(d) < c.dayStart(d + 1) && c.dayStart(d) % 1_000_000_000 == 0
      ensures c.date(d).hour == 0 && AtOrAfter(c.clock(c.dayStart(d)), c.date(d))
    {
      RepeatedMidnightDates(d);
    }
  }

  lemma SecondMidnightIsLate(c: Calendar)
    requires c == REPEATED_MIDNIGHT
    ensures !MidnightIsFirst(c, 0)
  {
    FirstHourOfDayOne(DAY + HOUR - 1);
    assert c.dayStart(1) == DAY + HOUR && c.date(1) == LocalHour(0, 0, 1, 0);
    assert c.clock(DAY + HOUR - 1) == Plain(DAY + HOUR - 1);
  }

  lemma LastBoundaryInDay(c: Calendar, day: nat)
    requires Regular(c)
    ensures Boundary(c, day, 24) <= c.dayStart(day + 1)
  {
  }

  /** There the days do not meet: the first of the two hours lies in no cell of either day. */
  lemma RepeatedMidnightLeavesGap()
    ensures Regular(REPEATED_MIDNIGHT) && !MidnightIsFirst(REPEATED_MIDNIGHT, 0)
    ensures Boundary(REPEATED_MIDNIGHT, 0, 24) < Boundary(REPEATED_MIDNIGHT, 1, 0)
  {
    var c := REPEATED_MIDNIGHT;
    RepeatedMidnightIsRegular();
    SecondMidnightIsLate(c);
    DaysMeetIff(c, 0);
    DayOpens(c, 1);
    LastBoundaryInDay(c, 0);
  }

  ghost predicate Contiguous(c: Calendar) {
    Regular(c) && Dated(c) && forall d: nat :: MidnightIsFirst(c, d)
  }

  /** The boundary in front of cell `j`, counting 24 cells a day. */
  function Bound(c: Calendar, j: nat): int { Boundary(c, j / 24, j % 24) }

  /** Cell `j` ends where the next one starts, and not before it starts. */
  ghost predicate Tiles(c: Calendar, j: nat) {
    Boundary(c, j / 24, j % 24 + 1) == Bound(c, j + 1) && Bound(c, j) <= Bound(c, j + 1)
  }

  /** Cells follow each other without gap or overlap, also when an hour is skipped (its cell is empty) or
      repeated (its cell is longer). */
  lemma CellsTile(c: Calendar, j: nat)
    requires Contiguous(c)
    ensures Tiles(c, j)
  {
    BoundaryGrows(c, j / 24, j % 24);
    if j % 24 == 23 {
      DaysMeetIff(c, j / 24);
      assert MidnightIsFirst(c, j / 24);
      assert (j + 1) / 24 == j / 24 + 1 && (j + 1) % 24 == 0;
    } else {
      assert (j + 1) / 24 == j / 24 && (j + 1) % 24 == j % 24 + 1;
    }
  }

  // Counting

  /** `unixepoch`: whole seconds. */
  function Second(t: int): int { t / SECOND }

  /** The events the join assigns to a cell. */
  function InCell(start: int, end: int): UsageEvent -> bool {
    (e: UsageEvent) => Second(start) <= Second(e.timestamp) < Second(end)
  }

  function CellCount(c: Calendar, es: seq<UsageEvent>, j: nat): nat {
    |Select(es, InCell(Boundary(c, j / 24, j % 24), Boundary(c, j / 24, j % 24 + 1)))|
  }

  function CellsTotal(c: Calendar, es: seq<UsageEvent>, cells: nat): nat {
    if cells == 0 then 0 else CellsTotal(c, es, cells - 1) + CellCount(c, es, cells - 1)
  }

  lemma {:induction false} CountSplits(es: seq<UsageEvent>, a: int, b: int, d: int)
    requires Second(a) <= Second(b) <= Second(d)
    ensures |Select(es, InCell(a, d))| == |Select(es, InCell(a, b))| + |Select(es, InCell(b, d))|
  {
    if es != [] {
      CountSplits(es[1..], a, b, d);
    }
  }

  lemma CountStep(es: seq<UsageEvent>, a: int, b: int, d: int)
    requires a <= b <= d
    ensures |Select(es, InCell(a, d))| == |Select(es, InCell(a, b))| + |Select(es, InCell(b, d))|
  {
    SecondsGrow(a, b);
    SecondsGrow(b, d);
    CountSplits(es, a, b, d);
  }

  lemma NoCells(es: seq<UsageEvent>, first: int)
    ensures |Select(es, InCell(first, first))| == 0
  {
    SelectNone(es, InCell(first, first));
  }

  lemma CellIsInterval(c: Calendar, es: seq<UsageEvent>, j: nat)
    requires Tiles(c, j)
    ensures CellCount(c, es, j) == |Select(es, InCell(Bound(c, j), Bound(c, j + 1)))|
    ensures Bound(c, j) <= Bound(c, j + 1)
  {
  }

  lemma {:induction false} CellsAddUp(c: Calendar, es: seq<UsageEvent>, cells: nat)
    requires forall j :: 0 <= j < cells ==> Tiles(c, j)
    ensures Bound(c, 0) <= Bound(c, cells)
    ensures CellsTotal(c, es, cells) == |Select(es, InCell(Bound(c, 0), Bound(c, cells)))|
  {
    if cells == 0 {
      NoCells(es, Bound(c, 0));
    } else {
      var n: nat := cells - 1;
      CellsAddUp(c, es, n);
      CellIsInterval(c, es, n);
      CountStep(es, Bound(c, 0), Bound(c, n), Bound(c, cells));
    }
  }

  lemma SecondsGrow(a: int, b: int)
    requires a <= b
    ensures Second(a) <= Second(b)
  {
  }

  lemma WholeSecond(t: int, boundary: int)
    requires boundary % 1_000_000_000 == 0
    ensures t < boundary <==> Second(t) < Second(boundary)
  {
  }

  /** Every event of a window that lies within the days is counted in exactly one cell. */
  lemma CellCountsSumToEvents(c: Calendar, es: seq<UsageEvent>, days: nat)
    requires Contiguous(c)
    requires forall e :: e in es ==> c.dayStart(0) <= e.timestamp < c.dayStart(days)
    ensures CellsTotal(c, es, 24 * days) == |es|
  {
    forall j: nat | j < 24 * days ensures Tiles(c, j) { CellsTile(c, j); }
    CellsAddUp(c, es, 24 * days);
    DayOpens(c, 0);
    DayOpens(c, days);
    assert (24 * days) / 24 == days && (24 * days) % 24 == 0;
    forall e | e in es ensures InCell(c.dayStart(0), c.dayStart(days))(e) {
      WholeSecond(e.timestamp, c.dayStart(days));
      SecondsGrow(c.dayStart(0), e.timestamp);
    }
    SelectAll(es, InCell(c.dayStart(0), c.dayStart(days)));
  }

  /** Where local hours begin on UTC hours, a rollup row lies in the cell of each of its events. */
  lemma RollupCellIsEventCell(c: Calendar, j: nat, t: int)
    requires Contiguous(c) && Aligned(Bound(c, j)) && Aligned(Bound(c, j + 1))
    ensures Bound(c, j) <= t < Bound(c, j + 1) <==> Bound(c, j) <= HourOf(t) < Bound(c, j + 1)
  {
    HourUnique(t, Bound(c, j));
    HourUnique(t, Bound(c, j + 1));
  }
}

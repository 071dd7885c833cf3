/** What the chart shows of the rows timed in its window. */
module TrendProofs {
  import opened Wrappers
  import opened Timestamps
  import opened Aggregation
  import opened AggregationProofs
  import opened Trend

  // ---- the window ----

  /** The row's timestamp is that of the instant `t`, printed as the importer prints it. */
  predicate At(r: Row, t: DateTime) { Valid(t) && r.ts == Some(Iso(t)) }

  /** Timed within the `hours` before `now`. */
  predicate InWindow(now: DateTime, hours: int, t: DateTime) {
    Instant(now) - Max(hours, 1) * 3600000000 <= Instant(t) <= Instant(now)
  }

  /** A row in the window is in one of the slots, or in the stretch just before the first. */
  lemma WindowReach(now: DateTime, hours: int, t: DateTime)
    requires Valid(now) && Valid(t) && InWindow(now, hours, t)
    ensures 0 <= Stretch(now, hours) - Stretch(t, hours) <= SlotCount(hours)
  {
    var h := Max(hours, 1);
    var (a, b) := ((now.mi * 60 + now.s) * 1000000 + now.us, (t.mi * 60 + t.s) * 1000000 + t.us);
    assert 0 <= a < 3600000000 && 0 <= b < 3600000000;
    assert Instant(now) == HourNumber(now) * 3600000000 + a && Instant(t) == HourNumber(t) * 3600000000 + b;
    assert 0 <= HourNumber(now) - HourNumber(t) <= h;
  }

  /** Rows of one name are rows of one stretch. */
  lemma NamesAreStretches(start: DateTime, hours: int, r: Row, t: DateTime)
    requires Valid(start) && At(r, t)
    ensures Prefix(hours)(r) == Name(start, hours) <==> Stretch(start, hours) == Stretch(t, hours)
  {
    PrefixesNameBuckets(start, t);
  }

  /** The row is timed in the window. */
  ghost predicate TimedIn(now: DateTime, hours: int, r: Row) { exists t :: At(r, t) && InWindow(now, hours, t) }

  ghost predicate Timed(now: DateTime, hours: int, rows: seq<Row>) { forall r :: r in rows ==> TimedIn(now, hours, r) }

  /** Whether a row is timed in the stretch `i` steps back. */
  ghost predicate TimedAt(now: DateTime, hours: int, r: Row, i: int) {
    exists t :: At(r, t) && Stretch(now, hours) - Stretch(t, hours) == i
  }

  /** The rows timed in the stretch `i` steps back. */
  ghost function RowsAt(now: DateTime, hours: int, rows: seq<Row>, i: int): seq<Row> {
    if rows == [] then []
    else RowsAt(now, hours, rows[..|rows| - 1], i) + (if TimedAt(now, hours, rows[|rows| - 1], i) then [rows[|rows| - 1]] else [])
  }

  /** The names tell the rows apart by the stretch they are timed in, and cover them all. */
  ghost predicate Sorts(ks: seq<string>, now: DateTime, hours: int, rows: seq<Row>) {
    && |ks| == SlotCount(hours) + 1 && Distinct(ks)
    && (forall r, i :: r in rows && 0 <= i < |ks| ==> (Prefix(hours)(r) == ks[i] <==> TimedAt(now, hours, r, i)))
    && (forall r :: r in rows ==> Prefix(hours)(r) in ks)
  }

  function Names(starts: seq<DateTime>, hours: int): (ks: seq<string>)
    requires forall i :: 0 <= i < |starts| ==> Valid(starts[i])
    ensures |ks| == |starts| && forall i :: 0 <= i < |ks| ==> ks[i] == Name(starts[i], hours)
  {
    seq(|starts|, i requires 0 <= i < |starts| => Name(starts[i], hours))
  }

  lemma NamesDiffer(starts: seq<DateTime>, now: DateTime, hours: int)
    requires IsPlan(starts, now, hours)
    ensures Distinct(Names(starts, hours))
  {
    var ks := Names(starts, hours);
    forall i, j | 0 <= i < j < |ks| ensures ks[i] != ks[j] {
      PrefixesNameBuckets(starts[i], starts[j]);
    }
  }

  lemma NamedIsTimed(start: Utc, now: DateTime, hours: int, r: Row, i: nat)
    ensures TimedIn(now, hours, r) && Stretch(start, hours) == Stretch(now, hours) - i && Prefix(hours)(r) == Name(start, hours) ==>
              TimedAt(now, hours, r, i)
  {
    if TimedIn(now, hours, r) && Stretch(start, hours) == Stretch(now, hours) - i && Prefix(hours)(r) == Name(start, hours) {
      var t :| At(r, t) && InWindow(now, hours, t);
      NamesAreStretches(start, hours, r, t);
    }
  }

  lemma TimedIsNamed(start: Utc, now: DateTime, hours: int, r: Row, i: nat)
    ensures TimedAt(now, hours, r, i) && Stretch(start, hours) == Stretch(now, hours) - i ==>
              Prefix(hours)(r) == Name(start, hours)
  {
    if TimedAt(now, hours, r, i) && Stretch(start, hours) == Stretch(now, hours) - i {
      var t :| At(r, t) && Stretch(now, hours) - Stretch(t, hours) == i;
      NamesAreStretches(start, hours, r, t);
    }
  }

  /** A row timed in the window has the name of a slot exactly when it is timed in it. */
  lemma NameTellsStretch(start: Utc, now: DateTime, hours: int, r: Row, i: nat)
    ensures TimedIn(now, hours, r) && Stretch(start, hours) == Stretch(now, hours) - i ==>
              (Prefix(hours)(r) == Name(start, hours) <==> TimedAt(now, hours, r, i))
  {
    NamedIsTimed(start, now, hours, r, i);
    TimedIsNamed(start, now, hours, r, i);
  }

  /** A row timed in the window has the name of one of the slots, or of the stretch before them. */
  lemma RowIsNamed(starts: seq<DateTime>, now: DateTime, hours: int, r: Row)
    ensures Valid(now) && IsPlan(starts, now, hours) && TimedIn(now, hours, r) ==>
              exists i :: 0 <= i < |starts| && Prefix(hours)(r) == Name(starts[i], hours)
  {
    if Valid(now) && IsPlan(starts, now, hours) && TimedIn(now, hours, r) {
      var t :| At(r, t) && InWindow(now, hours, t);
      WindowReach(now, hours, t);
      var i := Stretch(now, hours) - Stretch(t, hours);
      NamesAreStretches(starts[i], hours, r, t);
      assert Prefix(hours)(r) == Name(starts[i], hours);
    }
  }

  lemma NamesSort(starts: seq<DateTime>, now: DateTime, hours: int, rows: seq<Row>) returns (ks: seq<string>)
    requires Valid(now) && IsPlan(starts, now, hours) && Timed(now, hours, rows)
    ensures Sorts(ks, now, hours, rows) && |ks| == |starts|
    ensures forall i :: 0 <= i < |ks| ==> ks[i] == Name(starts[i], hours)
  {
    ks := Names(starts, hours);
    NamesDiffer(starts, now, hours);
    forall r, i | r in rows && 0 <= i < |ks| ensures Prefix(hours)(r) == ks[i] <==> TimedAt(now, hours, r, i) {
      NameTellsStretch(starts[i], now, hours, r, i);
    }
    forall r | r in rows ensures Prefix(hours)(r) in ks {
      RowIsNamed(starts, now, hours, r);
      var i :| 0 <= i < |starts| && Prefix(hours)(r) == Name(starts[i], hours);
      assert ks[i] == Prefix(hours)(r);
    }
  }

  lemma {:induction false} NamedAreTimed(now: DateTime, hours: int, rows: seq<Row>, k: string, i: int)
    requires forall r :: r in rows ==> (Prefix(hours)(r) == k <==> TimedAt(now, hours, r, i))
    ensures RowsOf(rows, Prefix(hours), k) == RowsAt(now, hours, rows, i)
  {
    if rows != [] {
      LastIn(rows);
      NamedAreTimed(now, hours, rows[..|rows| - 1], k, i);
    }
  }

  lemma {:induction false} AllHaveTs(rows: seq<Row>)
    requires forall r :: r in rows ==> HasTs(r)
    ensures WithTs(rows) == rows
  {
    if rows != [] {
      LastIn(rows);
      AllHaveTs(rows[..|rows| - 1]);
    }
  }

  lemma TimedHaveTs(now: DateTime, hours: int, rows: seq<Row>)
    requires Timed(now, hours, rows)
    ensures WithTs(rows) == rows
  {
    forall r | r in rows ensures HasTs(r) {
      var t :| At(r, t) && InWindow(now, hours, t);
    }
    AllHaveTs(rows);
  }

  // ---- columns ----

  /** A column of the chart, what a point shows of it, and what it is of a bucket. */
  datatype Column = CallsColumn | CostColumn | TokensColumn

  function Seen(p: Point, c: Column): int {
    match c
    case CallsColumn => p.calls
    case CostColumn => p.cost
    case TokensColumn => p.tokens
  }

  function Of(t: Totals, c: Column): int {
    match c
    case CallsColumn => Read(t, Calls)
    case CostColumn => Read(t, Cost)
    case TokensColumn => Read(t, Prompt) + Read(t, Cached) + Read(t, CacheWrite) + Read(t, Completion)
  }

  function SumPoints(out: seq<Point>, c: Column): int {
    if out == [] then 0 else SumPoints(out[1..], c) + Seen(out[0], c)
  }

  function SumNamed(rows: seq<Row>, key: Row -> string, ks: seq<string>, c: Column): int {
    if ks == [] then 0 else SumNamed(rows, key, ks[..|ks| - 1], c) + Of(Fold(RowsOf(rows, key, ks[|ks| - 1])), c)
  }

  /** Points that show, oldest first, the rows of the names. */
  ghost predicate Shows(out: seq<Point>, ks: seq<string>, rows: seq<Row>, key: Row -> string, c: Column) {
    && |out| == |ks|
    && forall i :: 0 <= i < |out| ==> Seen(out[i], c) == Of(Fold(RowsOf(rows, key, ks[|out| - 1 - i])), c)
  }

  lemma {:induction false} PointsAreNamed(out: seq<Point>, ks: seq<string>, rows: seq<Row>, key: Row -> string, c: Column)
    requires Shows(out, ks, rows, key, c)
    ensures SumPoints(out, c) == SumNamed(rows, key, ks, c)
    decreases |out|
  {
    if out != [] {
      PointsAreNamed(out[1..], ks[..|ks| - 1], rows, key, c);
    }
  }

  lemma {:induction false} SumKeysSnoc(rows: seq<Row>, key: Row -> string, ks: seq<string>, k: string, f: Field)
    ensures SumKeys(rows, key, ks + [k], f) == SumKeys(rows, key, ks, f) + Read(Fold(RowsOf(rows, key, k)), f)
  {
    if ks == [] {
      assert [] + [k] == [k] && [k][1..] == [];
    } else {
      assert (ks + [k])[1..] == ks[1..] + [k];
      SumKeysSnoc(rows, key, ks[1..], k, f);
    }
  }

  function ColumnOfKeys(rows: seq<Row>, key: Row -> string, ks: seq<string>, c: Column): int {
    match c
    case CallsColumn => SumKeys(rows, key, ks, Calls)
    case CostColumn => SumKeys(rows, key, ks, Cost)
    case TokensColumn =>
      SumKeys(rows, key, ks, Prompt) + SumKeys(rows, key, ks, Cached)
      + SumKeys(rows, key, ks, CacheWrite) + SumKeys(rows, key, ks, Completion)
  }

  lemma {:induction false} NamedAreKeys(rows: seq<Row>, key: Row -> string, ks: seq<string>, c: Column)
    ensures SumNamed(rows, key, ks, c) == ColumnOfKeys(rows, key, ks, c)
    decreases |ks|
  {
    if ks != [] {
      var (front, k) := (ks[..|ks| - 1], ks[|ks| - 1]);
      assert ks == front + [k];
      NamedAreKeys(rows, key, front, c);
      forall f: Field ensures SumKeys(rows, key, ks, f) == SumKeys(rows, key, front, f) + Read(Fold(RowsOf(rows, key, k)), f) {
        SumKeysSnoc(rows, key, front, k, f);
      }
    }
  }

  /** All names together show the totals. */
  lemma AllNamesShowTotals(rows: seq<Row>, key: Row -> string, ks: seq<string>, c: Column)
    requires Distinct(ks) && forall r :: r in rows ==> key(r) in ks
    ensures SumNamed(rows, key, ks, c) == Of(Fold(rows), c)
  {
    NamedAreKeys(rows, key, ks, c);
    AllListed(rows, key, ks);
    forall f: Field ensures SumKeys(rows, key, ks, f) == Read(Fold(rows), f) {
      KeysCover(rows, key, ks, f);
      FoldIsSum(rows, f);
    }
  }

  // ---- the chart ----

  /** A chart of rows timed in its window, as `cost_trend` gives it. */
  ghost predicate IsChart(out: seq<Point>, starts: seq<DateTime>, now: DateTime, hours: int, rows: seq<Row>) {
    && Valid(now) && IsPlan(starts, now, hours) && Timed(now, hours, rows) && |out| == SlotCount(hours)
    && forall i :: 0 <= i < |out| ==> out[i] == SlotPoint(SlotAt(starts[|out| - 1 - i], hours), hours, rows)
  }

  /** Each point is that of the rows timed in its own hour or day. */
  lemma PointsAreTheirRows(out: seq<Point>, starts: seq<DateTime>, now: DateTime, hours: int, rows: seq<Row>, i: nat)
    requires IsChart(out, starts, now, hours, rows) && i < |out|
    ensures out[|out| - 1 - i] == PointOf(Iso(starts[i]), Fold(RowsAt(now, hours, rows, i)))
  {
    TimedHaveTs(now, hours, rows);
    var slot := SlotAt(starts[i], hours);
    assert out[|out| - 1 - i] == SlotPoint(slot, hours, rows);
    forall r | r in rows ensures Prefix(hours)(r) == slot.name <==> TimedAt(now, hours, r, i) {
      NameTellsStretch(starts[i], now, hours, r, i);
    }
    NamedAreTimed(now, hours, rows, slot.name, i);
  }

  lemma SplitLast(all: seq<string>) returns (ks: seq<string>, last: string)
    requires all != []
    ensures all == ks + [last] && |ks| == |all| - 1 && forall i :: 0 <= i < |ks| ==> ks[i] == all[i]
  {
    ks, last := all[..|all| - 1], all[|all| - 1];
  }

  /** The names of a chart's slots, and that of the stretch before them. */
  lemma ChartNames(out: seq<Point>, starts: seq<DateTime>, now: DateTime, hours: int, rows: seq<Row>, c: Column)
    returns (ks: seq<string>, before: string)
    requires IsChart(out, starts, now, hours, rows)
    ensures Sorts(ks + [before], now, hours, rows) && |ks| == |out|
    ensures Shows(out, ks, rows, Prefix(hours), c)
  {
    var all := NamesSort(starts, now, hours, rows);
    ks, before := SplitLast(all);
    PointsShow(out, starts, now, hours, rows, c, ks);
  }

  lemma PointsShow(out: seq<Point>, starts: seq<DateTime>, now: DateTime, hours: int, rows: seq<Row>, c: Column, ks: seq<string>)
    requires IsChart(out, starts, now, hours, rows) && |ks| == |out|
    requires forall i :: 0 <= i < |ks| ==> ks[i] == Name(starts[i], hours)
    ensures Shows(out, ks, rows, Prefix(hours), c)
  {
    TimedHaveTs(now, hours, rows);
    forall i | 0 <= i < |out| ensures Seen(out[i], c) == Of(Fold(RowsOf(rows, Prefix(hours), ks[|out| - 1 - i])), c) {
      ChartPointSeen(out, starts, now, hours, rows, c, i);
    }
  }

  lemma ChartPointSeen(out: seq<Point>, starts: seq<DateTime>, now: DateTime, hours: int, rows: seq<Row>, c: Column, i: nat)
    requires IsChart(out, starts, now, hours, rows) && i < |out| && WithTs(rows) == rows
    ensures Seen(out[i], c) == Of(Fold(RowsOf(rows, Prefix(hours), Name(starts[|out| - 1 - i], hours))), c)
  {
    PointSeen(SlotAt(starts[|out| - 1 - i], hours), hours, rows, c);
  }

  lemma PointSeen(slot: Slot, hours: int, rows: seq<Row>, c: Column)
    requires WithTs(rows) == rows
    ensures Seen(SlotPoint(slot, hours, rows), c) == Of(Fold(RowsOf(rows, Prefix(hours), slot.name)), c)
  {
    var t := Fold(RowsOf(rows, Prefix(hours), slot.name));
    assert SlotPoint(slot, hours, rows) == PointOf(slot.start, t);
    PointShows(slot.start, t, c);
  }

  lemma PointShows(start: string, t: Totals, c: Column)
    ensures Seen(PointOf(start, t), c) == Of(t, c)
  {
  }

  /** Column by column, the chart's points and the rows timed just before the first slot add up to
      the window's totals. */
  lemma ChartPlusBeforeIsTotals(out: seq<Point>, starts: seq<DateTime>, now: DateTime, hours: int, rows: seq<Row>, c: Column)
    requires IsChart(out, starts, now, hours, rows)
    ensures SumPoints(out, c) + Of(Fold(RowsAt(now, hours, rows, SlotCount(hours))), c) == Of(Fold(rows), c)
  {
    var ks, before := ChartNames(out, starts, now, hours, rows, c);
    AddsUp(out, ks, before, now, hours, rows, c);
  }

  lemma AddsUp(out: seq<Point>, ks: seq<string>, before: string, now: DateTime, hours: int, rows: seq<Row>, c: Column)
    requires Sorts(ks + [before], now, hours, rows) && Shows(out, ks, rows, Prefix(hours), c)
    ensures SumPoints(out, c) + Of(Fold(RowsAt(now, hours, rows, SlotCount(hours))), c) == Of(Fold(rows), c)
  {
    PointsAreNamed(out, ks, rows, Prefix(hours), c);
    AllNamesShowTotals(rows, Prefix(hours), ks + [before], c);
    SumNamedSnoc(rows, Prefix(hours), ks, before, c);
    assert (ks + [before])[SlotCount(hours)] == before;
    NamedAreTimed(now, hours, rows, before, SlotCount(hours));
  }

  lemma SumNamedSnoc(rows: seq<Row>, key: Row -> string, ks: seq<string>, k: string, c: Column)
    ensures SumNamed(rows, key, ks + [k], c) == SumNamed(rows, key, ks, c) + Of(Fold(RowsOf(rows, key, k)), c)
  {
    assert (ks + [k])[..|ks|] == ks;
  }

  /** The chart's calls are the window's calls exactly when no row is timed in the stretch just
      before the first slot: such rows are cut off the chart though they count in the totals. */
  lemma ChartMissesExactly(out: seq<Point>, starts: seq<DateTime>, now: DateTime, hours: int, rows: seq<Row>)
    requires IsChart(out, starts, now, hours, rows)
    ensures SumPoints(out, CallsColumn) == Fold(rows).calls <==> RowsAt(now, hours, rows, SlotCount(hours)) == []
  {
    ChartPlusBeforeIsTotals(out, starts, now, hours, rows, CallsColumn);
    CallsSplit(RowsAt(now, hours, rows, SlotCount(hours)));
  }

  /** The slots of a chart: one an hour for up to two days, one a day for more, as many as cover the
      window, the last one holding the clock reading; each begins at a full hour or at midnight. */
  lemma SlotsAreSpaced(starts: seq<DateTime>, now: DateTime, hours: int)
    requires Valid(now) && IsPlan(starts, now, hours)
    ensures var step, n := if hours <= 48 then HOUR else 24 * HOUR, |starts| - 1;
            && (hours <= 48 ==> n == if hours >= 1 then hours else 1) && (hours > 48 ==> 24 * (n - 1) < hours <= 24 * n)
            && Instant(starts[0]) <= Instant(now) < Instant(starts[0]) + step
            && forall i :: 0 <= i <= n ==>
                 && Instant(starts[i]) == Instant(starts[0]) - i * step
                 && starts[i].mi == starts[i].s == starts[i].us == 0 && (hours > 48 ==> starts[i].h == 0)
  {
    forall i | 0 <= i < |starts|
      ensures Instant(starts[i]) == Stretch(starts[i], hours) * (if hours <= 48 then HOUR else 24 * HOUR)
    {
      FlooredInstant(starts[i], hours);
    }
    WithinItsStretch(now, hours);
  }

  lemma FlooredInstant(t: DateTime, hours: int)
    requires Valid(t) && t == Floor(t, hours)
    ensures Instant(t) == Stretch(t, hours) * (if hours <= 48 then HOUR else 24 * HOUR)
  {
  }

  lemma WithinItsStretch(t: DateTime, hours: int)
    requires Valid(t)
    ensures var step := if hours <= 48 then HOUR else 24 * HOUR;
            Stretch(t, hours) * step <= Instant(t) < Stretch(t, hours) * step + step
  {
    InstantOfDay(t);
    assert Instant(t) == HourNumber(t) * HOUR + ((t.mi * 60 + t.s) * 1000000 + t.us);
  }

  // ---- when anything can be cut ----

  /** Microseconds since midnight. */
  function TimeOfDay(t: DateTime): int { ((t.h * 60 + t.mi) * 60 + t.s) * 1000000 + t.us }

  const HOUR := 3600000000

  /** The clock and the window leave some instant of the window in the stretch before the slots:
      always in an hourly chart, and in a daily one when the day has not come as far as the hours
      by which the window exceeds the days before it. */
  predicate Cuts(now: DateTime, hours: int) {
    Hourly(hours) || TimeOfDay(now) < (hours - 24 * (SlotCount(hours) - 1)) * HOUR
  }

  /** An instant of the window in the cut stretch. */
  predicate IsCut(now: DateTime, hours: int, t: DateTime) {
    Valid(t) && InWindow(now, hours, t) && Stretch(now, hours) - Stretch(t, hours) == SlotCount(hours)
  }

  lemma InstantOfDay(t: DateTime)
    requires Valid(t)
    ensures Instant(t) == DayNumber(t) * 24 * HOUR + TimeOfDay(t) && 0 <= TimeOfDay(t) < 24 * HOUR
  {
  }

  /** An hour back is an hour earlier. */
  lemma {:induction false} HoursBack(t: DateTime, n: nat)
    requires Valid(t) && DayNumber(t) > 366 + n
    ensures Instant(Back(t, 1, n)) == Instant(t) - n * HOUR
    decreases n
  {
    if n > 0 {
      assert DaysBeforeYear(2) == 365;
      YearAtLeast(t, 2);
      PrevDayIsOneLess(t);
      PrevHourIsOneLess(t);
      HoursBack(PrevHour(t), n - 1);
    }
  }

  /** Some instant of the window is cut off the chart if and only if the clock and the window say
      so. */
  lemma WindowIsCutExactly(now: DateTime, hours: int)
    requires Reaches(now, hours)
    ensures (exists t :: IsCut(now, hours, t)) <==> Cuts(now, hours)
  {
    if t :| IsCut(now, hours, t) {
      InstantOfDay(now);
      InstantOfDay(t);
    }
    if Cuts(now, hours) {
      var t := Earliest(now, hours);
      assert IsCut(now, hours, t);
    }
  }

  /** The first instant of the window is the one. */
  lemma Earliest(now: DateTime, hours: int) returns (t: DateTime)
    requires Reaches(now, hours) && Cuts(now, hours)
    ensures IsCut(now, hours, t)
  {
    var h := Max(hours, 1);
    t := Back(now, 1, h);
    HoursBack(now, h);
    if !Hourly(hours) {
      InstantOfDay(now);
      InstantOfDay(t);
    }
  }

  /** A row is timed in one stretch only. */
  lemma OneStretch(now: DateTime, hours: int, r: Row, t: DateTime, i: int)
    requires At(r, t)
    ensures TimedAt(now, hours, r, i) <==> Stretch(now, hours) - Stretch(t, hours) == i
  {
    if u :| At(r, u) && Stretch(now, hours) - Stretch(u, hours) == i {
      PrefixesNameBuckets(t, u);
    }
  }

  lemma {:induction false} NothingCut(now: DateTime, hours: int, rows: seq<Row>)
    requires Reaches(now, hours) && !Cuts(now, hours) && Timed(now, hours, rows)
    ensures RowsAt(now, hours, rows, SlotCount(hours)) == []
  {
    if rows != [] {
      var (front, r) := (rows[..|rows| - 1], rows[|rows| - 1]);
      assert r in rows && forall x :: x in front ==> x in rows;
      NothingCut(now, hours, front);
      var t :| At(r, t) && InWindow(now, hours, t);
      OneStretch(now, hours, r, t, SlotCount(hours));
      WindowIsCutExactly(now, hours);
      assert !IsCut(now, hours, t);
    }
  }

  lemma SomePlan(now: DateTime, hours: int) returns (starts: seq<DateTime>)
    requires Reaches(now, hours)
    ensures IsPlan(starts, now, hours)
  {
    var start, n := Floor(now, hours), SlotCount(hours);
    assert Valid(start) && DayNumber(start) == DayNumber(now) && Stretch(start, hours) == Stretch(now, hours);
    starts := seq(n + 1, i requires 0 <= i < n + 1 => Back(start, hours, i));
    forall i | 0 <= i < n + 1
      ensures Valid(starts[i]) && starts[i] == Floor(starts[i], hours) && Stretch(starts[i], hours) == Stretch(now, hours) - i
    {
      assert starts[i] == Back(start, hours, i);
    }
  }

  /** The first `n` elements, last first, each through `f`. */
  function Backwards<T, U>(xs: seq<T>, n: nat, f: T -> U): (r: seq<U>)
    requires n <= |xs|
    ensures |r| == n && forall i :: 0 <= i < n ==> r[i] == f(xs[n - 1 - i])
  {
    seq(n, i requires 0 <= i < n => f(xs[n - 1 - i]))
  }

  /** The point of the slot that starts at a date. */
  function PointAt(hours: int, rows: seq<Row>): DateTime -> Point {
    (t: DateTime) => if Valid(t) then SlotPoint(SlotAt(t, hours), hours, rows) else PointOf("", BLANK)
  }

  /** A chart of some rows of the window. */
  lemma SomeChart(now: DateTime, hours: int, rows: seq<Row>) returns (out: seq<Point>, starts: seq<DateTime>)
    requires Reaches(now, hours) && Timed(now, hours, rows)
    ensures IsChart(out, starts, now, hours, rows)
  {
    starts := SomePlan(now, hours);
    out := ChartOf(starts, hours, rows, SlotCount(hours));
  }

  lemma ChartOf(starts: seq<DateTime>, hours: int, rows: seq<Row>, n: nat) returns (out: seq<Point>)
    requires n < |starts| && forall i :: 0 <= i < |starts| ==> Valid(starts[i])
    ensures |out| == n
    ensures forall i :: 0 <= i < n ==> out[i] == SlotPoint(SlotAt(starts[n - 1 - i], hours), hours, rows)
  {
    out := Backwards(starts, n, PointAt(hours, rows));
  }

  /** A row timed at the first instant of a window that is cut. */
  lemma CutRow(now: DateTime, hours: int) returns (r: Row)
    requires Reaches(now, hours) && Cuts(now, hours)
    ensures Timed(now, hours, [r]) && RowsAt(now, hours, [r], SlotCount(hours)) == [r]
  {
    var t := Earliest(now, hours);
    r := Row(None, Some(Iso(t)), None, None, None, None, None, None, None);
    OneStretch(now, hours, r, t, SlotCount(hours));
    assert At(r, t) && InWindow(now, hours, t);
    assert [r][..0] == [];
  }

  /** Some rows of the window are missing from their chart. */
  ghost predicate CanMiss(now: DateTime, hours: int) {
    exists out, starts, rows :: IsChart(out, starts, now, hours, rows) && SumPoints(out, CallsColumn) != Fold(rows).calls
  }

  /** Which calls a chart misses depends on its rows; whether it can miss any, on the clock and the
      window alone. */
  lemma ChartCanMissExactly(now: DateTime, hours: int)
    requires Reaches(now, hours)
    ensures CanMiss(now, hours) <==> Cuts(now, hours)
  {
    if Cuts(now, hours) {
      var r := CutRow(now, hours);
      var out, starts := SomeChart(now, hours, [r]);
      ChartMissesExactly(out, starts, now, hours, [r]);
    } else if out, starts, rows :| IsChart(out, starts, now, hours, rows) && SumPoints(out, CallsColumn) != Fold(rows).calls {
      NothingCut(now, hours, rows);
      ChartMissesExactly(out, starts, now, hours, rows);
    }
  }
}

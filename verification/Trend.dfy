/**
  The usage chart: rows bucketed by the prefix of their timestamp that names the UTC hour or day,
  and a zero-filled series of consecutive slots that ends at the current one.
 */
module Trend {
  import opened Timestamps
  import opened Aggregation

  const HOURLY_MAX_HOURS := 48
  const MAX_WINDOW_HOURS := 24 * 90

  /** `trend_bucket` */
  predicate Hourly(hours: int) { hours <= HOURLY_MAX_HOURS }

  function Max(a: int, b: int): int { if a >= b then a else b }

  /** The number of slots: the hours, or the days the hours fill, rounded up. */
  function SlotCount(hours: int): (n: nat)
    ensures 1 <= n <= Max(hours, 1)
    ensures Hourly(hours) ==> n == Max(hours, 1)
    ensures !Hourly(hours) ==> 24 * (n - 1) < hours <= 24 * n
  {
    if Hourly(hours) then Max(hours, 1) else (Max(hours, 1) + 23) / 24
  }

  /** The stretch of time an instant falls in, counted in hours or in days. */
  function Stretch(t: DateTime, hours: int): int { if Hourly(hours) then HourNumber(t) else DayNumber(t) }

  function Width(hours: int): nat { if Hourly(hours) then 13 else 10 }

  /** `now` cut to its hour or its day. */
  function Floor(now: DateTime, hours: int): DateTime {
    if Hourly(hours) then now.(mi := 0, s := 0, us := 0) else now.(h := 0, mi := 0, s := 0, us := 0)
  }

  lemma YearAtLeast(t: DateTime, y: int)
    requires Valid(t) && y >= 1 && DayNumber(t) > DaysBeforeYear(y)
    ensures t.y >= y
  {
    if t.y < y {
      MonthsGrow(t.y, t.mo, 13);
      YearLength(t.y);
      YearsGrow(t.y + 1, y);
    }
  }

  /** `now - step * i` */
  function Back(t: DateTime, hours: int, i: nat): (r: DateTime)
    requires Valid(t) && DayNumber(t) > 366 + i
    ensures Valid(r) && Stretch(r, hours) == Stretch(t, hours) - i
    ensures DayNumber(t) - i <= DayNumber(r) <= DayNumber(t)
    ensures t == Floor(t, hours) ==> r == Floor(r, hours)
    decreases i
  {
    if i == 0 then t
    else
      assert DaysBeforeYear(2) == 365;
      YearAtLeast(t, 2);
      PrevDayIsOneLess(t);
      PrevHourIsOneLess(t);
      Back(if Hourly(hours) then PrevHour(t) else PrevDay(t), hours, i - 1)
  }

  /** The clock reading leaves room for the window within the calendar. */
  predicate Reaches(now: DateTime, hours: int) { Valid(now) && hours <= MAX_WINDOW_HOURS && DayNumber(now) > 366 + 366 * 7 }

  /** The slots of the chart and the one before the first: slot `i` starts `i` steps before the
      current hour or day does. */
  predicate IsPlan(starts: seq<DateTime>, now: DateTime, hours: int) {
    && |starts| == SlotCount(hours) + 1
    && forall i :: 0 <= i < |starts| ==>
         Valid(starts[i]) && starts[i] == Floor(starts[i], hours) && Stretch(starts[i], hours) == Stretch(now, hours) - i
  }

  /** The starts found by subtracting steps from the clock reading. */
  method Plan(now: DateTime, hours: int) returns (starts: seq<DateTime>)
    requires Reaches(now, hours)
    ensures IsPlan(starts, now, hours)
  {
    var start := Floor(now, hours);
    assert Valid(start) && Stretch(start, hours) == Stretch(now, hours);
    starts := [];
    for i := 0 to SlotCount(hours) + 1
      invariant |starts| == i
      invariant forall j :: 0 <= j < i ==>
                  Valid(starts[j]) && starts[j] == Floor(starts[j], hours) && Stretch(starts[j], hours) == Stretch(now, hours) - j
    {
      starts := starts + [Back(start, hours, i)];
    }
  }

  predicate HasTs(r: Row) { r.ts.Some? }

  /** `ts[:width]` */
  function Prefix(hours: int): Row -> string {
    (r: Row) => if r.ts.Some? then (if |r.ts.value| <= Width(hours) then r.ts.value else r.ts.value[..Width(hours)]) else ""
  }

  function WithTs(rows: seq<Row>): seq<Row> {
    if rows == [] then []
    else WithTs(rows[..|rows| - 1]) + (if HasTs(rows[|rows| - 1]) then [rows[|rows| - 1]] else [])
  }

  datatype Point = Point(ts: string, tokens: int, calls: int, cost: int)

  function PointOf(ts: string, t: Totals): Point {
    Point(ts, t.prompt + t.cached + t.cacheWrite + t.completion, t.calls, t.cost)
  }

  /** The name under which the rows of the slot that starts at `t` are bucketed. */
  function Name(t: DateTime, hours: int): string
    requires Valid(t)
  {
    PrefixesNameBuckets(t, t);
    Iso(t)[..Width(hours)]
  }

  /** A slot of the chart: the name of its rows and the start its point shows. */
  datatype Slot = Slot(name: string, start: string)

  function SlotAt(t: DateTime, hours: int): Slot
    requires Valid(t)
  {
    Slot(Name(t, hours), Iso(t))
  }

  /** The point of a slot, given the buckets. */
  function Found(slot: Slot, m: map<string, Totals>): Point {
    PointOf(slot.start, if slot.name in m then m[slot.name] else BLANK)
  }

  /** What the chart should show for a slot: the fold of the rows named like it. */
  function SlotPoint(slot: Slot, hours: int, rows: seq<Row>): Point {
    PointOf(slot.start, Fold(RowsOf(WithTs(rows), Prefix(hours), slot.name)))
  }

  lemma SlotShowsItsRows(slot: Slot, hours: int, rows: seq<Row>)
    ensures Found(slot, Grouped(WithTs(rows), Prefix(hours))) == SlotPoint(slot, hours, rows)
  {
    GroupedIs(WithTs(rows), Prefix(hours), slot.name);
  }

  /** Rows without a timestamp are passed over. */
  method Dated(rows: seq<Row>) returns (dated: seq<Row>)
    ensures dated == WithTs(rows)
  {
    dated := [];
    for j := 0 to |rows|
      invariant dated == WithTs(rows[..j])
    {
      assert rows[..j + 1][..j] == rows[..j];
      if rows[j].ts.Some? { dated := dated + [rows[j]]; }
    }
    assert rows[..|rows|] == rows;
  }

  /** The zero-filled series, oldest slot first. */
  method Series(slots: seq<Slot>, byBucket: map<string, Bucket>, ghost m: map<string, Totals>) returns (out: seq<Point>)
    requires Holds(byBucket, m)
    ensures |out| == |slots|
    ensures forall i :: 0 <= i < |out| ==> out[i] == Found(slots[|out| - 1 - i], m)
  {
    out := [];
    var i := |slots|;
    while i > 0
      invariant 0 <= i <= |slots| && |out| == |slots| - i
      invariant forall j :: 0 <= j < |out| ==> out[j] == Found(slots[|slots| - 1 - j], m)
    {
      i := i - 1;
      var got := if slots[i].name in byBucket then byBucket[slots[i].name].t else BLANK;
      out := out + [PointOf(slots[i].start, got)];
    }
  }

  function Slots(starts: seq<DateTime>, hours: int): (slots: seq<Slot>)
    requires forall i :: 0 <= i < |starts| ==> Valid(starts[i])
    ensures |slots| == |starts| && forall i :: 0 <= i < |slots| ==> slots[i] == SlotAt(starts[i], hours)
  {
    seq(|starts|, i requires 0 <= i < |starts| => SlotAt(starts[i], hours))
  }

  /** `cost_trend` at the clock reading `now`: one point per slot, each the fold of its rows,
      oldest first. */
  method CostTrend(now: DateTime, hours: int, rows: seq<Row>) returns (out: seq<Point>, starts: seq<DateTime>)
    requires Reaches(now, hours)
    ensures IsPlan(starts, now, hours) && |out| == SlotCount(hours)
    ensures forall i :: 0 <= i < |out| ==> out[i] == SlotPoint(SlotAt(starts[|out| - 1 - i], hours), hours, rows)
  {
    var dated := Dated(rows);
    var byBucket := Buckets(dated, Prefix(hours));
    starts := Plan(now, hours);
    var slots := Slots(starts, hours);
    out := Series(slots[..SlotCount(hours)], byBucket, Grouped(dated, Prefix(hours)));
    forall i | 0 <= i < |out| ensures out[i] == SlotPoint(SlotAt(starts[|out| - 1 - i], hours), hours, rows) {
      SlotShowsItsRows(slots[|out| - 1 - i], hours, rows);
    }
  }
}

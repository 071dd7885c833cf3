/**
  Stored timestamps: UTC date-times printed in ISO 8601, compared as strings and cut to a
  prefix that names their hour or their day.
 */
module Timestamps {

  datatype DateTime = DateTime(y: int, mo: int, d: int, h: int, mi: int, s: int, us: int)

  predicate Leap(y: int) { y % 4 == 0 && (y % 100 != 0 || y % 400 == 0) }

  function MonthDays(y: int, mo: int): int {
    if mo == 2 then (if Leap(y) then 29 else 28)
    else if mo == 4 || mo == 6 || mo == 9 || mo == 11 then 30
    else 31
  }

  predicate Valid(t: DateTime) {
    && 1 <= t.y <= 9999 && 1 <= t.mo <= 12 && 1 <= t.d <= MonthDays(t.y, t.mo)
    && 0 <= t.h < 24 && 0 <= t.mi < 60 && 0 <= t.s < 60 && 0 <= t.us < 1000000
  }

  type Utc = t: DateTime | Valid(t) witness DateTime(1, 1, 1, 0, 0, 0, 0)

  // ---- the instant a date-time names ----

  function DaysBeforeYear(y: int): int {
    365 * (y - 1) + (y - 1) / 4 - (y - 1) / 100 + (y - 1) / 400
  }

  function DaysBeforeMonth(y: int, mo: int): int
    decreases mo
  {
    if mo <= 1 then 0 else DaysBeforeMonth(y, mo - 1) + MonthDays(y, mo - 1)
  }

  function DayNumber(t: DateTime): int { DaysBeforeYear(t.y) + DaysBeforeMonth(t.y, t.mo) + t.d }

  function HourNumber(t: DateTime): int { DayNumber(t) * 24 + t.h }

  /** Microseconds since the start of year 1, shifted by a day. */
  function Instant(t: DateTime): int { ((HourNumber(t) * 60 + t.mi) * 60 + t.s) * 1000000 + t.us }

  lemma QuarterStarts(y: int)
    ensures DaysBeforeMonth(y, 4) == 90 + if Leap(y) then 1 else 0
    ensures DaysBeforeMonth(y, 7) == DaysBeforeMonth(y, 4) + 91
    ensures DaysBeforeMonth(y, 10) == DaysBeforeMonth(y, 7) + 92
    ensures DaysBeforeMonth(y, 13) == DaysBeforeMonth(y, 10) + 92
  {
    assert DaysBeforeMonth(y, 2) == 31;
    assert DaysBeforeMonth(y, 3) == 31 + MonthDays(y, 2);
    assert DaysBeforeMonth(y, 5) == DaysBeforeMonth(y, 4) + 30;
    assert DaysBeforeMonth(y, 6) == DaysBeforeMonth(y, 5) + 31;
    assert DaysBeforeMonth(y, 8) == DaysBeforeMonth(y, 7) + 31;
    assert DaysBeforeMonth(y, 9) == DaysBeforeMonth(y, 8) + 31;
    assert DaysBeforeMonth(y, 11) == DaysBeforeMonth(y, 10) + 31;
    assert DaysBeforeMonth(y, 12) == DaysBeforeMonth(y, 11) + 30;
  }

  lemma YearLength(y: int)
    requires y >= 1
    ensures DaysBeforeYear(y + 1) == DaysBeforeYear(y) + DaysBeforeMonth(y, 13)
  {
    QuarterStarts(y);
    assert y / 4 - (y - 1) / 4 == if y % 4 == 0 then 1 else 0;
    assert y / 100 - (y - 1) / 100 == if y % 100 == 0 then 1 else 0;
    assert y / 400 - (y - 1) / 400 == if y % 400 == 0 then 1 else 0;
    assert y % 400 == 0 ==> y % 100 == 0;
    assert y % 100 == 0 ==> y % 4 == 0;
  }

  lemma {:induction false} YearsGrow(y: int, z: int)
    requires 1 <= y <= z
    ensures DaysBeforeYear(y) <= DaysBeforeYear(z)
    decreases z - y
  {
    if y < z {
      YearsGrow(y, z - 1);
      YearLength(z - 1);
      MonthsGrow(z - 1, 1, 13);
    }
  }

  lemma {:induction false} MonthsGrow(y: int, a: int, b: int)
    requires 1 <= a <= b <= 13
    ensures DaysBeforeMonth(y, a) <= DaysBeforeMonth(y, b)
    ensures a < b ==> DaysBeforeMonth(y, a) + MonthDays(y, a) <= DaysBeforeMonth(y, b)
    decreases b - a
  {
    if a < b {
      MonthsGrow(y, a, b - 1);
    }
  }

  ghost predicate DateBefore(a: DateTime, b: DateTime) {
    a.y < b.y || (a.y == b.y && (a.mo < b.mo || (a.mo == b.mo && a.d < b.d)))
  }

  lemma DateOrder(a: DateTime, b: DateTime)
    requires Valid(a) && Valid(b) && DateBefore(a, b)
    ensures DayNumber(a) < DayNumber(b)
  {
    if a.y < b.y {
      MonthsGrow(a.y, a.mo, 13);
      YearLength(a.y);
      YearsGrow(a.y + 1, b.y);
      MonthsGrow(b.y, 1, b.mo);
    } else if a.mo < b.mo {
      MonthsGrow(a.y, a.mo, b.mo);
    }
  }

  /** Dates are ordered as their day numbers, so equal numbers mean the same date. */
  lemma DaysFaithful(a: DateTime, b: DateTime)
    requires Valid(a) && Valid(b)
    ensures DateBefore(a, b) <==> DayNumber(a) < DayNumber(b)
    ensures DayNumber(a) == DayNumber(b) <==> a.y == b.y && a.mo == b.mo && a.d == b.d
  {
    if DateBefore(a, b) {
      DateOrder(a, b);
    } else if DateBefore(b, a) {
      DateOrder(b, a);
    }
  }

  // ---- printing ----

  function Digit(n: int): char
    requires 0 <= n < 10
  {
    "0123456789"[n]
  }

  function Dec2(n: int): string
    requires 0 <= n < 100
  {
    [Digit(n / 10), Digit(n % 10)]
  }

  function Dec4(n: int): string
    requires 0 <= n < 10000
  {
    Dec2(n / 100) + Dec2(n % 100)
  }

  function Dec6(n: int): string
    requires 0 <= n < 1000000
  {
    Dec2(n / 10000) + Dec4(n % 10000)
  }

  /** The fraction is printed only when it is not zero; the offset is always UTC's. */
  function Tail(us: int): string
    requires 0 <= us < 1000000
  {
    (if us == 0 then "" else "." + Dec6(us)) + "+00:00"
  }

  function DateText(t: DateTime): string
    requires Valid(t)
  {
    Dec4(t.y) + "-" + Dec2(t.mo) + "-" + Dec2(t.d)
  }

  /** `datetime.isoformat()` of an aware UTC date-time. */
  function Iso(t: DateTime): string
    requires Valid(t)
  {
    DateText(t) + ("T" + Dec2(t.h)) + (":" + Dec2(t.mi)) + (":" + Dec2(t.s)) + Tail(t.us)
  }

  // ---- string order ----

  /** Strings compare by their first difference; a proper prefix comes first. */
  predicate Less(a: string, b: string) {
    b != [] && (a == [] || a[0] < b[0] || (a[0] == b[0] && Less(a[1..], b[1..])))
  }

  lemma {:induction false} LessCat(p: string, q: string, x: string, y: string)
    requires |p| == |q|
    ensures Less(p + x, q + y) <==> Less(p, q) || (p == q && Less(x, y))
  {
    if p == [] {
      assert p + x == x && q + y == y;
    } else {
      assert (p + x)[1..] == p[1..] + x && (q + y)[1..] == q[1..] + y;
      LessCat(p[1..], q[1..], x, y);
    }
  }

  lemma DigitOrder(m: int, n: int)
    requires 0 <= m < 10 && 0 <= n < 10
    ensures Digit(m) < Digit(n) <==> m < n
    ensures Digit(m) == Digit(n) <==> m == n
  {
  }

  lemma Order2(m: int, n: int)
    requires 0 <= m < 100 && 0 <= n < 100
    ensures Less(Dec2(m), Dec2(n)) <==> m < n
    ensures Dec2(m) == Dec2(n) <==> m == n
  {
    DigitOrder(m / 10, n / 10);
    DigitOrder(m % 10, n % 10);
    var (a, b, c, d) := ([Digit(m / 10)], [Digit(n / 10)], [Digit(m % 10)], [Digit(n % 10)]);
    assert Dec2(m) == a + c && Dec2(n) == b + d;
    LessCat(a, b, c, d);
    CatEqual(a, b, c, d);
    assert a[0] == Digit(m / 10) && b[0] == Digit(n / 10) && c[0] == Digit(m % 10) && d[0] == Digit(n % 10);
  }

  lemma Order4(m: int, n: int)
    requires 0 <= m < 10000 && 0 <= n < 10000
    ensures Less(Dec4(m), Dec4(n)) <==> m < n
    ensures Dec4(m) == Dec4(n) <==> m == n
  {
    Order2(m / 100, n / 100);
    Order2(m % 100, n % 100);
    LessCat(Dec2(m / 100), Dec2(n / 100), Dec2(m % 100), Dec2(n % 100));
    CatEqual(Dec2(m / 100), Dec2(n / 100), Dec2(m % 100), Dec2(n % 100));
  }

  lemma Order6(m: int, n: int)
    requires 0 <= m < 1000000 && 0 <= n < 1000000
    ensures Less(Dec6(m), Dec6(n)) <==> m < n
  {
    Order2(m / 10000, n / 10000);
    Order4(m % 10000, n % 10000);
    LessCat(Dec2(m / 10000), Dec2(n / 10000), Dec4(m % 10000), Dec4(n % 10000));
  }

  lemma CatEqual(p: string, q: string, x: string, y: string)
    requires |p| == |q|
    ensures p + x == q + y <==> p == q && x == y
  {
    if p + x == q + y {
      assert p == (p + x)[..|p|] && q == (q + y)[..|p|];
      assert x == (p + x)[|p|..] && y == (q + y)[|p|..];
    }
  }

  lemma Irreflexive(a: string)
    ensures !Less(a, a)
  {
  }

  /** '+' sorts before '.', so no fraction sorts before any fraction. */
  lemma TailOrder(m: int, n: int)
    requires 0 <= m < 1000000 && 0 <= n < 1000000
    ensures Less(Tail(m), Tail(n)) <==> m < n
  {
    Irreflexive("+00:00");
    assert Tail(0) == "+00:00" && Tail(0)[0] == '+';
    if m == 0 {
      assert n != 0 ==> Tail(n)[0] == '.';
    } else if n == 0 {
      assert Tail(m)[0] == '.';
    } else {
      Order6(m, n);
      LessCat("." + Dec6(m), "." + Dec6(n), "+00:00", "+00:00");
      LessCat(".", ".", Dec6(m), Dec6(n));
      Irreflexive(".");
    }
  }

  /** A one-character separator changes nothing. */
  lemma FieldOrder(c: char, m: int, n: int)
    requires 0 <= m < 100 && 0 <= n < 100
    ensures Less([c] + Dec2(m), [c] + Dec2(n)) <==> m < n
    ensures [c] + Dec2(m) == [c] + Dec2(n) <==> m == n
  {
    Order2(m, n);
    Irreflexive([c]);
    LessCat([c], [c], Dec2(m), Dec2(n));
    CatEqual([c], [c], Dec2(m), Dec2(n));
  }

  lemma DateTextOrder(a: DateTime, b: DateTime)
    requires Valid(a) && Valid(b)
    ensures Less(DateText(a), DateText(b)) <==> DateBefore(a, b)
    ensures DateText(a) == DateText(b) <==> a.y == b.y && a.mo == b.mo && a.d == b.d
  {
    Order4(a.y, b.y);
    FieldOrder('-', a.mo, b.mo);
    FieldOrder('-', a.d, b.d);
    ThreeFields(Dec4(a.y), Dec4(b.y), "-" + Dec2(a.mo), "-" + Dec2(b.mo), "-" + Dec2(a.d), "-" + Dec2(b.d));
    assert DateText(a) == Dec4(a.y) + ("-" + Dec2(a.mo)) + ("-" + Dec2(a.d));
    assert DateText(b) == Dec4(b.y) + ("-" + Dec2(b.mo)) + ("-" + Dec2(b.d));
  }

  lemma ThreeFields(a1: string, b1: string, a2: string, b2: string, a3: string, b3: string)
    requires |a1| == |b1| && |a2| == |b2|
    ensures Less(a1 + a2 + a3, b1 + b2 + b3) <==> Less(a1, b1) || (a1 == b1 && (Less(a2, b2) || (a2 == b2 && Less(a3, b3))))
    ensures a1 + a2 + a3 == b1 + b2 + b3 <==> a1 == b1 && a2 == b2 && a3 == b3
  {
    LessCat(a1, b1, a2, b2);
    CatEqual(a1, b1, a2, b2);
    LessCat(a1 + a2, b1 + b2, a3, b3);
    CatEqual(a1 + a2, b1 + b2, a3, b3);
  }

  ghost predicate Before(a: DateTime, b: DateTime) {
    || DateBefore(a, b)
    || (!DateBefore(b, a) &&
        (a.h < b.h || (a.h == b.h && (a.mi < b.mi || (a.mi == b.mi && (a.s < b.s || (a.s == b.s && a.us < b.us)))))))
  }

  lemma TextOrder(a: DateTime, b: DateTime)
    requires Valid(a) && Valid(b)
    ensures Less(Iso(a), Iso(b)) <==> Before(a, b)
  {
    var (d, e) := (DateText(a), DateText(b));
    var (h, i) := ("T" + Dec2(a.h), "T" + Dec2(b.h));
    var (m, n) := (":" + Dec2(a.mi), ":" + Dec2(b.mi));
    var (s, t) := (":" + Dec2(a.s), ":" + Dec2(b.s));
    DateTextOrder(a, b);
    DaysFaithful(a, b);
    FieldOrder('T', a.h, b.h);
    FieldOrder(':', a.mi, b.mi);
    FieldOrder(':', a.s, b.s);
    TailOrder(a.us, b.us);
    LessCat(d, e, h, i);
    CatEqual(d, e, h, i);
    LessCat(d + h, e + i, m, n);
    CatEqual(d + h, e + i, m, n);
    LessCat(d + h + m, e + i + n, s, t);
    CatEqual(d + h + m, e + i + n, s, t);
    LessCat(d + h + m + s, e + i + n + t, Tail(a.us), Tail(b.us));
  }

  lemma BeforeIsEarlier(a: DateTime, b: DateTime)
    requires Valid(a) && Valid(b)
    ensures Before(a, b) <==> Instant(a) < Instant(b)
  {
    DaysFaithful(a, b);
    DaysFaithful(b, a);
    var (m, n) := (HourNumber(a) * 60 + a.mi, HourNumber(b) * 60 + b.mi);
    assert HourNumber(a) < HourNumber(b) <==> DateBefore(a, b) || (!DateBefore(b, a) && a.h < b.h);
    assert m < n <==> HourNumber(a) < HourNumber(b) || (HourNumber(a) == HourNumber(b) && a.mi < b.mi);
    assert m * 60 + a.s < n * 60 + b.s <==> m < n || (m == n && a.s < b.s);
    assert Instant(a) < Instant(b) <==>
           m * 60 + a.s < n * 60 + b.s || (m * 60 + a.s == n * 60 + b.s && a.us < b.us);
  }

  /** Comparing the stored strings compares the instants. */
  lemma StringOrderIsTimeOrder(a: DateTime, b: DateTime)
    requires Valid(a) && Valid(b)
    ensures Less(Iso(a), Iso(b)) <==> Instant(a) < Instant(b)
    ensures Iso(a) == Iso(b) <==> Instant(a) == Instant(b)
  {
    TextOrder(a, b);
    BeforeIsEarlier(a, b);
    BeforeIsEarlier(b, a);
    if Iso(a) == Iso(b) {
      Irreflexive(Iso(a));
      TextOrder(b, a);
    } else if Instant(a) == Instant(b) {
      SameInstant(a, b);
    }
  }

  lemma SameInstant(a: DateTime, b: DateTime)
    requires Valid(a) && Valid(b) && Instant(a) == Instant(b)
    ensures a == b
  {
    BeforeIsEarlier(a, b);
    BeforeIsEarlier(b, a);
  }

  /** The 13-character prefix names the UTC hour and the 10-character prefix the UTC day. */
  lemma PrefixesNameBuckets(a: DateTime, b: DateTime)
    requires Valid(a) && Valid(b)
    ensures |Iso(a)| >= 13 && |Iso(b)| >= 13
    ensures Iso(a)[..13] == Iso(b)[..13] <==> HourNumber(a) == HourNumber(b)
    ensures Iso(a)[..10] == Iso(b)[..10] <==> DayNumber(a) == DayNumber(b)
  {
    assert Iso(a)[..10] == DateText(a) && Iso(b)[..10] == DateText(b);
    assert Iso(a)[..13] == DateText(a) + ("T" + Dec2(a.h)) && Iso(b)[..13] == DateText(b) + ("T" + Dec2(b.h));
    DateTextOrder(a, b);
    DaysFaithful(a, b);
    FieldOrder('T', a.h, b.h);
    CatEqual(DateText(a), DateText(b), "T" + Dec2(a.h), "T" + Dec2(b.h));
  }

  // ---- stepping back ----

  function PrevDay(t: DateTime): DateTime
    requires Valid(t) && t.y >= 2
  {
    if t.d > 1 then t.(d := t.d - 1)
    else if t.mo > 1 then t.(mo := t.mo - 1, d := MonthDays(t.y, t.mo - 1))
    else t.(y := t.y - 1, mo := 12, d := 31)
  }

  function PrevHour(t: DateTime): DateTime
    requires Valid(t) && t.y >= 2
  {
    if t.h > 0 then t.(h := t.h - 1) else PrevDay(t).(h := 23)
  }

  lemma PrevDayIsOneLess(t: DateTime)
    requires Valid(t) && t.y >= 2
    ensures Valid(PrevDay(t)) && DayNumber(PrevDay(t)) == DayNumber(t) - 1
  {
    if t.d == 1 && t.mo == 1 {
      YearLength(t.y - 1);
    }
  }

  lemma PrevHourIsOneLess(t: DateTime)
    requires Valid(t) && t.y >= 2
    ensures Valid(PrevHour(t)) && HourNumber(PrevHour(t)) == HourNumber(t) - 1
  {
    PrevDayIsOneLess(t);
  }
}

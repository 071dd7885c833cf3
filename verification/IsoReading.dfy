/** What a printed timestamp says, read field by field. */
module IsoReading {
  import opened Decimal
  import opened Timestamps

  lemma ValueSnoc(s: string, c: char)
    ensures Value(s + [c]) == Value(s) * 10 + (c as int - '0' as int)
  {
    assert (s + [c])[..|s|] == s;
  }

  /** Two more digits, and four. */
  lemma TwoMore(a: string, b: string)
    requires |b| == 2
    ensures Value(a + b) == Value(a) * 100 + Value(b)
  {
    assert a + b == (a + [b[0]]) + [b[1]];
    assert b == ("" + [b[0]]) + [b[1]];
    ValueSnoc(a, b[0]);
    ValueSnoc(a + [b[0]], b[1]);
    ValueSnoc("", b[0]);
    ValueSnoc("" + [b[0]], b[1]);
  }

  lemma FourMore(a: string, b: string, c: string)
    requires |b| == |c| == 2
    ensures Value(a + (b + c)) == Value(a) * 10000 + Value(b + c)
  {
    assert a + (b + c) == (a + b) + c;
    TwoMore(a + b, c);
    TwoMore(a, b);
    TwoMore(b, c);
  }

  lemma DigitReads(n: int)
    requires 0 <= n < 10
    ensures Digit(n) as int - '0' as int == n
  {
  }

  lemma Read2(n: int)
    requires 0 <= n < 100
    ensures |Dec2(n)| == 2 && Value(Dec2(n)) == n
  {
    var x, y := Digit(n / 10), Digit(n % 10);
    DigitReads(n / 10);
    DigitReads(n % 10);
    ValueOfTwo(x, y);
  }

  lemma ValueOfTwo(x: char, y: char)
    ensures Value([x, y]) == 10 * (x as int - '0' as int) + (y as int - '0' as int)
  {
    assert [x, y] == ([] + [x]) + [y];
    ValueSnoc([], x);
    ValueSnoc([] + [x], y);
  }

  lemma Read4(n: int)
    requires 0 <= n < 10000
    ensures |Dec4(n)| == 4 && Value(Dec4(n)) == n
  {
    Read2(n / 100);
    Read2(n % 100);
    Both(Dec2(n / 100), Dec2(n % 100), n / 100, n % 100);
  }

  lemma Both(a: string, b: string, x: int, y: int)
    requires |b| == 2 && Value(a) == x && Value(b) == y
    ensures Value(a + b) == 100 * x + y
  {
    TwoMore(a, b);
  }

  lemma Read6(n: int)
    requires 0 <= n < 1000000
    ensures |Dec6(n)| == 6 && Value(Dec6(n)) == n
  {
    var (m, k) := (n / 10000, n % 10000);
    Read2(m);
    Read4(k);
    Three(Dec2(m), Dec2(k / 100), Dec2(k % 100), m, k);
  }

  lemma Three(a: string, b: string, c: string, x: int, y: int)
    requires |b| == |c| == 2 && Value(a) == x && Value(b + c) == y
    ensures Value(a + (b + c)) == 10000 * x + y
  {
    FourMore(a, b, c);
  }

  /** Two digits behind a separator, at a given place. */
  predicate FieldAt(text: string, i: nat, separator: char, n: int) {
    i + 3 <= |text| && text[i] == separator && Value(text[i + 1..i + 3]) == n
  }

  lemma FieldIsAt(front: string, separator: char, n: int, back: string)
    requires 0 <= n < 100
    ensures FieldAt(front + ([separator] + Dec2(n)) + back, |front|, separator, n)
  {
    Read2(n);
    var text := front + ([separator] + Dec2(n)) + back;
    assert text[|front| + 1..|front| + 3] == Dec2(n);
  }

  lemma DateReads(t: DateTime)
    requires Valid(t)
    ensures var d := DateText(t);
            |d| == 10 && Value(d[..4]) == t.y && FieldAt(d, 4, '-', t.mo) && FieldAt(d, 7, '-', t.d)
  {
    var d, y := DateText(t), Dec4(t.y);
    Read4(t.y);
    Read2(t.mo);
    Read2(t.d);
    assert d == y + (['-'] + Dec2(t.mo)) + ("-" + Dec2(t.d));
    FieldIsAt(y, '-', t.mo, "-" + Dec2(t.d));
    assert d == (y + "-" + Dec2(t.mo)) + (['-'] + Dec2(t.d)) + "";
    FieldIsAt(y + "-" + Dec2(t.mo), '-', t.d, "");
    assert d[..4] == y;
  }

  lemma TailReads(us: int)
    requires 0 <= us < 1000000
    ensures Tail(us) == if us == 0 then "+00:00" else "." + Dec6(us) + "+00:00"
  {
  }

  lemma FieldStays(front: string, back: string, i: nat, separator: char, n: int)
    requires FieldAt(front, i, separator, n)
    ensures FieldAt(front + back, i, separator, n)
  {
    assert (front + back)[i + 1..i + 3] == front[i + 1..i + 3];
  }

  lemma ClockReads(t: DateTime)
    requires Valid(t)
    ensures var c := ("T" + Dec2(t.h)) + (":" + Dec2(t.mi)) + (":" + Dec2(t.s));
            |c| == 9 && FieldAt(c, 0, 'T', t.h) && FieldAt(c, 3, ':', t.mi) && FieldAt(c, 6, ':', t.s)
  {
    var h, mi, s := "T" + Dec2(t.h), ":" + Dec2(t.mi), ":" + Dec2(t.s);
    var c := h + mi + s;
    Read2(t.h);
    Read2(t.mi);
    Read2(t.s);
    assert c == "" + (['T'] + Dec2(t.h)) + (mi + s);
    FieldIsAt("", 'T', t.h, mi + s);
    assert c == h + ([':'] + Dec2(t.mi)) + s;
    FieldIsAt(h, ':', t.mi, s);
    assert c == (h + mi) + ([':'] + Dec2(t.s)) + "";
    FieldIsAt(h + mi, ':', t.s, "");
  }

  lemma FieldMoves(front: string, back: string, i: nat, separator: char, n: int)
    requires FieldAt(back, i, separator, n)
    ensures FieldAt(front + back, |front| + i, separator, n)
  {
    var text := front + back;
    assert text[|front| + i + 1..|front| + i + 3] == back[i + 1..i + 3];
  }

  /** A printed timestamp says its date-time: year, month, day, hour, minute and second each in its
      place, a fraction of six digits when there is one, and the offset of UTC at the end. */
  lemma IsoReads(t: DateTime)
    requires Valid(t)
    ensures var text := Iso(t);
            && |text| == (if t.us == 0 then 25 else 32)
            && Value(text[..4]) == t.y && FieldAt(text, 4, '-', t.mo) && FieldAt(text, 7, '-', t.d)
            && FieldAt(text, 10, 'T', t.h) && FieldAt(text, 13, ':', t.mi) && FieldAt(text, 16, ':', t.s)
            && text[|text| - 6..] == "+00:00"
            && (t.us != 0 ==> text[19] == '.' && Value(text[20..26]) == t.us)
  {
    var d, c := DateText(t), ("T" + Dec2(t.h)) + (":" + Dec2(t.mi)) + (":" + Dec2(t.s));
    IsThree(t, d, c);
    DateReads(t);
    ClockReads(t);
    AllFields(d, c, Tail(t.us), t);
    EndReads(d + c, t.us);
  }

  lemma IsThree(t: DateTime, d: string, c: string)
    requires Valid(t) && d == DateText(t) && c == ("T" + Dec2(t.h)) + (":" + Dec2(t.mi)) + (":" + Dec2(t.s))
    ensures Iso(t) == d + c + Tail(t.us)
  {
    var h, mi, s, f := "T" + Dec2(t.h), ":" + Dec2(t.mi), ":" + Dec2(t.s), Tail(t.us);
    Regroup(d, h, mi, s, f);
  }

  lemma Regroup(d: string, h: string, mi: string, s: string, f: string)
    ensures d + h + mi + s + f == d + (h + mi + s) + f
  {
  }

  lemma AllFields(d: string, c: string, f: string, t: DateTime)
    requires |d| == 10 && Value(d[..4]) == t.y && FieldAt(d, 4, '-', t.mo) && FieldAt(d, 7, '-', t.d)
    requires FieldAt(c, 0, 'T', t.h) && FieldAt(c, 3, ':', t.mi) && FieldAt(c, 6, ':', t.s)
    ensures var text := d + c + f;
            && Value(text[..4]) == t.y && FieldAt(text, 4, '-', t.mo) && FieldAt(text, 7, '-', t.d)
            && FieldAt(text, 10, 'T', t.h) && FieldAt(text, 13, ':', t.mi) && FieldAt(text, 16, ':', t.s)
  {
    FieldStays(d, c, 4, '-', t.mo);
    FieldStays(d, c, 7, '-', t.d);
    FieldMoves(d, c, 0, 'T', t.h);
    FieldMoves(d, c, 3, ':', t.mi);
    FieldMoves(d, c, 6, ':', t.s);
    Kept(d + c, f, t);
    assert (d + c + f)[..4] == d[..4];
  }

  lemma EndReads(front: string, us: int)
    requires |front| == 19 && 0 <= us < 1000000
    ensures var text := front + Tail(us);
            && |text| == (if us == 0 then 25 else 32) && text[|text| - 6..] == "+00:00"
            && (us != 0 ==> text[19] == '.' && Value(text[20..26]) == us)
  {
    Read6(us);
    TailReads(us);
    var text := front + Tail(us);
    assert text[|text| - 6..] == "+00:00";
    if us != 0 {
      assert text[20..26] == Dec6(us);
    }
  }

  lemma Kept(front: string, back: string, t: DateTime)
    requires FieldAt(front, 4, '-', t.mo) && FieldAt(front, 7, '-', t.d)
    requires FieldAt(front, 10, 'T', t.h) && FieldAt(front, 13, ':', t.mi) && FieldAt(front, 16, ':', t.s)
    ensures var text := front + back;
            && FieldAt(text, 4, '-', t.mo) && FieldAt(text, 7, '-', t.d)
            && FieldAt(text, 10, 'T', t.h) && FieldAt(text, 13, ':', t.mi) && FieldAt(text, 16, ':', t.s)
  {
    FieldStays(front, back, 4, '-', t.mo);
    FieldStays(front, back, 7, '-', t.d);
    FieldStays(front, back, 10, 'T', t.h);
    FieldStays(front, back, 13, ':', t.mi);
    FieldStays(front, back, 16, ':', t.s);
  }
}

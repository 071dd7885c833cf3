/** The text of the map read back: a reader of JSON for it, and that it finds what was written. */
module KeyLimitsText {
  import opened Decimal
  import opened Wrappers
  import opened KeyLimits

  /** A value read off the head of a text, and the text after it. */
  datatype Got<T> = Got(value: T, rest: string)

  // ---- strings ----

  function Digit16(c: char): Option<nat> {
    if '0' <= c <= '9' then Some((c as int - '0' as int) as nat)
    else if 'a' <= c <= 'f' then Some((c as int - 'a' as int + 10) as nat)
    else None
  }

  /** Four hexadecimal digits. */
  function Four(s: string): Option<nat> {
    if |s| < 4 then None
    else match (Digit16(s[0]), Digit16(s[1]), Digit16(s[2]), Digit16(s[3]))
      case (Some(a), Some(b), Some(c), Some(d)) => Some(a * 4096 + b * 256 + c * 16 + d)
      case _ => None
  }

  /** The character behind a backslash, and how much of the text it takes. */
  function Escaped(s: string): Option<Got<char>> {
    if s == "" then None
    else match s[0]
      case '\"' => Some(Got('\"', s[1..]))
      case '\\' => Some(Got('\\', s[1..]))
      case 'n' => Some(Got('\n', s[1..]))
      case 'r' => Some(Got('\r', s[1..]))
      case 't' => Some(Got('\t', s[1..]))
      case 'f' => Some(Got('\U{0C}', s[1..]))
      case 'b' => Some(Got('\U{08}', s[1..]))
      case 'u' => FromCode(s[1..])
      case _ => None
  }

  /** A code unit of four digits, or two that make one character. */
  function FromCode(s: string): Option<Got<char>> {
    match Four(s)
    case None => None
    case Some(n) =>
      if n < 0xD800 || 0xE000 <= n < 0x10000 then Some(Got(n as char, s[4..]))
      else if n < 0xDC00 && |s| >= 10 && s[4] == '\\' && s[5] == 'u' then
        match Four(s[6..])
        case Some(k) =>
          if 0xDC00 <= k < 0xE000 then
            var code := 0x10000 + (n - 0xD800) * 0x400 + (k - 0xDC00);
            Some(Got(code as char, s[10..]))
          else None
        case None => None
      else None
  }

  lemma EscapedShortens(s: string)
    ensures Escaped(s).Some? ==> |Escaped(s).value.rest| < |s|
  {
  }

  /** The characters up to the closing quote. */
  function ReadChars(s: string): Option<Got<string>>
    decreases |s|
  {
    if s == "" then None
    else if s[0] == '\"' then Some(Got("", s[1..]))
    else
      EscapedShortens(s[1..]);
      var first := if s[0] == '\\' then Escaped(s[1..]) else Some(Got(s[0], s[1..]));
      match first
      case None => None
      case Some(c) =>
        match ReadChars(c.rest)
        case None => None
        case Some(more) => Some(Got([c.value] + more.value, more.rest))
  }

  function ReadString(s: string): Option<Got<string>> {
    if s != "" && s[0] == '\"' then ReadChars(s[1..]) else None
  }

  lemma HexReads(n: nat)
    requires n < 16
    ensures Digit16(Hex(n)) == Some(n)
  {
  }

  lemma FourOf(a: nat, b: nat, c: nat, d: nat, rest: string)
    requires a < 16 && b < 16 && c < 16 && d < 16
    ensures var code := [Hex(a), Hex(b), Hex(c), Hex(d)];
            Four(code + rest) == Some(a * 4096 + b * 256 + c * 16 + d) && (code + rest)[4..] == rest
  {
    HexReads(a);
    HexReads(b);
    HexReads(c);
    HexReads(d);
    var text := [Hex(a), Hex(b), Hex(c), Hex(d)] + rest;
    assert text[0] == Hex(a) && text[1] == Hex(b) && text[2] == Hex(c) && text[3] == Hex(d);
  }

  lemma HexDigits(n: nat)
    ensures n / 4096 * 4096 + n / 256 % 16 * 256 + n / 16 % 16 * 16 + n % 16 == n
  {
    assert n / 16 == n / 256 * 16 + n / 16 % 16;
    assert n / 256 == n / 4096 * 16 + n / 256 % 16;
  }

  /** The four digits of a code unit. */
  function Code(n: nat): (s: string)
    requires n < 0x10000
    ensures |s| == 4
  {
    [Hex(n / 4096), Hex(n / 256 % 16), Hex(n / 16 % 16), Hex(n % 16)]
  }

  lemma FourReads(n: nat, rest: string)
    requires n < 0x10000
    ensures Unicode(n) == "\\u" + Code(n) && Four(Code(n) + rest) == Some(n) && (Code(n) + rest)[4..] == rest
  {
    FourOf(n / 4096, n / 256 % 16, n / 16 % 16, n % 16, rest);
    HexDigits(n);
  }

  /** What a character is written as reads back as it. */
  lemma CharReads(c: char, more: string)
    ensures ReadChars(EscapeChar(c) + more) ==
            match ReadChars(more) case None => None case Some(g) => Some(Got([c] + g.value, g.rest))
  {
    var text := EscapeChar(c) + more;
    if ' ' <= c <= '~' && c != '\"' && c != '\\' {
      assert text[1..] == more;
    } else {
      BehindSlash(c, more);
    }
  }

  lemma BehindSlash(c: char, more: string)
    requires !(' ' <= c <= '~') || c == '\"' || c == '\\'
    ensures var text := EscapeChar(c) + more; |text| >= 2 && text[0] == '\\' && Escaped(text[1..]) == Some(Got(c, more))
  {
    var n := c as int;
    if c in {'\"', '\\', '\n', '\r', '\t'} || n == 12 || n == 8 {
      var text := EscapeChar(c) + more;
      assert text[1..][1..] == more;
    } else if n < 0x10000 {
      UnitReads(c, more);
    } else {
      PairReads(c, more);
    }
  }

  lemma UnitReads(c: char, more: string)
    requires (c as int) < 0x10000
    ensures var text := Unicode(c as int) + more; |text| >= 2 && text[0] == '\\' && Escaped(text[1..]) == Some(Got(c, more))
  {
    var n := c as int;
    FourReads(n, more);
    var text := Unicode(n) + more;
    assert text[1..][1..] == Code(n) + more;
  }

  lemma Halves(n: nat)
    requires n < 0x100000
    ensures n / 0x400 < 0x400 && n % 0x400 < 0x400 && n / 0x400 * 0x400 + n % 0x400 == n
  {
  }

  lemma TwoUnits(hi: nat, lo: nat, more: string)
    requires 0xD800 <= hi < 0xDC00 <= lo < 0xE000
    ensures var text := Unicode(hi) + Unicode(lo) + more;
            |text| >= 2 && text[0] == '\\' &&
            Escaped(text[1..]) == Some(Got((0x10000 + (hi - 0xD800) * 0x400 + (lo - 0xDC00)) as char, more))
  {
    var a, b := Code(hi), Code(lo);
    FourReads(hi, "\\u" + b + more);
    FourReads(lo, more);
    Paired(a, b, hi, lo, more);
    Behind(Unicode(hi), Unicode(lo), a, b, more);
  }

  lemma Behind(x: string, y: string, a: string, b: string, more: string)
    requires x == "\\u" + a && y == "\\u" + b
    ensures var text := x + y + more;
            |text| >= 2 && text[0] == '\\' && text[1] == 'u' && text[1..][1..] == a + ("\\u" + b + more)
  {
  }

  lemma Paired(a: string, b: string, hi: nat, lo: nat, more: string)
    requires |a| == |b| == 4 && 0xD800 <= hi < 0xDC00 <= lo < 0xE000
    requires Four(a + ("\\u" + b + more)) == Some(hi) && Four(b + more) == Some(lo)
    ensures FromCode(a + ("\\u" + b + more)) == Some(Got((0x10000 + (hi - 0xD800) * 0x400 + (lo - 0xDC00)) as char, more))
  {
    var text := a + ("\\u" + b + more);
    assert text[6..] == b + more && text[10..] == more;
    assert text[4] == '\\' && text[5] == 'u';
  }

  lemma PairReads(c: char, more: string)
    requires c as int >= 0x10000
    ensures var n := c as int - 0x10000;
            var text := Unicode(0xD800 + n / 0x400) + Unicode(0xDC00 + n % 0x400) + more;
            |text| >= 2 && text[0] == '\\' && Escaped(text[1..]) == Some(Got(c, more))
  {
    var n := c as int - 0x10000;
    Halves(n);
    TwoUnits(0xD800 + n / 0x400, 0xDC00 + n % 0x400, more);
  }

  lemma {:induction false} CharsRead(s: string, rest: string)
    ensures ReadChars(Escape(s) + "\"" + rest) == Some(Got(s, rest))
  {
    var text := Escape(s) + "\"" + rest;
    if s == "" {
      assert text[0] == '\"' && text[1..] == rest;
    } else {
      var more := Escape(s[1..]) + "\"" + rest;
      assert text == EscapeChar(s[0]) + more;
      CharReads(s[0], more);
      CharsRead(s[1..], rest);
      assert [s[0]] + s[1..] == s;
    }
  }

  /** A quoted string reads back. */
  lemma StringReads(s: string, rest: string)
    ensures ReadString(Quote(s) + rest) == Some(Got(s, rest))
  {
    var text := Quote(s) + rest;
    assert text[1..] == Escape(s) + "\"" + rest;
    CharsRead(s, rest);
  }

  // ---- numbers ----

  predicate IsDigit(c: char) { '0' <= c <= '9' }

  /** The digits at the head of a text. */
  function Leading(s: string): string {
    if s != "" && IsDigit(s[0]) then [s[0]] + Leading(s[1..]) else ""
  }

  function ReadNumber(s: string): Option<Got<int>> {
    var negative := s != "" && s[0] == '-';
    var body := if negative then s[1..] else s;
    var digits := Leading(body);
    if digits == "" || |digits| > |body| then None
    else Some(Got(if negative then -Value(digits) else Value(digits), body[|digits|..]))
  }

  lemma {:induction false} LeadingIs(digits: string, rest: string)
    requires (forall c :: c in digits ==> IsDigit(c)) && (rest == "" || !IsDigit(rest[0]))
    ensures Leading(digits + rest) == digits
  {
    if digits == "" {
      assert digits + rest == rest;
    } else {
      assert (digits + rest)[1..] == digits[1..] + rest;
      LeadingIs(digits[1..], rest);
    }
  }

  lemma DigitsThen(n: nat, rest: string)
    requires rest == "" || !IsDigit(rest[0])
    ensures var digits := Digits(n);
            && digits != "" && IsDigit(digits[0]) && Value(digits) == n
            && Leading(digits + rest) == digits && (digits + rest)[|digits|..] == rest
  {
    DigitsRead(n);
    assert Digits(n)[0] in Digits(n);
    LeadingIs(Digits(n), rest);
  }

  lemma DigitsGot(digits: string, rest: string)
    requires digits != "" && IsDigit(digits[0]) && Leading(digits + rest) == digits && (digits + rest)[|digits|..] == rest
    ensures ReadNumber(digits + rest) == Some(Got(Value(digits), rest))
    ensures ReadNumber("-" + digits + rest) == Some(Got(-Value(digits), rest))
  {
    assert ("-" + digits + rest)[1..] == digits + rest;
    assert (digits + rest)[0] == digits[0];
  }

  /** A number followed by something that is no digit reads back. */
  lemma NumberReads(n: int, rest: string)
    requires rest == "" || !IsDigit(rest[0])
    ensures ReadNumber(Number(n) + rest) == Some(Got(n, rest))
  {
    var k := if n < 0 then -n else n;
    DigitsThen(k, rest);
    DigitsGot(Digits(k), rest);
  }

  // ---- entries ----

  /** A field of an entry, as it stands in the text. */
  datatype Part = T(t: int) | Qt(qt: string) | P(p: string) | A(a: int)

  function Put1(e: Entry, part: Part): Entry {
    match part
    case T(t) => e.(t := Some(t))
    case Qt(qt) => e.(qt := Some(qt))
    case P(p) => e.(p := Some(p))
    case A(a) => e.(a := a != 0)
  }

  /** One field: its name, a colon, and a string or a number as the name says. */
  function ReadPart(s: string): Option<Got<Part>> {
    match ReadString(s)
    case None => None
    case Some(name) =>
      if name.rest == "" || name.rest[0] != ':' then None
      else if name.value == "t" || name.value == "a" then
        match ReadNumber(name.rest[1..])
        case None => None
        case Some(n) => Some(Got(if name.value == "t" then T(n.value) else A(n.value), n.rest))
      else if name.value == "qt" || name.value == "p" then
        match ReadString(name.rest[1..])
        case None => None
        case Some(x) => Some(Got(if name.value == "qt" then Qt(x.value) else P(x.value), x.rest))
      else None
  }

  /** The fields up to the closing brace. */
  function ReadParts(s: string, e: Entry): Option<Got<Entry>>
    decreases |s|
  {
    match ReadPart(s)
    case None => None
    case Some(part) =>
      if part.rest == "" || |part.rest| >= |s| then None
      else if part.rest[0] == ',' then ReadParts(part.rest[1..], Put1(e, part.value))
      else if part.rest[0] == '}' then Some(Got(Put1(e, part.value), part.rest[1..]))
      else None
  }

  function ReadEntry(s: string): Option<Got<Entry>> {
    if s == "" || s[0] != '{' then None
    else if |s| >= 2 && s[1] == '}' then Some(Got(NOTHING, s[2..]))
    else ReadParts(s[1..], NOTHING)
  }

  function NameOf(part: Part): string {
    match part
    case T(_) => "t"
    case Qt(_) => "qt"
    case P(_) => "p"
    case A(_) => "a"
  }

  function TextOf(part: Part): string {
    match part
    case T(t) => Number(t)
    case Qt(qt) => Quote(qt)
    case P(p) => Quote(p)
    case A(a) => Number(a)
  }

  function Shown(part: Part): string { "\"" + NameOf(part) + "\":" + TextOf(part) }

  function ShownAll(parts: seq<Part>): (r: seq<string>)
    ensures |r| == |parts|
  {
    if parts == [] then [] else [Shown(parts[0])] + ShownAll(parts[1..])
  }

  lemma NameReads(name: string, rest: string)
    requires name in {"t", "qt", "p", "a"}
    ensures ReadString("\"" + name + "\"" + rest) == Some(Got(name, rest))
  {
    assert Escape(name) == name by { BareEscapeIs(name); }
    StringReads(name, rest);
    assert Quote(name) + rest == "\"" + name + "\"" + rest;
  }

  lemma {:induction false} BareEscapeIs(s: string)
    requires forall c :: c in s ==> Bare(c)
    ensures Escape(s) == s
  {
    if s != "" {
      assert s[0] in s;
      BareEscapeIs(s[1..]);
      assert s == [s[0]] + s[1..];
    }
  }

  predicate Ends(rest: string) { rest != "" && (rest[0] == ',' || rest[0] == '}') }

  lemma PartReads(part: Part, rest: string)
    requires Ends(rest)
    ensures ReadPart(Shown(part) + rest) == Some(Got(part, rest))
  {
    var name, value := NameOf(part), TextOf(part);
    Head(name, value, rest);
    NameReads(name, ":" + (value + rest));
    match part {
      case T(t) => NumberReads(t, rest);
      case Qt(qt) => StringReads(qt, rest);
      case P(p) => StringReads(p, rest);
      case A(a) => NumberReads(a, rest);
    }
  }

  lemma Head(name: string, value: string, rest: string)
    ensures ("\"" + name + "\":" + value) + rest == "\"" + name + "\"" + (":" + (value + rest))
    ensures (":" + (value + rest))[1..] == value + rest
  {
  }

  function PutAll(e: Entry, parts: seq<Part>): Entry
    decreases |parts|
  {
    if parts == [] then e else PutAll(Put1(e, parts[0]), parts[1..])
  }

  /** One field read, and what follows it. */
  lemma PartThen(first: string, tail: string, e: Entry, part: Part)
    requires first != "" && Ends(tail) && ReadPart(first + tail) == Some(Got(part, tail))
    ensures ReadParts(first + tail, e) ==
            if tail[0] == ',' then ReadParts(tail[1..], Put1(e, part)) else Some(Got(Put1(e, part), tail[1..]))
  {
  }

  lemma Regroup(a: string, b: string, end: string, rest: string)
    ensures (a + "," + b) + end + rest == a + ("," + (b + end + rest))
    ensures ("," + (b + end + rest))[1..] == b + end + rest
    ensures a + end + rest == a + (end + rest)
  {
  }

  lemma CommasOf(x: string, more: seq<string>)
    ensures Commas([x] + more) == if more == [] then x else x + "," + Commas(more)
  {
    assert ([x] + more)[1..] == more;
  }

  lemma {:induction false} PartsRead(parts: seq<Part>, e: Entry, rest: string)
    requires parts != []
    ensures ReadParts(Commas(ShownAll(parts)) + "}" + rest, e) == Some(Got(PutAll(e, parts), rest))
    decreases |parts|
  {
    var (first, others) := (Shown(parts[0]), ShownAll(parts[1..]));
    CommasOf(first, others);
    Regroup(first, Commas(others), "}", rest);
    if |parts| == 1 {
      assert others == [] && parts[1..] == [];
      PartReads(parts[0], "}" + rest);
      PartThen(first, "}" + rest, e, parts[0]);
      assert ("}" + rest)[1..] == rest;
    } else {
      var tail := "," + (Commas(others) + "}" + rest);
      PartReads(parts[0], tail);
      PartThen(first, tail, e, parts[0]);
      PartsRead(parts[1..], Put1(e, parts[0]), rest);
    }
  }

  function PartsOf(e: Entry): seq<Part> {
    (if e.t.Some? then [T(e.t.value)] else [])
    + (if e.qt.Some? then [Qt(e.qt.value)] else [])
    + (if e.p.Some? then [P(e.p.value)] else [])
    + (if e.a then [A(1)] else [])
  }

  lemma {:induction false} ShownCat(xs: seq<Part>, ys: seq<Part>)
    ensures ShownAll(xs + ys) == ShownAll(xs) + ShownAll(ys)
  {
    if xs == [] {
      assert xs + ys == ys;
    } else {
      assert (xs + ys)[1..] == xs[1..] + ys;
      ShownCat(xs[1..], ys);
    }
  }

  lemma {:induction false} PutCat(e: Entry, xs: seq<Part>, ys: seq<Part>)
    ensures PutAll(e, xs + ys) == PutAll(PutAll(e, xs), ys)
    decreases |xs|
  {
    if xs == [] {
      assert xs + ys == ys;
    } else {
      assert (xs + ys)[1..] == xs[1..] + ys;
      PutCat(Put1(e, xs[0]), xs[1..], ys);
    }
  }

  lemma ShownOne(part: Part)
    ensures ShownAll([part]) == [Shown(part)]
  {
    assert [part][1..] == [];
  }

  lemma PutOne(e: Entry, part: Part)
    ensures PutAll(e, [part]) == Put1(e, part)
  {
    assert [part][1..] == [];
  }

  lemma ShownAs(part: Part)
    ensures ShownAll([part]) == [Shown(part)]
    ensures Shown(part) == match part {
              case T(t) => "\"t\":" + Number(t)
              case Qt(qt) => "\"qt\":" + Quote(qt)
              case P(p) => "\"p\":" + Quote(p)
              case A(a) => "\"a\":" + Number(a)
            }
  {
    ShownOne(part);
    assert "\"" + "t" + "\":" == "\"t\":" && "\"" + "qt" + "\":" == "\"qt\":";
    assert "\"" + "p" + "\":" == "\"p\":" && "\"" + "a" + "\":" == "\"a\":";
  }

  lemma FieldsAreShown(e: Entry)
    ensures Fields(e) == ShownAll(PartsOf(e))
  {
    var (t, qt) := (if e.t.Some? then [T(e.t.value)] else [], if e.qt.Some? then [Qt(e.qt.value)] else []);
    var (p, a) := (if e.p.Some? then [P(e.p.value)] else [], if e.a then [A(1)] else []);
    ShownCat(t, qt);
    ShownCat(t + qt, p);
    ShownCat(t + qt + p, a);
    if e.t.Some? { ShownAs(T(e.t.value)); }
    if e.qt.Some? { ShownAs(Qt(e.qt.value)); }
    if e.p.Some? { ShownAs(P(e.p.value)); }
    ShownAs(A(1));
    assert "\"a\":" + Number(1) == "\"a\":1";
    assert Fields(e) == ShownAll(t) + ShownAll(qt) + ShownAll(p) + ShownAll(a);
  }

  lemma PartsAreEntry(e: Entry)
    ensures PutAll(NOTHING, PartsOf(e)) == e
  {
    var (t, qt) := (if e.t.Some? then [T(e.t.value)] else [], if e.qt.Some? then [Qt(e.qt.value)] else []);
    var (p, a) := (if e.p.Some? then [P(e.p.value)] else [], if e.a then [A(1)] else []);
    PutCat(NOTHING, t, qt);
    PutCat(NOTHING, t + qt, p);
    PutCat(NOTHING, t + qt + p, a);
    var e1 := PutAll(NOTHING, t);
    if e.t.Some? { PutOne(NOTHING, T(e.t.value)); }
    var e2 := PutAll(e1, qt);
    if e.qt.Some? { PutOne(e1, Qt(e.qt.value)); }
    var e3 := PutAll(e2, p);
    if e.p.Some? { PutOne(e2, P(e.p.value)); }
    if e.a { PutOne(e3, A(1)); }
  }

  lemma Opened(body: string, rest: string)
    requires body != "" && body[0] != '}'
    ensures ReadEntry("{" + body + "}" + rest) == ReadParts(body + "}" + rest, NOTHING)
  {
    var text := "{" + body + "}" + rest;
    assert text[1..] == body + "}" + rest && text[1] == body[0];
  }

  lemma NothingReads(rest: string)
    ensures ReadEntry("{" + "" + "}" + rest) == Some(Got(NOTHING, rest))
  {
    assert ("{" + "" + "}" + rest)[2..] == rest;
  }

  lemma StartsWithQuote(parts: seq<Part>)
    requires parts != []
    ensures Commas(ShownAll(parts)) != "" && Commas(ShownAll(parts))[0] == '\"'
  {
    CommasOf(Shown(parts[0]), ShownAll(parts[1..]));
    assert Shown(parts[0])[0] == '\"';
  }

  /** An entry reads back. */
  lemma EntryReads(e: Entry, rest: string)
    ensures ReadEntry("{" + Commas(Fields(e)) + "}" + rest) == Some(Got(e, rest))
  {
    FieldsAreShown(e);
    PartsAreEntry(e);
    if PartsOf(e) == [] {
      NothingReads(rest);
    } else {
      PartsRead(PartsOf(e), NOTHING, rest);
      StartsWithQuote(PartsOf(e));
      Opened(Commas(ShownAll(PartsOf(e))), rest);
    }
  }

  // ---- the map ----

  function ReadMembers(s: string, m: Limits): Option<Limits>
    decreases |s|
  {
    match ReadString(s)
    case None => None
    case Some(key) =>
      if key.rest == "" || key.rest[0] != ':' then None
      else
        match ReadEntry(key.rest[1..])
        case None => None
        case Some(e) =>
          if e.rest == "" || |e.rest| >= |s| then None
          else if e.rest[0] == ',' then ReadMembers(e.rest[1..], m[key.value := e.value])
          else if e.rest == "}" then Some(m[key.value := e.value])
          else None
  }

  /** `json.loads` of the text of a map. */
  function ReadMap(s: string): Option<Limits> {
    if s == "{}" then Some(map[]) else if s != "" && s[0] == '{' then ReadMembers(s[1..], map[]) else None
  }

  function MembersFrom(ks: seq<string>, m: Limits): (r: seq<string>)
    requires forall k :: k in ks ==> k in m
    ensures |r| == |ks|
  {
    if ks == [] then [] else [Member(ks[0], m[ks[0]])] + MembersFrom(ks[1..], m)
  }

  lemma {:induction false} FromSnoc(ks: seq<string>, k: string, m: Limits)
    requires (forall j :: j in ks ==> j in m) && k in m
    ensures forall j :: j in ks + [k] ==> j in m
    ensures MembersFrom(ks + [k], m) == MembersFrom(ks, m) + [Member(k, m[k])]
  {
    if ks == [] {
      assert [] + [k] == [k] && [k][1..] == [];
    } else {
      assert (ks + [k])[1..] == ks[1..] + [k];
      FromSnoc(ks[1..], k, m);
    }
  }

  lemma {:induction false} MembersAreFrom(ks: seq<string>, m: Limits)
    requires forall k :: k in ks ==> k in m
    ensures Members(ks, m) == MembersFrom(ks, m)
  {
    if ks != [] {
      var front, k := ks[..|ks| - 1], ks[|ks| - 1];
      assert ks == front + [k] && k in ks;
      MembersAreFrom(front, m);
      FromSnoc(front, k, m);
    }
  }

  /** The map with the entries of some keys of another. */
  function With(done: Limits, ks: seq<string>, m: Limits): Limits
    requires forall k :: k in ks ==> k in m
    decreases |ks|
  {
    if ks == [] then done else With(done[ks[0] := m[ks[0]]], ks[1..], m)
  }

  lemma {:induction false} WithIs(done: Limits, ks: seq<string>, m: Limits)
    requires forall k :: k in ks ==> k in m
    requires forall k :: k in done ==> k in m && done[k] == m[k]
    ensures With(done, ks, m).Keys == done.Keys + (set k | k in ks)
    ensures forall k :: k in With(done, ks, m) ==> k in m && With(done, ks, m)[k] == m[k]
    decreases |ks|
  {
    if ks != [] {
      assert ks[0] in ks;
      WithIs(done[ks[0] := m[ks[0]]], ks[1..], m);
      assert (set k | k in ks) == {ks[0]} + (set k | k in ks[1..]);
    }
  }

  lemma MemberReads(key: string, e: Entry, rest: string) returns (after: string)
    ensures Member(key, e) != "" && ReadString(Member(key, e) + rest) == Some(Got(key, after)) && after != "" && after[0] == ':'
    ensures ReadEntry(after[1..]) == Some(Got(e, rest))
  {
    var entry := "{" + Commas(Fields(e)) + "}" + rest;
    after := ":" + entry;
    Spelled(key, Commas(Fields(e)), rest);
    StringReads(key, after);
    EntryReads(e, rest);
  }

  lemma Spelled(key: string, fields: string, rest: string)
    ensures (Quote(key) + ":{" + fields + "}") + rest == Quote(key) + (":" + ("{" + fields + "}" + rest))
    ensures (":" + ("{" + fields + "}" + rest))[1..] == "{" + fields + "}" + rest
  {
    var (q, body) := (Quote(key), fields + "}" + rest);
    assert ":{" + body == ":" + ("{" + body);
  }

  /** One member read, and what follows it. */
  lemma MemberThen(first: string, tail: string, m: Limits, key: string, e: Entry, after: string)
    requires first != "" && ReadString(first + tail) == Some(Got(key, after)) && after != "" && after[0] == ':'
    requires ReadEntry(after[1..]) == Some(Got(e, tail)) && (tail == "}" || (tail != "" && tail[0] == ','))
    ensures ReadMembers(first + tail, m) ==
            if tail == "}" then Some(m[key := e]) else ReadMembers(tail[1..], m[key := e])
  {
  }

  lemma {:induction false} MembersRead(ks: seq<string>, m: Limits, done: Limits)
    requires ks != [] && forall k :: k in ks ==> k in m
    ensures ReadMembers(Commas(MembersFrom(ks, m)) + "}" + "", done) == Some(With(done, ks, m))
    decreases |ks|
  {
    assert ks[0] in ks;
    var k, e := ks[0], m[ks[0]];
    var (first, others) := (Member(k, e), MembersFrom(ks[1..], m));
    CommasOf(first, others);
    Regroup(first, Commas(others), "}", "");
    if |ks| == 1 {
      assert others == [] && ks[1..] == [] && "}" + "" == "}";
      var after := MemberReads(k, e, "}");
      MemberThen(first, "}", done, k, e, after);
    } else {
      var tail := "," + (Commas(others) + "}" + "");
      var after := MemberReads(k, e, tail);
      MemberThen(first, tail, done, k, e, after);
      MembersRead(ks[1..], m, done[k := e]);
    }
  }

  lemma AllOfIt(ks: seq<string>, m: Limits)
    requires IsOrder(ks, m) && forall k :: k in ks ==> k in m
    ensures With(map[], ks, m) == m
  {
    WithIs(map[], ks, m);
  }

  lemma Braces(body: string)
    requires body != ""
    ensures var text := "{" + body + "}"; text != "{}" && text[0] == '{' && text[1..] == body + "}" + ""
  {
    var text := "{" + body + "}";
    assert |text| > 2;
  }

  /** Round trip: the text of a map, written in any order of its keys, reads back as the map. */
  lemma TextReadsBack(text: string, m: Limits)
    requires IsWritten(text, m)
    ensures ReadMap(text) == Some(m)
  {
    var ks :| IsOrder(ks, m) && (forall k :: k in ks ==> k in m) && text == Written(ks, m);
    OrderReadsBack(ks, m);
  }

  lemma OrderReadsBack(ks: seq<string>, m: Limits)
    requires IsOrder(ks, m) && forall k :: k in ks ==> k in m
    ensures ReadMap(Written(ks, m)) == Some(m)
  {
    MembersAreFrom(ks, m);
    if ks == [] {
      assert m.Keys == {} && m == map[];
      assert "{" + "" + "}" == "{}";
    } else {
      var parts := MembersFrom(ks, m);
      CommasOf(parts[0], parts[1..]);
      assert parts == [parts[0]] + parts[1..];
      assert ks[0] in ks && parts[0] == Member(ks[0], m[ks[0]]) && parts[0] != "";
      Braces(Commas(parts));
      MembersRead(ks, m, map[]);
      AllOfIt(ks, m);
    }
  }
}

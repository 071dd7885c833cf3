/**
  Server-sent events over a chunked stream: an event ends at a blank line, and buffering the
  chunks finds the same events as splitting the whole text.
 */
module SseFraming {

  datatype Framed = Framed(events: seq<string>, tail: string)

  /** Whether a blank line ends at the head of the text. */
  predicate AtBlank(s: string) { |s| >= 2 && s[0] == '\n' && s[1] == '\n' }

  /** The text before the first blank line, or all of it. */
  function BeforeBlank(s: string): string {
    if s == "" || AtBlank(s) then "" else [s[0]] + BeforeBlank(s[1..])
  }

  predicate HasBlank(s: string) { s != "" && (AtBlank(s) || HasBlank(s[1..])) }

  lemma {:induction false} BlankPosition(s: string)
    ensures BeforeBlank(s) <= s
    ensures HasBlank(s) ==> |BeforeBlank(s)| + 2 <= |s| && AtBlank(s[|BeforeBlank(s)|..])
    ensures !HasBlank(s) ==> BeforeBlank(s) == s
  {
    if s != "" && !AtBlank(s) {
      BlankPosition(s[1..]);
      var n := |BeforeBlank(s[1..])|;
      assert s[1..][n..] == s[n + 1..];
    }
  }

  /** `buf.split("\n\n", 1)` for as long as there is a blank line. */
  function Split(s: string): Framed
    decreases |s|
  {
    BlankPosition(s);
    if HasBlank(s) then
      var rest := Split(s[|BeforeBlank(s)| + 2..]);
      Framed([BeforeBlank(s)] + rest.events, rest.tail)
    else Framed([], s)
  }

  function Concat(chunks: seq<string>): string {
    if chunks == [] then "" else chunks[0] + Concat(chunks[1..])
  }

  /** What the buffering loop finds, chunk by chunk, starting from what it holds. */
  function Feed(buf: string, chunks: seq<string>): Framed
    decreases |chunks|
  {
    if chunks == [] then Framed([], buf)
    else
      var now := Split(buf + chunks[0]);
      var later := Feed(now.tail, chunks[1..]);
      Framed(now.events + later.events, later.tail)
  }

  lemma {:induction false} BlankStays(a: string, b: string)
    requires HasBlank(a)
    ensures HasBlank(a + b) && BeforeBlank(a + b) == BeforeBlank(a)
  {
    assert (a + b)[1..] == a[1..] + b;
    if !AtBlank(a) {
      BlankStays(a[1..], b);
    }
  }

  /** Where the first event ends does not depend on what comes later. */
  lemma FirstEventStays(a: string, b: string)
    requires HasBlank(a)
    ensures HasBlank(a + b) && BeforeBlank(a + b) == BeforeBlank(a) && |BeforeBlank(a)| + 2 <= |a|
    ensures (a + b)[|BeforeBlank(a)| + 2..] == a[|BeforeBlank(a)| + 2..] + b
  {
    BlankPosition(a);
    BlankStays(a, b);
  }

  /** The first event, and the split of what follows it. */
  lemma SplitHead(s: string, event: string, rest: string)
    requires HasBlank(s) && event == BeforeBlank(s) && |event| + 2 <= |s| && rest == s[|event| + 2..]
    ensures Split(s) == Framed([event] + Split(rest).events, Split(rest).tail)
  {
  }

  lemma Assoc(x: seq<string>, y: seq<string>, z: seq<string>)
    ensures x + (y + z) == (x + y) + z
  {
  }

  lemma {:induction false} SplitAppend(a: string, b: string)
    ensures Split(a + b).events == Split(a).events + Split(Split(a).tail + b).events
    ensures Split(a + b).tail == Split(Split(a).tail + b).tail
    decreases |a|
  {
    if HasBlank(a) {
      FirstEventStays(a, b);
      var (event, rest) := (BeforeBlank(a), a[|BeforeBlank(a)| + 2..]);
      SplitHead(a, event, rest);
      SplitHead(a + b, event, rest + b);
      SplitAppend(rest, b);
      Assoc([event], Split(rest).events, Split(Split(rest).tail + b).events);
    } else {
      assert [] + Split(a + b).events == Split(a + b).events;
    }
  }

  lemma {:induction false} TailHasNoBlank(s: string)
    ensures !HasBlank(Split(s).tail)
    decreases |s|
  {
    BlankPosition(s);
    if HasBlank(s) {
      TailHasNoBlank(s[|BeforeBlank(s)| + 2..]);
    }
  }

  lemma {:induction false} FeedIsSplit(buf: string, chunks: seq<string>)
    requires !HasBlank(buf)
    ensures Feed(buf, chunks) == Split(buf + Concat(chunks))
    decreases |chunks|
  {
    if chunks == [] {
      assert buf + "" == buf;
    } else {
      var text, rest := buf + chunks[0], Concat(chunks[1..]);
      var now := Split(text);
      TailHasNoBlank(text);
      FeedIsSplit(now.tail, chunks[1..]);
      SplitAppend(text, rest);
      CatAssoc(buf, chunks[0], rest);
      assert Feed(buf, chunks) == Framed(now.events + Split(now.tail + rest).events, Split(now.tail + rest).tail);
    }
  }

  lemma CatAssoc(x: string, y: string, z: string)
    ensures x + (y + z) == (x + y) + z
  {
  }

  /** However a text is cut into chunks, the events found and the text held back are those of
      the whole text. */
  lemma ChunksDoNotMatter(xs: seq<string>, ys: seq<string>)
    requires Concat(xs) == Concat(ys)
    ensures Feed("", xs) == Feed("", ys) == Split(Concat(xs))
  {
    FeedIsSplit("", xs);
    FeedIsSplit("", ys);
    assert "" + Concat(xs) == Concat(xs);
  }

  // ---- lines ----

  /** `text.split("\n")` */
  function Lines(s: string): (r: seq<string>)
    ensures |r| >= 1
  {
    if s == "" then [""]
    else
      var rest := Lines(s[1..]);
      if s[0] == '\n' then [""] + rest else [[s[0]] + rest[0]] + rest[1..]
  }

  /** `"\n".join(lines)` */
  function Join(lines: seq<string>): string {
    if lines == [] then "" else if |lines| == 1 then lines[0] else lines[0] + "\n" + Join(lines[1..])
  }

  lemma {:induction false} LinesCat(a: string, b: string)
    ensures Lines(a + "\n" + b) == Lines(a) + Lines(b)
  {
    if a == "" {
      assert a + "\n" + b == "\n" + b && ("\n" + b)[1..] == b;
    } else {
      assert (a + "\n" + b)[1..] == a[1..] + "\n" + b;
      LinesCat(a[1..], b);
    }
  }

  lemma {:induction false} JoinCat(xs: seq<string>, ys: seq<string>)
    requires xs != [] && ys != []
    ensures Join(xs + ys) == Join(xs) + "\n" + Join(ys)
  {
    assert (xs + ys)[1..] == xs[1..] + ys;
    if |xs| > 1 {
      JoinCat(xs[1..], ys);
      assert Join(xs + ys) == xs[0] + "\n" + (Join(xs[1..]) + "\n" + Join(ys));
      assert xs[0] + "\n" + (Join(xs[1..]) + "\n" + Join(ys)) == (xs[0] + "\n" + Join(xs[1..])) + "\n" + Join(ys);
    } else {
      assert xs[1..] + ys == ys;
    }
  }

  predicate OneLine(s: string) { '\n' !in s }

  lemma {:induction false} LinesOfLine(s: string)
    requires OneLine(s)
    ensures Lines(s) == [s]
  {
    if s != "" {
      LinesOfLine(s[1..]);
      assert s == [s[0]] + s[1..];
    }
  }

  lemma {:induction false} LinesAreLines(s: string)
    ensures forall l :: l in Lines(s) ==> OneLine(l)
    ensures Join(Lines(s)) == s
  {
    if s != "" {
      LinesAreLines(s[1..]);
      var rest := Lines(s[1..]);
      assert rest[0] in rest;
      if s[0] == '\n' {
        assert Lines(s)[1..] == rest;
        assert Join(Lines(s)) == "" + "\n" + s[1..];
      } else {
        assert Lines(s)[1..] == rest[1..];
        assert Join(Lines(s)) == [s[0]] + s[1..];
      }
    }
  }

  lemma {:induction false} LinesOfJoin(lines: seq<string>)
    requires lines != [] && forall l :: l in lines ==> OneLine(l)
    ensures Lines(Join(lines)) == lines
  {
    assert lines[0] in lines;
    LinesOfLine(lines[0]);
    if |lines| > 1 {
      LinesOfJoin(lines[1..]);
      LinesCat(lines[0], Join(lines[1..]));
    }
  }

  // ---- white space ----

  /** The characters `str.strip()` removes. */
  predicate IsSpace(c: char) {
    || '\t' <= c <= '\r'
    || '\U{1C}' <= c <= ' '
    || c == '\U{85}' || c == '\U{A0}' || c == '\U{1680}'
    || '\U{2000}' <= c <= '\U{200A}'
    || c == '\U{2028}' || c == '\U{2029}' || c == '\U{202F}' || c == '\U{205F}' || c == '\U{3000}'
  }

  function StripLeft(s: string): string {
    if s != "" && IsSpace(s[0]) then StripLeft(s[1..]) else s
  }

  function StripRight(s: string): string {
    if s != "" && IsSpace(s[|s| - 1]) then StripRight(s[..|s| - 1]) else s
  }

  function Strip(s: string): string { StripLeft(StripRight(s)) }

  lemma {:induction false} StripRightAfter(p: string, s: string)
    requires p != "" && !IsSpace(p[|p| - 1])
    ensures StripRight(p + s) == p + StripRight(s)
    decreases |s|
  {
    if s == "" {
      assert p + s == p;
    } else if IsSpace(s[|s| - 1]) {
      assert (p + s)[..|p + s| - 1] == p + s[..|s| - 1];
      StripRightAfter(p, s[..|s| - 1]);
    }
  }

  lemma {:induction false} StripRightTwice(s: string)
    ensures StripRight(StripRight(s)) == StripRight(s)
    decreases |s|
  {
    if s != "" && IsSpace(s[|s| - 1]) {
      StripRightTwice(s[..|s| - 1]);
    }
  }

  /** White space by code point. */
  lemma SpacesAre(c: char)
    ensures var n := c as int;
            IsSpace(c) <==> n in {9, 10, 11, 12, 13, 28, 29, 30, 31, 32, 133, 160, 5760, 8232, 8233, 8239, 8287, 12288}
                            || 8192 <= n <= 8202
  {
  }

  lemma {:induction false} LeftIs(s: string) returns (a: string)
    ensures s == a + StripLeft(s) && forall c :: c in a ==> IsSpace(c)
    ensures StripLeft(s) != "" ==> !IsSpace(StripLeft(s)[0])
  {
    if s != "" && IsSpace(s[0]) {
      a := LeftIs(s[1..]);
      assert s == [s[0]] + s[1..];
      a := [s[0]] + a;
    } else {
      a := "";
    }
  }

  lemma {:induction false} RightIs(s: string) returns (b: string)
    ensures s == StripRight(s) + b && forall c :: c in b ==> IsSpace(c)
    ensures StripRight(s) != "" ==> !IsSpace(StripRight(s)[|StripRight(s)| - 1])
    decreases |s|
  {
    if s != "" && IsSpace(s[|s| - 1]) {
      b := RightIs(s[..|s| - 1]);
      b := b + [s[|s| - 1]];
    } else {
      b := "";
    }
  }

  /** Stripping takes white space off both ends, all of it, and nothing else. */
  lemma StripIs(s: string) returns (a: string, b: string)
    ensures s == a + Strip(s) + b && forall c :: c in a + b ==> IsSpace(c)
    ensures var t := Strip(s); t != "" ==> !IsSpace(t[0]) && !IsSpace(t[|t| - 1])
  {
    b := RightIs(s);
    a := LeftIs(StripRight(s));
    var t, r := Strip(s), StripRight(s);
    assert r == a + t;
    assert t != "" ==> t[|t| - 1] == r[|r| - 1];
  }
}

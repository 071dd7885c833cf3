/** Which chunks a source text carries, whatever the chunks it arrives in. */
module StreamReading {
  import opened Wrappers
  import opened SseFraming
  import opened StreamTranslator

  /** A line of the source: a payload behind `data: `, or a comment or another field. */
  datatype Line = Data(payload: string) | Note(text: string)

  /** Payloads are one line without white space around it; other lines do not begin with `data:` or
      with white space. */
  predicate Ordinary(l: Line) {
    match l
    case Data(p) => OneLine(p) && p != "" && !IsSpace(p[0]) && !IsSpace(p[|p| - 1])
    case Note(t) => OneLine(t) && t != "" && !IsSpace(t[0]) && !("data:" <= t)
  }

  function Shown(l: Line): string {
    match l
    case Data(p) => "data: " + p
    case Note(t) => t
  }

  function ShowAll(ls: seq<Line>): (r: seq<string>)
    ensures |r| == |ls|
  {
    if ls == [] then [] else [Shown(ls[0])] + ShowAll(ls[1..])
  }

  /** The text of records: lines, each record closed by a blank one. */
  function Text(rs: seq<seq<Line>>): string {
    if rs == [] then "" else Join(ShowAll(rs[0])) + "\n\n" + Text(rs[1..])
  }

  predicate Records(rs: seq<seq<Line>>) {
    forall r :: r in rs ==> r != [] && forall l :: l in r ==> Ordinary(l)
  }

  /** What lines carry: of each payload but `[DONE]` what is read of it. */
  function Carried(read: string -> Option<Chunk>, ls: seq<Line>): seq<Chunk> {
    if ls == [] then []
    else
      (match ls[0]
       case Note(_) => []
       case Data(p) => if p == "[DONE]" then [] else match read(p) case None => [] case Some(c) => [c])
      + Carried(read, ls[1..])
  }

  function Flat(rs: seq<seq<Line>>): seq<Line> {
    if rs == [] then [] else rs[0] + Flat(rs[1..])
  }

  // ---- one line ----

  lemma {:induction false} StripRightIsPrefix(s: string)
    ensures StripRight(s) <= s
    ensures s != "" && !IsSpace(s[0]) ==> StripRight(s) != "" && StripLeft(StripRight(s)) == StripRight(s)
    decreases |s|
  {
    if s != "" && IsSpace(s[|s| - 1]) {
      StripRightIsPrefix(s[..|s| - 1]);
    }
  }

  lemma DataCarries(read: string -> Option<Chunk>, p: string)
    requires Ordinary(Data(p))
    ensures LineChunk(read, "data: " + p) == if p == "[DONE]" then None else read(p)
  {
    var line := "data: " + p;
    var spaced := " " + p;
    assert line == "data:" + spaced;
    assert "data:"[4] == ':';
    StripRightAfter("data:", spaced);
    assert StripRight(spaced) == spaced;
    assert Strip(line) == line && line[5..] == spaced && line[..5] == "data:";
    assert StripLeft(p) == p && spaced[1..] == p;
    assert Strip(spaced) == p;
  }

  lemma NoteCarriesNothing(read: string -> Option<Chunk>, t: string)
    requires Ordinary(Note(t))
    ensures LineChunk(read, t).None?
  {
    StripRightIsPrefix(t);
    assert Strip(t) <= t;
    assert IsData(Strip(t)) ==> "data:" <= t;
  }

  lemma {:induction false} LinesCarry(read: string -> Option<Chunk>, ls: seq<Line>)
    requires forall l :: l in ls ==> Ordinary(l)
    ensures LineChunks(read, ShowAll(ls)) == Carried(read, ls)
  {
    if ls != [] {
      assert ls[0] in ls;
      match ls[0] {
        case Data(p) => DataCarries(read, p);
        case Note(t) => NoteCarriesNothing(read, t);
      }
      LinesCarry(read, ls[1..]);
      assert ShowAll(ls)[1..] == ShowAll(ls[1..]);
    }
  }

  // ---- one record ----

  /** Text that neither holds a blank line nor ends with a line break. */
  predicate Solid(s: string) { s != "" && s[0] != '\n' && s[|s| - 1] != '\n' && !HasBlank(s) }

  lemma {:induction false} SolidUpToBlank(s: string, rest: string)
    requires s != "" && s[|s| - 1] != '\n' && !HasBlank(s)
    ensures HasBlank(s + "\n\n" + rest) && BeforeBlank(s + "\n\n" + rest) == s
    decreases |s|
  {
    var text := s + "\n\n" + rest;
    if |s| == 1 {
      assert text[1..] == "\n\n" + rest;
      assert AtBlank("\n\n" + rest);
      assert BeforeBlank(text[1..]) == "";
    } else {
      assert text[1..] == s[1..] + "\n\n" + rest;
      assert AtBlank(text) ==> AtBlank(s);
      SolidUpToBlank(s[1..], rest);
      assert s == [s[0]] + s[1..];
    }
  }

  lemma {:induction false} OneLineHasNoBlank(s: string)
    requires OneLine(s)
    ensures !HasBlank(s)
  {
    if s != "" {
      OneLineHasNoBlank(s[1..]);
    }
  }

  lemma {:induction false} SolidCat(a: string, b: string)
    requires OneLine(a) && a != "" && Solid(b)
    ensures !HasBlank(a + "\n" + b)
    decreases |a|
  {
    var text := a + "\n" + b;
    assert text[1..] == a[1..] + "\n" + b;
    if |a| == 1 {
      assert text[1..] == "\n" + b && ("\n" + b)[1..] == b;
      assert !AtBlank("\n" + b);
    } else {
      SolidCat(a[1..], b);
    }
  }

  lemma ShownIsLine(l: Line)
    requires Ordinary(l)
    ensures OneLine(Shown(l)) && Shown(l) != ""
  {
  }

  lemma {:induction false} RecordIsSolid(ls: seq<Line>)
    requires ls != [] && forall l :: l in ls ==> Ordinary(l)
    ensures Solid(Join(ShowAll(ls))) && forall t :: t in ShowAll(ls) ==> OneLine(t)
  {
    assert ls[0] in ls;
    ShownIsLine(ls[0]);
    var first := Shown(ls[0]);
    assert first[0] in first && first[|first| - 1] in first;
    if |ls| == 1 {
      OneLineHasNoBlank(first);
      assert ShowAll(ls) == [first] + [];
    } else {
      RecordIsSolid(ls[1..]);
      assert ShowAll(ls)[1..] == ShowAll(ls[1..]);
      SolidCat(first, Join(ShowAll(ls[1..])));
    }
  }

  lemma RecordCarries(read: string -> Option<Chunk>, ls: seq<Line>)
    requires ls != [] && forall l :: l in ls ==> Ordinary(l)
    ensures LineChunks(read, Lines(Join(ShowAll(ls)))) == Carried(read, ls)
  {
    RecordIsSolid(ls);
    LinesOfJoin(ShowAll(ls));
    LinesCarry(read, ls);
  }

  // ---- the whole text ----

  lemma {:induction false} CarriedCat(read: string -> Option<Chunk>, xs: seq<Line>, ys: seq<Line>)
    ensures Carried(read, xs + ys) == Carried(read, xs) + Carried(read, ys)
  {
    if xs == [] {
      assert xs + ys == ys;
    } else {
      assert (xs + ys)[1..] == xs[1..] + ys;
      CarriedCat(read, xs[1..], ys);
    }
  }

  lemma FirstRecord(record: string, rest: string)
    requires Solid(record)
    ensures Split(record + "\n\n" + rest) == Framed([record] + Split(rest).events, Split(rest).tail)
  {
    var text := record + "\n\n" + rest;
    SolidUpToBlank(record, rest);
    assert text[|record| + 2..] == rest;
    SplitHead(text, record, rest);
  }

  lemma {:induction false} TextCarries(read: string -> Option<Chunk>, rs: seq<seq<Line>>)
    requires Records(rs)
    ensures EventChunks(read, Split(Text(rs)).events) == Carried(read, Flat(rs))
  {
    if rs != [] {
      assert rs[0] in rs && forall r :: r in rs[1..] ==> r in rs;
      var (record, rest) := (Join(ShowAll(rs[0])), Text(rs[1..]));
      RecordIsSolid(rs[0]);
      FirstRecord(record, rest);
      RecordCarries(read, rs[0]);
      TextCarries(read, rs[1..]);
      CarriedCat(read, rs[0], Flat(rs[1..]));
      assert ([record] + Split(rest).events)[1..] == Split(rest).events;
    }
  }

  /** The translation of any cutting of such a text is that of the chunks its payloads read as:
      every payload but `[DONE]` is read, and no other line is. */
  lemma TextIsRead(read: string -> Option<Chunk>, rs: seq<seq<Line>>, source: seq<string>)
    requires Records(rs) && Concat(source) == Text(rs)
    ensures TranslateText(read, Concat(source)) == Translate(Carried(read, Flat(rs)))
  {
    TextCarries(read, rs);
  }

  // ---- a stream and its end ----

  /** The payloads one record each, with notes before them, and `[DONE]` at the end. */
  function StreamOf(notes: seq<seq<string>>, payloads: seq<string>): seq<seq<Line>>
    requires |notes| == |payloads|
  {
    if payloads == [] then [[Data("[DONE]")]]
    else [NotesOf(notes[0]) + [Data(payloads[0])]] + StreamOf(notes[1..], payloads[1..])
  }

  function NotesOf(texts: seq<string>): (ls: seq<Line>)
    ensures |ls| == |texts| && forall i :: 0 <= i < |ls| ==> ls[i] == Note(texts[i])
  {
    seq(|texts|, i requires 0 <= i < |texts| => Note(texts[i]))
  }

  lemma {:induction false} NotesCarryNothing(read: string -> Option<Chunk>, ls: seq<Line>)
    requires forall l :: l in ls ==> l.Note?
    ensures Carried(read, ls) == []
  {
    if ls != [] {
      assert ls[0] in ls;
      NotesCarryNothing(read, ls[1..]);
    }
  }

  lemma OneRecord(read: string -> Option<Chunk>, notes: seq<string>, payload: string, c: Chunk)
    requires Ordinary(Data(payload)) && payload != "[DONE]" && read(payload) == Some(c)
    requires forall t :: t in notes ==> Ordinary(Note(t))
    ensures var r := NotesOf(notes) + [Data(payload)];
            r != [] && (forall l :: l in r ==> Ordinary(l)) && Carried(read, r) == [c]
  {
    var front, data := NotesOf(notes), Data(payload);
    forall l | l in front + [data] ensures Ordinary(l) {
      if l in front {
        var i :| 0 <= i < |front| && front[i] == l;
        assert l == Note(notes[i]) && notes[i] in notes;
      }
    }
    CarriedCat(read, front, [data]);
    NotesCarryNothing(read, front);
    assert [data][1..] == [];
  }

  lemma DoneCarriesNothing(read: string -> Option<Chunk>)
    ensures Records([[Data("[DONE]")]]) && Carried(read, Flat([[Data("[DONE]")]])) == []
  {
    var done := Data("[DONE]");
    assert [[done]][1..] == [] && [done] + [] == [done] && [done][1..] == [];
    assert OneLine("[DONE]");
  }

  /** Round trip: payloads that read as the chunks `cs`, written one record each with comments and
      other fields between them and `[DONE]` at the end, carry `cs`. */
  lemma {:induction false} StreamCarries(read: string -> Option<Chunk>, notes: seq<seq<string>>, payloads: seq<string>, cs: seq<Chunk>)
    requires |notes| == |payloads| == |cs|
    requires forall i :: 0 <= i < |cs| ==> Ordinary(Data(payloads[i])) && payloads[i] != "[DONE]" && read(payloads[i]) == Some(cs[i])
    requires forall i, t :: 0 <= i < |cs| && t in notes[i] ==> Ordinary(Note(t))
    ensures Records(StreamOf(notes, payloads)) && Carried(read, Flat(StreamOf(notes, payloads))) == cs
    decreases |cs|
  {
    if cs == [] {
      DoneCarriesNothing(read);
    } else {
      var first, rest := NotesOf(notes[0]) + [Data(payloads[0])], StreamOf(notes[1..], payloads[1..]);
      OneRecord(read, notes[0], payloads[0], cs[0]);
      StreamCarries(read, notes[1..], payloads[1..], cs[1..]);
      assert ([first] + rest)[1..] == rest;
      CarriedCat(read, first, Flat(rest));
      assert cs == [cs[0]] + cs[1..];
    }
  }

  /** And whatever chunks it arrives in, the text is translated as `cs`. */
  lemma StreamReadsBack(read: string -> Option<Chunk>, notes: seq<seq<string>>, payloads: seq<string>, cs: seq<Chunk>,
                        source: seq<string>)
    requires |notes| == |payloads| == |cs|
    requires forall i :: 0 <= i < |cs| ==> Ordinary(Data(payloads[i])) && payloads[i] != "[DONE]" && read(payloads[i]) == Some(cs[i])
    requires forall i, t :: 0 <= i < |cs| && t in notes[i] ==> Ordinary(Note(t))
    requires Concat(source) == Text(StreamOf(notes, payloads))
    ensures TranslateText(read, Concat(source)) == Translate(cs)
  {
    StreamCarries(read, notes, payloads, cs);
    TextIsRead(read, StreamOf(notes, payloads), source);
  }

  /** And so the coroutine itself, on any cutting of the stream. */
  method TranslateStream(read: string -> Option<Chunk>, ghost notes: seq<seq<string>>, ghost payloads: seq<string>,
                         ghost cs: seq<Chunk>, source: seq<string>) returns (out: seq<Event>)
    requires |notes| == |payloads| == |cs|
    requires forall i :: 0 <= i < |cs| ==> Ordinary(Data(payloads[i])) && payloads[i] != "[DONE]" && read(payloads[i]) == Some(cs[i])
    requires forall i, t :: 0 <= i < |cs| && t in notes[i] ==> Ordinary(Note(t))
    requires Concat(source) == Text(StreamOf(notes, payloads))
    ensures out == Translate(cs)
  {
    out := StreamOpenAiToAnthropic(read, source);
    StreamReadsBack(read, notes, payloads, cs, source);
  }
}

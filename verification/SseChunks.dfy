/** What a client reads of the rewritten stream: the choices of the source, in order, and of a chunk
    that was split every field in one of its two parts. */
module SseChunks {
  import opened Wrappers
  import opened SseFraming
  import opened SseRewriter
  import opened SseAccounting

  /** The choices of a line's chunk. */
  function LineChoices(c: Codec, line: string): seq<Json> {
    match Parsed(c, line)
    case Some(Obj(m)) => if "choices" in m && m["choices"].Arr? then m["choices"].items else []
    case _ => []
  }

  function Choices(c: Codec, lines: seq<string>): seq<Json> {
    if lines == [] then [] else LineChoices(c, lines[0]) + Choices(c, lines[1..])
  }

  lemma {:induction false} ChoicesCat(c: Codec, xs: seq<string>, ys: seq<string>)
    ensures Choices(c, xs + ys) == Choices(c, xs) + Choices(c, ys)
  {
    if xs == [] {
      assert xs + ys == ys;
    } else {
      assert (xs + ys)[1..] == xs[1..] + ys;
      ChoicesCat(c, xs[1..], ys);
      Assoc(LineChoices(c, xs[0]), Choices(c, xs[1..]), Choices(c, ys));
    }
  }

  lemma Assoc<T>(x: seq<T>, y: seq<T>, z: seq<T>)
    ensures x + (y + z) == (x + y) + z
  {
  }

  /** The fields of a chunk other than its usage and its kind are those of another. */
  ghost predicate SameBut(x: map<string, Json>, m: map<string, Json>) {
    forall k: string :: k != "usage" && k != "object" ==> (k in x <==> k in m) && (k in m ==> k in x && x[k] == m[k])
  }

  const NAMING := {"id", "created", "model", "system_fingerprint"}

  /** A chunk of usage alone: it is named like the other, and has no choices. */
  ghost predicate UsageAlone(y: map<string, Json>, m: map<string, Json>) {
    && "usage" in y && "usage" in m && y["usage"] == m["usage"]
    && "choices" in y && y["choices"] == Arr([])
    && "object" in y && y["object"] == Str("chat.completion.chunk")
    && (forall k :: k in NAMING ==> (k in y <==> k in m) && (k in m ==> k in y && y[k] == m[k]))
    && forall k :: k in y ==> k in NAMING || k in {"usage", "choices", "object"}
  }

  /** What counts as no usage: null, false, a zero, and whatever is empty. */
  lemma FalsyValues(v: Json)
    ensures !Truthy(v) <==> v in {Null, Bool(false), Str(""), Arr([]), Obj(map[])} || (v.Num? && v.digits == 0)
  {
  }

  /** Usage next to choices. */
  predicate Together(m: map<string, Json>) {
    "usage" in m && Truthy(m["usage"]) && "choices" in m && m["choices"].Arr? && |m["choices"].items| > 0
  }

  lemma RestIsSame(m: map<string, Json>)
    ensures var x := FinishChunk(m).fields;
            SameBut(x, m) && "usage" !in x && "object" in x && x["object"] == Str("chat.completion.chunk")
  {
  }

  lemma UsageIsAlone(m: map<string, Json>)
    requires "usage" in m
    ensures UsageAlone(UsageChunk(m).fields, m)
  {
  }

  /** A chunk with usage glued onto its choices becomes two lines with a blank one between: the chunk
      with everything but the usage, and the usage alone. */
  lemma SplitKeepsFields(c: Codec, line: string, m: map<string, Json>)
    returns (a: string, b: string, x: map<string, Json>, y: map<string, Json>)
    requires Faithful(c) && OneLine(line) && Parsed(c, line) == Some(Obj(m)) && Together(m)
    ensures Lines(Standardize(c, line)) == [a, "", b]
    ensures Parsed(c, a) == Some(Obj(x)) && Parsed(c, b) == Some(Obj(y))
    ensures SameBut(x, m) && "usage" !in x && "object" in x && x["object"] == Str("chat.completion.chunk")
    ensures UsageAlone(y, m)
  {
    var rest, usage := FinishChunk(m), UsageChunk(m);
    RestIsSame(m);
    UsageIsAlone(m);
    x, y := rest.fields, usage.fields;
    a, b := TwoLines(c, line, m, rest, usage);
  }

  lemma TwoLines(c: Codec, line: string, m: map<string, Json>, rest: Json, usage: Json) returns (a: string, b: string)
    requires Faithful(c) && Parsed(c, line) == Some(Obj(m)) && Together(m)
    requires rest == FinishChunk(m) && usage == UsageChunk(m)
    ensures Lines(Standardize(c, line)) == [a, "", b] && Parsed(c, a) == Some(rest) && Parsed(c, b) == Some(usage)
  {
    GluedOut(c, line, m);
    a, b := DataLine(c, rest), DataLine(c, usage);
    LinesOfJoin([a, "", b]);
  }

  /** Any other chunk keeps all its fields and gets the kind the gateway looks for. */
  lemma OtherChunksKeepFields(c: Codec, line: string, m: map<string, Json>) returns (a: string, x: map<string, Json>)
    requires Faithful(c) && OneLine(line) && Parsed(c, line) == Some(Obj(m)) && !Together(m)
    ensures Lines(Standardize(c, line)) == [a] && Parsed(c, a) == Some(Obj(x))
    ensures SameBut(x, m) && ("usage" in x <==> "usage" in m) && ("usage" in m ==> x["usage"] == m["usage"])
    ensures "object" in x && x["object"] == Str("chat.completion.chunk")
  {
    PlainOut(c, line, m);
    a, x := Standardize(c, line), m["object" := Str("chat.completion.chunk")];
    LinesOfLine(a);
  }

  /** A line that carries no chunk comes out as it is. */
  lemma OtherLinesStay(c: Codec, line: string)
    requires Parsed(c, line).None? || !Parsed(c, line).value.Obj?
    ensures Standardize(c, line) == line
  {
  }

  lemma LineKeepsChoices(c: Codec, line: string)
    requires Faithful(c) && OneLine(line)
    ensures Choices(c, OutLines(c, line)) == LineChoices(c, line)
  {
    OutLinesAreLines(c, line);
    LinesOfJoin(OutLines(c, line));
    match Parsed(c, line) {
      case Some(Obj(m)) =>
        if Together(m) {
          var a, b, x, y := SplitKeepsFields(c, line, m);
          ThreeChoices(c, a, "", b);
          assert LineChoices(c, a) == x["choices"].items && LineChoices(c, "") == [] && LineChoices(c, b) == [];
        } else {
          var a, x := OtherChunksKeepFields(c, line, m);
          OneChoice(c, a);
        }
      case _ =>
        OtherLinesStay(c, line);
        OneChoice(c, line);
    }
  }

  lemma OneChoice(c: Codec, a: string)
    ensures Choices(c, [a]) == LineChoices(c, a)
  {
    assert [a][1..] == [];
  }

  lemma ThreeChoices(c: Codec, x: string, y: string, z: string)
    ensures Choices(c, [x, y, z]) == LineChoices(c, x) + (LineChoices(c, y) + LineChoices(c, z))
  {
    OneChoice(c, z);
    assert [x, y, z][1..] == [y, z] && [y, z][1..] == [z];
    assert Choices(c, [y, z]) == LineChoices(c, y) + Choices(c, [z]);
  }

  lemma {:induction false} LinesKeepChoices(c: Codec, lines: seq<string>)
    requires Faithful(c) && forall l :: l in lines ==> OneLine(l)
    ensures Choices(c, AllOutLines(c, lines)) == Choices(c, lines)
    decreases |lines|
  {
    if lines != [] {
      assert lines[0] in lines;
      LineKeepsChoices(c, lines[0]);
      LinesKeepChoices(c, lines[1..]);
      ChoicesCat(c, OutLines(c, lines[0]), AllOutLines(c, lines[1..]));
    }
  }

  /** Read line by line, the rewritten stream has the choices of the source, all of them, in order:
      every delta and every finish reason. */
  lemma RewriteKeepsChoices(c: Codec, text: string)
    requires Faithful(c)
    ensures Choices(c, Lines(Rewrite(c, text))) == Choices(c, Lines(text))
  {
    RewriteLines(c, text);
    LinesAreLines(text);
    LinesKeepChoices(c, Lines(text));
  }
}

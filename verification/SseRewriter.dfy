/**
  The passthrough stream of the hub: every complete event is rewritten line by line to the shape
  the gateway understands, and two scans read the accounting data out of the stream.
 */
module SseRewriter {
  import opened Wrappers
  import opened SseFraming

  datatype Json =
    | Null
    | Bool(b: bool)
    | Num(digits: int, scale: nat)
    | Str(s: string)
    | Arr(items: seq<Json>)
    | Obj(fields: map<string, Json>)

  /** A JSON reader and printer; `parse` is None where `json.loads` raises. */
  datatype Codec = Codec(parse: string -> Option<Json>, print_: Json -> string)

  /** What is printed reads back, on one line, without white space around it. */
  ghost predicate Faithful(c: Codec) {
    forall v: Json :: v.Obj? ==>
      var text := c.print_(v);
      && c.parse(text) == Some(v)
      && OneLine(text) && |text| >= 2 && text[0] == '{' && text[|text| - 1] == '}'
  }

  const CHUNK := Str("chat.completion.chunk")
  const DATA := "data:"

  function Get(m: map<string, Json>, key: string): Json {
    if key in m then m[key] else Null
  }

  predicate Truthy(v: Json) {
    match v
    case Null => false
    case Bool(b) => b
    case Num(digits, _) => digits != 0
    case Str(s) => s != ""
    case Arr(items) => items != []
    case Obj(fields) => fields != map[]
  }

  predicate IsData(line: string) { |line| >= 5 && line[..5] == DATA }

  function Payload(line: string): string
    requires IsData(line)
  {
    Strip(line[5..])
  }

  /** The object a data line carries, if it carries one. */
  function Parsed(c: Codec, line: string): Option<Json> {
    if !IsData(line) || Payload(line) == "" || Payload(line) == "[DONE]" then None
    else c.parse(Payload(line))
  }

  /** Usage glued onto a chunk that also carries choices. */
  predicate Glued(m: map<string, Json>) {
    Truthy(Get(m, "usage")) && Get(m, "choices").Arr? && Get(m, "choices").items != []
  }

  function FinishChunk(m: map<string, Json>): Json {
    Obj((m - {"usage"})["object" := CHUNK])
  }

  function UsageChunk(m: map<string, Json>): Json {
    var kept := map k | k in m && k in {"id", "created", "model", "system_fingerprint"} :: m[k];
    Obj(kept["object" := CHUNK]["choices" := Arr([])]["usage" := Get(m, "usage")])
  }

  function DataLine(c: Codec, v: Json): string { DATA + " " + c.print_(v) }

  /** `_standardize_openai_usage_line` */
  function Standardize(c: Codec, line: string): string {
    match Parsed(c, line)
    case Some(Obj(m)) =>
      if Glued(m) then DataLine(c, FinishChunk(m)) + "\n\n" + DataLine(c, UsageChunk(m))
      else if Get(m, "object") == CHUNK then line
      else DataLine(c, Obj(m["object" := CHUNK]))
    case _ => line
  }

  function StandardizeAll(c: Codec, lines: seq<string>): (r: seq<string>)
    ensures |r| == |lines|
  {
    if lines == [] then [] else [Standardize(c, lines[0])] + StandardizeAll(c, lines[1..])
  }

  /** The rewriting of one event, or of a whole text: line by line. */
  function Rewrite(c: Codec, text: string): string { Join(StandardizeAll(c, Lines(text))) }

  /** What the generator yields for the events found and the text left at the end. */
  function Output(c: Codec, f: Framed): string
    decreases |f.events|
  {
    if f.events == [] then (if f.tail == "" then "" else Rewrite(c, f.tail))
    else Rewrite(c, f.events[0]) + "\n\n" + Output(c, Framed(f.events[1..], f.tail))
  }

  // ---- buffering does not show ----

  lemma {:induction false} StandardizeCat(c: Codec, xs: seq<string>, ys: seq<string>)
    ensures StandardizeAll(c, xs + ys) == StandardizeAll(c, xs) + StandardizeAll(c, ys)
  {
    if xs == [] {
      assert xs + ys == ys;
    } else {
      assert (xs + ys)[1..] == xs[1..] + ys;
      StandardizeCat(c, xs[1..], ys);
    }
  }

  lemma RewriteCat(c: Codec, a: string, b: string)
    ensures Rewrite(c, a + "\n" + b) == Rewrite(c, a) + "\n" + Rewrite(c, b)
  {
    LinesCat(a, b);
    StandardizeCat(c, Lines(a), Lines(b));
    JoinCat(StandardizeAll(c, Lines(a)), StandardizeAll(c, Lines(b)));
  }

  lemma RewriteEvents(c: Codec, a: string, b: string)
    ensures Rewrite(c, a + "\n\n" + b) == Rewrite(c, a) + "\n\n" + Rewrite(c, b)
  {
    assert a + "\n\n" + b == a + "\n" + ("" + "\n" + b);
    RewriteCat(c, a, "" + "\n" + b);
    RewriteCat(c, "", b);
    assert Rewrite(c, "") == "";
    assert Rewrite(c, a) + "\n" + ("" + "\n" + Rewrite(c, b)) == Rewrite(c, a) + "\n\n" + Rewrite(c, b);
  }

  /** The first event of a text and what follows it. */
  lemma CutFirst(text: string) returns (a: string, b: string)
    requires HasBlank(text)
    ensures text == a + "\n\n" + b && |b| < |text|
    ensures a == BeforeBlank(text) && |a| + 2 <= |text| && b == text[|a| + 2..]
    ensures Split(text) == Framed([a] + Split(b).events, Split(b).tail)
  {
    BlankPosition(text);
    a, b := BeforeBlank(text), text[|BeforeBlank(text)| + 2..];
    SplitHead(text, a, b);
  }

  lemma OutputHead(c: Codec, a: string, f: Framed)
    ensures Output(c, Framed([a] + f.events, f.tail)) == Rewrite(c, a) + "\n\n" + Output(c, f)
  {
    assert ([a] + f.events)[1..] == f.events;
  }

  /** Rewriting event by event is rewriting the whole text line by line. */
  lemma {:induction false} OutputIsRewrite(c: Codec, text: string)
    ensures Output(c, Split(text)) == Rewrite(c, text)
    decreases |text|
  {
    if HasBlank(text) {
      var a, b := CutFirst(text);
      OutputIsRewrite(c, b);
      RewriteEvents(c, a, b);
      OutputHead(c, a, Split(b));
    }
  }

  lemma {:induction false} OutputCat(c: Codec, xs: seq<string>, ys: seq<string>, tail: string)
    ensures Output(c, Framed(xs + ys, tail)) == Output(c, Framed(xs, "")) + Output(c, Framed(ys, tail))
    decreases |xs|
  {
    if xs == [] {
      assert xs + ys == ys;
    } else {
      assert (xs + ys)[1..] == xs[1..] + ys;
      OutputCat(c, xs[1..], ys, tail);
      var head := Rewrite(c, xs[0]) + "\n\n";
      assert head + (Output(c, Framed(xs[1..], "")) + Output(c, Framed(ys, tail))) ==
             (head + Output(c, Framed(xs[1..], ""))) + Output(c, Framed(ys, tail));
    }
  }

  lemma {:induction false} ConcatCat(xs: seq<string>, ys: seq<string>)
    ensures Concat(xs + ys) == Concat(xs) + Concat(ys)
  {
    if xs == [] {
      assert xs + ys == ys;
    } else {
      assert (xs + ys)[1..] == xs[1..] + ys;
      ConcatCat(xs[1..], ys);
      assert xs[0] + (Concat(xs[1..]) + Concat(ys)) == (xs[0] + Concat(xs[1..])) + Concat(ys);
    }
  }

  lemma ConcatSnoc(xs: seq<string>, x: string)
    ensures Concat(xs + [x]) == Concat(xs) + x
  {
    ConcatCat(xs, [x]);
    assert [x][1..] == [] && Concat([x]) == x + "";
  }

  /** The inner loop of `gen`: yield every complete event, keep the rest. */
  method Flush(c: Codec, text: string) returns (yielded: seq<string>, buf: string)
    ensures Concat(yielded) == Output(c, Framed(Split(text).events, ""))
    ensures buf == Split(text).tail && !HasBlank(buf)
  {
    yielded, buf := [], text;
    while HasBlank(buf)
      invariant Split(buf).tail == Split(text).tail
      invariant Concat(yielded) + Output(c, Framed(Split(buf).events, "")) == Output(c, Framed(Split(text).events, ""))
      decreases |buf|
    {
      ghost var a, b := CutFirst(buf);
      var event := BeforeBlank(buf);
      var block := Rewrite(c, event) + "\n\n";
      OutputHead(c, a, Framed(Split(b).events, ""));
      ConcatSnoc(yielded, block);
      CatAssoc(Concat(yielded), block, Output(c, Framed(Split(b).events, "")));
      yielded := yielded + [block];
      buf := buf[|event| + 2..];
    }
  }

  lemma FeedStep(c: Codec, buf: string, chunks: seq<string>, sent: string)
    requires chunks != []
    ensures var now := Split(buf + chunks[0]);
            sent + Output(c, Feed(buf, chunks)) ==
            (sent + Output(c, Framed(now.events, ""))) + Output(c, Feed(now.tail, chunks[1..]))
  {
    var now := Split(buf + chunks[0]);
    var later := Feed(now.tail, chunks[1..]);
    OutputCat(c, now.events, later.events, later.tail);
    CatAssoc(sent, Output(c, Framed(now.events, "")), Output(c, later));
  }

  /** What is left to do once the chunks are used up: yield what the buffer still holds. */
  lemma FeedEnd(c: Codec, buf: string, chunks: seq<string>, sent: string)
    requires sent + Output(c, Feed(buf, [])) == Output(c, Feed("", chunks))
    ensures sent + (if buf == "" then "" else Rewrite(c, buf)) == Rewrite(c, Concat(chunks))
  {
    FeedIsSplit("", chunks);
    assert "" + Concat(chunks) == Concat(chunks);
    OutputIsRewrite(c, Concat(chunks));
  }

  lemma Rest(chunks: seq<string>, i: nat)
    requires i < |chunks|
    ensures chunks[i..] != [] && chunks[i..][0] == chunks[i] && chunks[i..][1..] == chunks[i + 1..]
  {
  }

  /** `gen` on normal completion: what it yields, put together, is the rewriting of everything
      received, however it was cut into chunks. */
  method Passthrough(c: Codec, chunks: seq<string>) returns (yielded: seq<string>, collected: string)
    ensures Concat(yielded) == Rewrite(c, Concat(chunks))
    ensures collected == Concat(chunks)
  {
    yielded, collected := [], "";
    var buf := "";
    for i := 0 to |chunks|
      invariant collected + Concat(chunks[i..]) == Concat(chunks)
      invariant Concat(yielded) + Output(c, Feed(buf, chunks[i..])) == Output(c, Feed("", chunks))
    {
      Rest(chunks, i);
      CatAssoc(collected, chunks[i], Concat(chunks[i + 1..]));
      FeedStep(c, buf, chunks[i..], Concat(yielded));
      collected := collected + chunks[i];
      var flushed, rest := Flush(c, buf + chunks[i]);
      ConcatCat(yielded, flushed);
      yielded, buf := yielded + flushed, rest;
    }
    assert chunks[|chunks|..] == [];
    FeedEnd(c, buf, chunks, Concat(yielded));
    if buf != "" {
      ConcatSnoc(yielded, Rewrite(c, buf));
      yielded := yielded + [Rewrite(c, buf)];
    }
  }
}

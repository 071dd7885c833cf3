/**
  The translation of an OpenAI chat stream into Anthropic's events: a state machine over the
  chunks of the stream, and the grammar its output obeys.
 */
module StreamTranslator {
  import opened Wrappers
  import opened SseFraming

  datatype Usage = Usage(input: int, output: int, cached: int)

  /** One entry of `delta.tool_calls`; absent arguments are empty. */
  datatype ToolDelta = ToolDelta(index: int, id: string, name: string, args: string)

  /** What is read of one chunk: a falsy field is None, empty, or no tools. */
  datatype Chunk = Chunk(usage: Option<Usage>, finish: Option<string>, text: string, tools: seq<ToolDelta>)

  datatype Kind = TextBlock | ToolBlock(id: string, name: string)

  datatype Event =
    | MessageStart
    | BlockStart(index: nat, kind: Kind)
    | TextDelta(index: nat, text: string)
    | JsonDelta(index: nat, json: string)
    | BlockStop(index: nat)
    | MessageDelta(stopReason: string, outputTokens: int)
    | MessageStop

  /** `blocks` maps tool indices to block indices, and -1 to the text block. */
  datatype State = State(blocks: map<int, nat>, textOpen: bool, next: nat,
                         finish: Option<string>, usage: Option<Usage>, out: seq<Event>)

  const INIT := State(map[], false, 0, None, None, [MessageStart])

  function DoText(s: State, piece: string): State
    requires s.textOpen ==> -1 in s.blocks
  {
    if piece == "" then s
    else if s.textOpen then s.(out := s.out + [TextDelta(s.blocks[-1], piece)])
    else s.(textOpen := true, blocks := s.blocks[-1 := s.next], next := s.next + 1,
            out := s.out + [BlockStart(s.next, TextBlock), TextDelta(s.next, piece)])
  }

  function DoTool(s: State, t: ToolDelta): State {
    var s1 := if t.index in s.blocks then s
              else s.(blocks := s.blocks[t.index := s.next], next := s.next + 1,
                      out := s.out + [BlockStart(s.next, ToolBlock(t.id, t.name))]);
    if t.args == "" then s1 else s1.(out := s1.out + [JsonDelta(s1.blocks[t.index], t.args)])
  }

  function DoTools(s: State, ts: seq<ToolDelta>): State
    decreases |ts|
  {
    if ts == [] then s else DoTools(DoTool(s, ts[0]), ts[1..])
  }

  lemma {:induction false} ToolsKeepText(s: State, ts: seq<ToolDelta>)
    requires s.textOpen ==> -1 in s.blocks
    ensures DoTools(s, ts).textOpen ==> -1 in DoTools(s, ts).blocks
    decreases |ts|
  {
    if ts != [] {
      ToolsKeepText(DoTool(s, ts[0]), ts[1..]);
    }
  }

  function Later<T>(a: Option<T>, b: Option<T>): Option<T> { if b.Some? then b else a }

  function DoChunk(s: State, c: Chunk): (t: State)
    requires s.textOpen ==> -1 in s.blocks
    ensures t.textOpen ==> -1 in t.blocks
  {
    var s1 := DoText(s.(usage := Later(s.usage, c.usage), finish := Later(s.finish, c.finish)), c.text);
    ToolsKeepText(s1, c.tools);
    DoTools(s1, c.tools)
  }

  function DoChunks(s: State, cs: seq<Chunk>): (t: State)
    requires s.textOpen ==> -1 in s.blocks
    ensures t.textOpen ==> -1 in t.blocks
    decreases |cs|
  {
    if cs == [] then s else DoChunks(DoChunk(s, cs[0]), cs[1..])
  }

  /** `_STOP_MAP`, with `end_turn` for anything else. */
  function StopReason(finish: Option<string>): string {
    if finish == Some("length") then "max_tokens"
    else if finish == Some("tool_calls") || finish == Some("function_call") then "tool_use"
    else "end_turn"
  }

  predicate IsToolBlock(blocks: map<int, nat>, b: nat) {
    exists k :: k in blocks && k >= 0 && blocks[k] == b
  }

  /** The blocks of the tools with non-negative indices, in block order, from `b` on. */
  function ToolStops(s: State, b: nat): seq<Event>
    decreases s.next - b
  {
    if b >= s.next then []
    else (if IsToolBlock(s.blocks, b) then [BlockStop(b)] else []) + ToolStops(s, b + 1)
  }

  function Finish(s: State): seq<Event>
    requires s.textOpen ==> -1 in s.blocks
  {
    s.out
    + (if s.textOpen then [BlockStop(s.blocks[-1])] else [])
    + ToolStops(s, 0)
    + [MessageDelta(StopReason(s.finish), if s.usage.Some? then s.usage.value.output else 0), MessageStop]
  }

  function Translate(cs: seq<Chunk>): seq<Event> { Finish(DoChunks(INIT, cs)) }

  // ---- reading chunks out of the text ----

  predicate IsData(line: string) { |line| >= 5 && line[..5] == "data:" }

  /** `_iter_openai_sse`: `read` is None where the payload is not JSON. */
  function LineChunks(read: string -> Option<Chunk>, lines: seq<string>): seq<Chunk> {
    if lines == [] then []
    else (if LineChunk(read, lines[0]).Some? then [LineChunk(read, lines[0]).value] else []) + LineChunks(read, lines[1..])
  }

  function EventChunks(read: string -> Option<Chunk>, events: seq<string>): seq<Chunk> {
    if events == [] then [] else LineChunks(read, Lines(events[0])) + EventChunks(read, events[1..])
  }

  /** The translation of a whole source text: an unfinished last event is not translated. */
  function TranslateText(read: string -> Option<Chunk>, text: string): seq<Event> {
    Translate(EventChunks(read, Split(text).events))
  }

  lemma {:induction false} DoChunksCat(s: State, xs: seq<Chunk>, ys: seq<Chunk>)
    requires s.textOpen ==> -1 in s.blocks
    ensures DoChunks(s, xs + ys) == DoChunks(DoChunks(s, xs), ys)
    decreases |xs|
  {
    if xs == [] {
      assert xs + ys == ys;
    } else {
      assert (xs + ys)[1..] == xs[1..] + ys;
      DoChunksCat(DoChunk(s, xs[0]), xs[1..], ys);
    }
  }

  lemma {:induction false} EventChunksCat(read: string -> Option<Chunk>, xs: seq<string>, ys: seq<string>)
    ensures EventChunks(read, xs + ys) == EventChunks(read, xs) + EventChunks(read, ys)
  {
    if xs == [] {
      assert xs + ys == ys;
    } else {
      assert (xs + ys)[1..] == xs[1..] + ys;
      EventChunksCat(read, xs[1..], ys);
      var (a, b, c) := (LineChunks(read, Lines(xs[0])), EventChunks(read, xs[1..]), EventChunks(read, ys));
      assert a + (b + c) == (a + b) + c;
    }
  }

  /** `stream_openai_to_anthropic` over a source that ends normally: the events depend on the
      text received and not on how it was cut into chunks. */
  method StreamOpenAiToAnthropic(read: string -> Option<Chunk>, source: seq<string>) returns (out: seq<Event>)
    ensures out == TranslateText(read, Concat(source))
  {
    var s := INIT;
    var buffer := "";
    for i := 0 to |source|
      invariant s.textOpen ==> -1 in s.blocks
      invariant DoChunks(s, EventChunks(read, Feed(buffer, source[i..]).events)) ==
                DoChunks(INIT, EventChunks(read, Feed("", source).events))
    {
      assert source[i..][1..] == source[i + 1..];
      NextPiece(read, s, buffer, source[i..]);
      s, buffer := ProcessBuffer(read, s, buffer + source[i]);
    }
    FeedIsSplit("", source);
    assert "" + Concat(source) == Concat(source);
    out := Finish(s);
  }

  /** The records complete after the next chunk, then those that come later. */
  lemma NextPiece(read: string -> Option<Chunk>, s: State, buffer: string, source: seq<string>)
    requires source != [] && (s.textOpen ==> -1 in s.blocks)
    ensures var now := Split(buffer + source[0]);
            DoChunks(s, EventChunks(read, Feed(buffer, source).events)) ==
            DoChunks(DoChunks(s, EventChunks(read, now.events)), EventChunks(read, Feed(now.tail, source[1..]).events))
  {
    var now := Split(buffer + source[0]);
    var later := Feed(now.tail, source[1..]);
    EventChunksCat(read, now.events, later.events);
    DoChunksCat(s, EventChunks(read, now.events), EventChunks(read, later.events));
  }

  lemma NextRecord(read: string -> Option<Chunk>, s: State, record: string, rest: seq<string>)
    requires s.textOpen ==> -1 in s.blocks
    ensures DoChunks(s, EventChunks(read, [record] + rest)) ==
            DoChunks(DoChunks(s, LineChunks(read, Lines(record))), EventChunks(read, rest))
  {
    assert ([record] + rest)[1..] == rest;
    DoChunksCat(s, LineChunks(read, Lines(record)), EventChunks(read, rest));
  }

  /** The loop over the complete records of the buffer; what is left waits for its blank line. */
  method ProcessBuffer(read: string -> Option<Chunk>, s0: State, text: string) returns (s: State, buffer: string)
    requires s0.textOpen ==> -1 in s0.blocks
    ensures s == DoChunks(s0, EventChunks(read, Split(text).events)) && buffer == Split(text).tail
  {
    s, buffer := s0, text;
    while HasBlank(buffer)
      invariant s.textOpen ==> -1 in s.blocks
      invariant DoChunks(s, EventChunks(read, Split(buffer).events)) == DoChunks(s0, EventChunks(read, Split(text).events))
      invariant Split(buffer).tail == Split(text).tail
      decreases |buffer|
    {
      BlankPosition(buffer);
      var record := BeforeBlank(buffer);
      ghost var rest := buffer[|record| + 2..];
      SplitHead(buffer, record, rest);
      NextRecord(read, s, record, Split(rest).events);
      s := ProcessRecord(read, s, record);
      buffer := buffer[|record| + 2..];
    }
  }

  /** The chunk a line carries, if it carries one. */
  function LineChunk(read: string -> Option<Chunk>, raw: string): Option<Chunk> {
    var line := Strip(raw);
    var payload := if IsData(line) then Strip(line[5..]) else "";
    if payload != "" && payload != "[DONE]" then read(payload) else None
  }

  lemma NextLine(read: string -> Option<Chunk>, s: State, lines: seq<string>)
    requires lines != [] && (s.textOpen ==> -1 in s.blocks)
    ensures DoChunks(s, LineChunks(read, lines)) ==
            DoChunks(if LineChunk(read, lines[0]).Some? then DoChunk(s, LineChunk(read, lines[0]).value) else s,
                     LineChunks(read, lines[1..]))
  {
    var rest := LineChunks(read, lines[1..]);
    match LineChunk(read, lines[0]) {
      case None => assert LineChunks(read, lines) == rest;
      case Some(c) => assert LineChunks(read, lines)[0] == c && LineChunks(read, lines)[1..] == rest;
    }
  }

  /** The loops over the data lines of one record. */
  method ProcessRecord(read: string -> Option<Chunk>, s0: State, record: string) returns (s: State)
    requires s0.textOpen ==> -1 in s0.blocks
    ensures s == DoChunks(s0, LineChunks(read, Lines(record)))
  {
    s := s0;
    var lines := Lines(record);
    for i := 0 to |lines|
      invariant s.textOpen ==> -1 in s.blocks
      invariant DoChunks(s, LineChunks(read, lines[i..])) == DoChunks(s0, LineChunks(read, lines))
    {
      assert lines[i..][1..] == lines[i + 1..];
      NextLine(read, s, lines[i..]);
      match LineChunk(read, lines[i]) {
        case None =>
        case Some(c) => s := ProcessChunk(s, c);
      }
    }
    assert lines[|lines|..] == [];
  }

  /** The body of the loop over chunks: usage, finish reason, text, then the tool calls. */
  method ProcessChunk(s0: State, c: Chunk) returns (s: State)
    requires s0.textOpen ==> -1 in s0.blocks
    ensures s == DoChunk(s0, c)
  {
    s := s0;
    if c.usage.Some? { s := s.(usage := c.usage); }
    if c.finish.Some? { s := s.(finish := c.finish); }
    if c.text != "" {
      if !s.textOpen {
        s := s.(textOpen := true, blocks := s.blocks[-1 := s.next], out := s.out + [BlockStart(s.next, TextBlock)],
                next := s.next + 1);
      }
      s := s.(out := s.out + [TextDelta(s.blocks[-1], c.text)]);
    }
    ghost var s1 := DoText(s0.(usage := Later(s0.usage, c.usage), finish := Later(s0.finish, c.finish)), c.text);
    assert s == s1;
    for i := 0 to |c.tools|
      invariant DoTools(s, c.tools[i..]) == DoTools(s1, c.tools)
    {
      assert c.tools[i..][1..] == c.tools[i + 1..];
      var t := c.tools[i];
      if t.index !in s.blocks {
        s := s.(blocks := s.blocks[t.index := s.next], out := s.out + [BlockStart(s.next, ToolBlock(t.id, t.name))],
                next := s.next + 1);
      }
      if t.args != "" {
        s := s.(out := s.out + [JsonDelta(s.blocks[t.index], t.args)]);
      }
    }
    assert c.tools[|c.tools|..] == [];
  }
}

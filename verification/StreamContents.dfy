/** What a client assembles from the translated stream is what the source stream said: the same
    text, and every tool call with its own id, name and arguments. */
module StreamContents {
  import opened Wrappers
  import opened StreamTranslator

  /** A block of the message a client assembles. */
  datatype Block = Text(text: string) | Tool(id: string, name: string, json: string)

  /** The client: a start appends an empty block, a delta extends the block it names. */
  function Read(c: seq<Block>, e: Event): seq<Block> {
    match e
    case BlockStart(_, TextBlock) => c + [Text("")]
    case BlockStart(_, ToolBlock(id, name)) => c + [Tool(id, name, "")]
    case TextDelta(i, t) => if i < |c| && c[i].Text? then c[i := Text(c[i].text + t)] else c
    case JsonDelta(i, j) => if i < |c| && c[i].Tool? then c[i := c[i].(json := c[i].json + j)] else c
    case _ => c
  }

  function Assemble(out: seq<Event>): seq<Block> {
    if out == [] then [] else Read(Assemble(out[..|out| - 1]), out[|out| - 1])
  }

  lemma AssembleSnoc(out: seq<Event>, e: Event)
    ensures Assemble(out + [e]) == Read(Assemble(out), e)
  {
    assert (out + [e])[..|out|] == out;
  }

  lemma {:induction false} AssembleSkips(out: seq<Event>, es: seq<Event>)
    requires forall e :: e in es ==> e.BlockStop? || e.MessageDelta? || e.MessageStop?
    ensures Assemble(out + es) == Assemble(out)
    decreases |es|
  {
    if es == [] {
      assert out + es == out;
    } else {
      AssembleSnoc(out, es[0]);
      assert es[0] in es && Read(Assemble(out), es[0]) == Assemble(out);
      assert out + es == (out + [es[0]]) + es[1..];
      AssembleSkips(out + [es[0]], es[1..]);
    }
  }

  // ---- what the source says ----

  function SourceText(cs: seq<Chunk>): string {
    if cs == [] then "" else cs[0].text + SourceText(cs[1..])
  }

  function SourceTools(cs: seq<Chunk>): seq<ToolDelta> {
    if cs == [] then [] else cs[0].tools + SourceTools(cs[1..])
  }

  /** The arguments given for tool `k`, in order. */
  function ArgsOf(ts: seq<ToolDelta>, k: int): string {
    if ts == [] then "" else ArgsOf(ts[..|ts| - 1], k) + (if ts[|ts| - 1].index == k then ts[|ts| - 1].args else "")
  }

  datatype Named = Named(id: string, name: string)

  /** The id and name of tool `k`: those of its first delta. */
  function FirstOf(ts: seq<ToolDelta>, k: int): Option<Named> {
    if ts == [] then None
    else
      var before, t := FirstOf(ts[..|ts| - 1], k), ts[|ts| - 1];
      if before.None? && t.index == k then Some(Named(t.id, t.name)) else before
  }

  lemma Snoc(ts: seq<ToolDelta>, t: ToolDelta, k: int)
    ensures ArgsOf(ts + [t], k) == ArgsOf(ts, k) + (if t.index == k then t.args else "")
    ensures FirstOf(ts + [t], k) == (if FirstOf(ts, k).None? && t.index == k then Some(Named(t.id, t.name)) else FirstOf(ts, k))
  {
    assert (ts + [t])[..|ts|] == ts;
  }

  lemma {:induction false} NoArgs(ts: seq<ToolDelta>, k: int)
    requires FirstOf(ts, k).None?
    ensures ArgsOf(ts, k) == ""
  {
    if ts != [] {
      NoArgs(ts[..|ts| - 1], k);
    }
  }

  // ---- the relation every step keeps ----

  /** Blocks are fresh and distinct. */
  ghost predicate Numbered(s: State) {
    && |Assemble(s.out)| == s.next
    && (forall j :: j in s.blocks ==> s.blocks[j] < s.next)
    && (forall i, j :: i in s.blocks && j in s.blocks && i != j ==> s.blocks[i] != s.blocks[j])
    && (s.textOpen ==> -1 in s.blocks)
  }

  /** The only text block, if any, holds the text so far. */
  ghost predicate Says(s: State, said: string)
    requires Numbered(s)
  {
    var c := Assemble(s.out);
    && (s.textOpen <==> said != "")
    && (s.textOpen ==> c[s.blocks[-1]] == Text(said))
    && (forall i :: 0 <= i < |c| ==> (c[i].Text? <==> s.textOpen && i == s.blocks[-1]))
  }

  /** The block of tool `k`, if any, holds its call so far. */
  ghost predicate Calls(s: State, seen: seq<ToolDelta>, k: int)
    requires Numbered(s)
  {
    && (k in s.blocks <==> FirstOf(seen, k).Some?)
    && (k in s.blocks ==>
          Assemble(s.out)[s.blocks[k]] == Tool(FirstOf(seen, k).value.id, FirstOf(seen, k).value.name, ArgsOf(seen, k)))
  }

  ghost predicate Holds(s: State, said: string, seen: seq<ToolDelta>, k: int) {
    Numbered(s) && Says(s, said) && Calls(s, seen, k)
  }

  /** A state with one more event put out. */
  function With(s: State, e: Event): State { s.(out := s.out + [e]) }

  /** The state after a block is started for `key`. */
  function Started(s: State, key: int, kind: Kind): State {
    With(s, BlockStart(s.next, kind)).(blocks := s.blocks[key := s.next], next := s.next + 1,
                                       textOpen := s.textOpen || kind.TextBlock?)
  }

  lemma StartTextHolds(s: State, seen: seq<ToolDelta>, k: int, piece: string)
    requires Holds(s, "", seen, k) && k >= 0 && piece != "" && !s.textOpen
    ensures Holds(With(Started(s, -1, TextBlock), TextDelta(s.next, piece)), piece, seen, k)
  {
    var s1 := Started(s, -1, TextBlock);
    var t := With(s1, TextDelta(s.next, piece));
    AssembleSnoc(s.out, BlockStart(s.next, TextBlock));
    AssembleSnoc(s1.out, TextDelta(s.next, piece));
    assert "" + piece == piece;
    var c := Assemble(s.out);
    assert Assemble(t.out) == c + [Text(piece)];
  }

  lemma MoreTextHolds(s: State, said: string, seen: seq<ToolDelta>, k: int, piece: string)
    requires Holds(s, said, seen, k) && k >= 0 && s.textOpen
    ensures Holds(With(s, TextDelta(s.blocks[-1], piece)), said + piece, seen, k)
  {
    var t := With(s, TextDelta(s.blocks[-1], piece));
    AssembleSnoc(s.out, TextDelta(s.blocks[-1], piece));
    var c := Assemble(s.out);
    assert Assemble(t.out) == c[s.blocks[-1] := Text(said + piece)];
  }

  lemma DoTextHolds(s: State, said: string, seen: seq<ToolDelta>, k: int, piece: string)
    requires Holds(s, said, seen, k) && k >= 0
    ensures Holds(DoText(s, piece), said + piece, seen, k)
  {
    if piece == "" {
      assert said + piece == said;
    } else if s.textOpen {
      MoreTextHolds(s, said, seen, k, piece);
    } else {
      StartTextHolds(s, seen, k, piece);
      assert said + piece == piece;
      assert DoText(s, piece).out == With(Started(s, -1, TextBlock), TextDelta(s.next, piece)).out;
    }
  }

  lemma StartToolHolds(s: State, said: string, seen: seq<ToolDelta>, k: int, t: ToolDelta)
    requires Holds(s, said, seen, k) && k >= 0 && t.index !in s.blocks
    ensures Holds(Started(s, t.index, ToolBlock(t.id, t.name)), said, seen + [t.(args := "")], k)
  {
    Snoc(seen, t.(args := ""), k);
    var kind := ToolBlock(t.id, t.name);
    var u := Started(s, t.index, kind);
    AssembleSnoc(s.out, BlockStart(s.next, kind));
    var c := Assemble(s.out);
    assert Assemble(u.out) == c + [Tool(t.id, t.name, "")];
    if t.index == k {
      NoArgs(seen, k);
    }
  }

  lemma ToolArgsHold(s: State, said: string, seen: seq<ToolDelta>, k: int, t: ToolDelta)
    requires Holds(s, said, seen, k) && k >= 0 && t.index in s.blocks
    ensures Holds(With(s, JsonDelta(s.blocks[t.index], t.args)), said, seen + [t], k)
  {
    Snoc(seen, t, k);
    AssembleSnoc(s.out, JsonDelta(s.blocks[t.index], t.args));
  }

  /** A first delta counts as a naming one followed by one with the arguments. */
  lemma SplitDelta(seen: seq<ToolDelta>, t: ToolDelta, k: int)
    ensures ArgsOf(seen + [t.(args := "")] + [t], k) == ArgsOf(seen + [t], k)
    ensures FirstOf(seen + [t.(args := "")] + [t], k) == FirstOf(seen + [t], k)
  {
    Snoc(seen, t, k);
    Snoc(seen, t.(args := ""), k);
    Snoc(seen + [t.(args := "")], t, k);
  }

  lemma DoToolHolds(s: State, said: string, seen: seq<ToolDelta>, k: int, t: ToolDelta)
    requires Holds(s, said, seen, k) && k >= 0
    ensures Holds(DoTool(s, t), said, seen + [t], k)
  {
    var isNew := t.index !in s.blocks;
    var s1 := if isNew then Started(s, t.index, ToolBlock(t.id, t.name)) else s;
    var seen1 := if isNew then seen + [t.(args := "")] else seen;
    if isNew {
      StartToolHolds(s, said, seen, k, t);
      SplitDelta(seen, t, k);
    }
    if t.args != "" {
      ToolArgsHold(s1, said, seen1, k, t);
    } else {
      Snoc(seen, t, k);
      assert t.(args := "") == t;
    }
  }

  lemma {:induction false} DoToolsHolds(s: State, said: string, seen: seq<ToolDelta>, k: int, ts: seq<ToolDelta>)
    requires Holds(s, said, seen, k) && k >= 0
    ensures Holds(DoTools(s, ts), said, seen + ts, k)
    decreases |ts|
  {
    if ts == [] {
      assert seen + ts == seen;
    } else {
      DoToolHolds(s, said, seen, k, ts[0]);
      DoToolsHolds(DoTool(s, ts[0]), said, seen + [ts[0]], k, ts[1..]);
      assert seen + ts == (seen + [ts[0]]) + ts[1..];
    }
  }

  lemma DoChunkHolds(s: State, said: string, seen: seq<ToolDelta>, k: int, c: Chunk)
    requires Holds(s, said, seen, k) && k >= 0
    ensures Holds(DoChunk(s, c), said + c.text, seen + c.tools, k)
  {
    var s0 := s.(usage := Later(s.usage, c.usage), finish := Later(s.finish, c.finish));
    assert Holds(s0, said, seen, k);
    DoTextHolds(s0, said, seen, k, c.text);
    DoToolsHolds(DoText(s0, c.text), said + c.text, seen, k, c.tools);
  }

  lemma Assoc<T>(x: seq<T>, y: seq<T>, z: seq<T>)
    ensures x + (y + z) == (x + y) + z
  {
  }

  lemma {:induction false} DoChunksHolds(s: State, said: string, seen: seq<ToolDelta>, k: int, cs: seq<Chunk>)
    requires Holds(s, said, seen, k) && k >= 0
    ensures Holds(DoChunks(s, cs), said + SourceText(cs), seen + SourceTools(cs), k)
    decreases |cs|
  {
    if cs == [] {
      assert said + "" == said && seen + [] == seen;
    } else {
      var c := cs[0];
      DoChunkHolds(s, said, seen, k, c);
      DoChunksHolds(DoChunk(s, c), said + c.text, seen + c.tools, k, cs[1..]);
      Assoc(said, c.text, SourceText(cs[1..]));
      Assoc(seen, c.tools, SourceTools(cs[1..]));
    }
  }

  lemma {:induction false} ToolStopsAreStops(s: State, b: nat)
    ensures forall e :: e in ToolStops(s, b) ==> e.BlockStop?
    decreases s.next - b
  {
    if b < s.next {
      ToolStopsAreStops(s, b + 1);
    }
  }

  lemma FinishAddsNothing(s: State)
    requires s.textOpen ==> -1 in s.blocks
    ensures Assemble(Finish(s)) == Assemble(s.out)
  {
    ToolStopsAreStops(s, 0);
    var closing := (if s.textOpen then [BlockStop(s.blocks[-1])] else []) + ToolStops(s, 0)
      + [MessageDelta(StopReason(s.finish), if s.usage.Some? then s.usage.value.output else 0), MessageStop];
    assert Finish(s) == s.out + closing;
    AssembleSkips(s.out, closing);
  }

  /** The assembled message holds the source's text, all of it in one text block and in no
      other, or no text block when the source has no text. */
  lemma TextIsKept(cs: seq<Chunk>)
    ensures var c := Assemble(Translate(cs));
            if SourceText(cs) == "" then forall i :: 0 <= i < |c| ==> c[i].Tool?
            else exists b :: 0 <= b < |c| && c[b] == Text(SourceText(cs)) &&
                             forall i :: 0 <= i < |c| && i != b ==> c[i].Tool?
  {
    Start(0);
    DoChunksHolds(INIT, "", [], 0, cs);
    assert "" + SourceText(cs) == SourceText(cs);
    FinishAddsNothing(DoChunks(INIT, cs));
  }

  lemma Start(k: int)
    ensures Holds(INIT, "", [], k)
  {
    assert INIT.out[..0] == [];
    assert Assemble([]) == [];
    assert Assemble(INIT.out) == [];
  }

  /** Every tool the source calls under a non-negative index has a block of its own, which
      holds its first id and name and its arguments in order. */
  lemma CallsAreKept(cs: seq<Chunk>, k: nat)
    ensures var blocks, first := DoChunks(INIT, cs).blocks, FirstOf(SourceTools(cs), k);
            && (k in blocks <==> first.Some?)
            && (first.Some? ==>
                  && blocks[k] < |Assemble(Translate(cs))|
                  && Assemble(Translate(cs))[blocks[k]] == Tool(first.value.id, first.value.name, ArgsOf(SourceTools(cs), k))
                  && forall j :: j in blocks && j != k ==> blocks[j] != blocks[k])
  {
    Start(k);
    DoChunksHolds(INIT, "", [], k, cs);
    assert [] + SourceTools(cs) == SourceTools(cs);
    FinishAddsNothing(DoChunks(INIT, cs));
  }

  // ---- the closing event ----

  /** The last finish reason and the last usage of the stream. */
  function LastFinish(cs: seq<Chunk>): Option<string> {
    if cs == [] then None
    else if cs[|cs| - 1].finish.Some? then cs[|cs| - 1].finish
    else LastFinish(cs[..|cs| - 1])
  }

  function LastUsage(cs: seq<Chunk>): Option<Usage> {
    if cs == [] then None
    else if cs[|cs| - 1].usage.Some? then cs[|cs| - 1].usage
    else LastUsage(cs[..|cs| - 1])
  }

  lemma {:induction false} ToolsKeepClosing(s: State, ts: seq<ToolDelta>)
    ensures DoTools(s, ts).finish == s.finish && DoTools(s, ts).usage == s.usage
    decreases |ts|
  {
    if ts != [] {
      ToolsKeepClosing(DoTool(s, ts[0]), ts[1..]);
    }
  }

  lemma {:induction false} ClosingIsLast(cs: seq<Chunk>)
    ensures DoChunks(INIT, cs).finish == LastFinish(cs) && DoChunks(INIT, cs).usage == LastUsage(cs)
    decreases |cs|
  {
    if cs != [] {
      var (front, c) := (cs[..|cs| - 1], cs[|cs| - 1]);
      ClosingIsLast(front);
      assert cs == front + [c] && [c][1..] == [];
      DoChunksCat(INIT, front, [c]);
      var s := DoChunks(INIT, front);
      var s1 := DoText(s.(usage := Later(s.usage, c.usage), finish := Later(s.finish, c.finish)), c.text);
      ToolsKeepClosing(s1, c.tools);
      assert DoChunks(s, [c]) == DoChunk(s, c);
    }
  }

  /** The message ends with its stop reason and its output tokens: that of the last finish reason
      given, cut short, a tool call or anything else, and those of the last usage given, or none. */
  lemma ClosingIsKept(cs: seq<Chunk>)
    ensures var out := Translate(cs);
            && |out| >= 2
            && out[|out| - 2].MessageDelta? && out[|out| - 1] == MessageStop
            && out[|out| - 2].stopReason == (if LastFinish(cs) == Some("length") then "max_tokens"
                                             else if LastFinish(cs) in {Some("tool_calls"), Some("function_call")} then "tool_use"
                                             else "end_turn")
            && out[|out| - 2].outputTokens == (if LastUsage(cs).Some? then LastUsage(cs).value.output else 0)
  {
    ClosingIsLast(cs);
  }
}

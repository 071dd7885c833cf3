/** The translated stream obeys the grammar of Anthropic's events, exactly when the source's
    tool indices let it. */
module StreamGrammar {
  import opened Wrappers
  import opened StreamTranslator

  // ---- the grammar ----

  /** Blocks are numbered in order of their start; `open` are the ones not yet stopped. */
  datatype Grammar = Grammar(next: nat, open: map<nat, Kind>)

  const EMPTY := Some(Grammar(0, map[]))

  /** One event of the middle of a message; None once the grammar is violated. */
  function Accept(g: Option<Grammar>, e: Event): Option<Grammar> {
    if g.None? then None
    else
      var open := g.value.open;
      match e
      case BlockStart(i, k) => if i == g.value.next then Some(Grammar(i + 1, open[i := k])) else None
      case TextDelta(i, _) => if i in open && open[i].TextBlock? then g else None
      case JsonDelta(i, _) => if i in open && open[i].ToolBlock? then g else None
      case BlockStop(i) => if i in open then Some(g.value.(open := open - {i})) else None
      case _ => None
  }

  function AcceptAll(g: Option<Grammar>, es: seq<Event>): Option<Grammar>
    decreases |es|
  {
    if es == [] then g else AcceptAll(Accept(g, es[0]), es[1..])
  }

  /** message_start, blocks started in order with deltas of their kind between start and stop,
      every block stopped exactly once, message_delta, message_stop. */
  ghost predicate WellFormed(out: seq<Event>) {
    && |out| >= 3 && out[0] == MessageStart
    && out[|out| - 2].MessageDelta? && out[|out| - 1] == MessageStop
    && AcceptAll(EMPTY, out[1..|out| - 2]).Some?
    && AcceptAll(EMPTY, out[1..|out| - 2]).value.open == map[]
  }

  /** A tool delta that has a block of its own, or none and needs none. */
  predicate ToolFits(textSeen: bool, t: ToolDelta) {
    t.index >= 0 || (t.index == -1 && textSeen && t.args == "")
  }

  predicate ToolsFit(textSeen: bool, ts: seq<ToolDelta>)
    decreases |ts|
  {
    ts == [] || (ToolFits(textSeen, ts[0]) && ToolsFit(textSeen, ts[1..]))
  }

  predicate Fits(textSeen: bool, cs: seq<Chunk>)
    decreases |cs|
  {
    cs == [] ||
    (ToolsFit(textSeen || cs[0].text != "", cs[0].tools) && Fits(textSeen || cs[0].text != "", cs[1..]))
  }

  lemma {:induction false} AcceptCat(g: Option<Grammar>, xs: seq<Event>, ys: seq<Event>)
    ensures AcceptAll(g, xs + ys) == AcceptAll(AcceptAll(g, xs), ys)
    decreases |xs|
  {
    if xs == [] {
      assert xs + ys == ys;
    } else {
      assert (xs + ys)[1..] == xs[1..] + ys;
      AcceptCat(Accept(g, xs[0]), xs[1..], ys);
    }
  }

  lemma AcceptOne(g: Option<Grammar>, e: Event)
    ensures AcceptAll(g, [e]) == Accept(g, e)
  {
    assert [e][1..] == [];
  }

  /** Where the grammar is after the events put out so far. */
  ghost function Reached(s: State): Option<Grammar>
    requires s.out != []
  {
    AcceptAll(EMPTY, s.out[1..])
  }

  lemma ReachedSnoc(s: State, e: Event)
    requires s.out != []
    ensures Reached(s.(out := s.out + [e])) == Accept(Reached(s), e)
  {
    assert (s.out + [e])[1..] == s.out[1..] + [e];
    AcceptCat(EMPTY, s.out[1..], [e]);
    AcceptOne(Reached(s), e);
  }

  // ---- what every step keeps ----

  ghost predicate Injective(m: map<int, nat>) {
    forall j, k :: j in m && k in m && j != k ==> m[j] != m[k]
  }

  ghost predicate Owned(blocks: map<int, nat>, b: nat) { exists k :: k in blocks && blocks[k] == b }

  ghost predicate AllOwned(blocks: map<int, nat>, open: map<nat, Kind>) { forall b :: b in open ==> Owned(blocks, b) }

  ghost predicate AllOpen(blocks: map<int, nat>, open: map<nat, Kind>, next: nat) {
    forall k :: k in blocks ==> k >= -1 && blocks[k] < next && blocks[k] in open && (open[blocks[k]].TextBlock? <==> k == -1)
  }

  /** The open blocks are the translator's blocks, the text block under -1. */
  ghost predicate Agree(blocks: map<int, nat>, open: map<nat, Kind>, next: nat) {
    AllOpen(blocks, open, next) && AllOwned(blocks, open) && Injective(blocks)
  }

  ghost predicate Inv(s: State) {
    && s.out != [] && s.out[0] == MessageStart
    && Reached(s).Some? && Reached(s).value.next == s.next
    && Agree(s.blocks, Reached(s).value.open, s.next)
    && (s.textOpen <==> -1 in s.blocks)
  }

  lemma OneMoreAgrees(blocks: map<int, nat>, open: map<nat, Kind>, next: nat, key: int, kind: Kind)
    requires Agree(blocks, open, next) && key >= -1 && key !in blocks && (kind.TextBlock? <==> key == -1)
    ensures Agree(blocks[key := next], open[next := kind], next + 1)
  {
    OneMoreOpen(blocks, open, next, key, kind);
    OneMoreOwned(blocks, open, next, key, kind);
    OneMoreInjective(blocks, next, key);
  }

  lemma OneMoreOpen(blocks: map<int, nat>, open: map<nat, Kind>, next: nat, key: int, kind: Kind)
    requires AllOpen(blocks, open, next) && key >= -1 && key !in blocks && (kind.TextBlock? <==> key == -1)
    ensures AllOpen(blocks[key := next], open[next := kind], next + 1)
  {
  }

  lemma OneMoreOwned(blocks: map<int, nat>, open: map<nat, Kind>, next: nat, key: int, kind: Kind)
    requires AllOwned(blocks, open) && key !in blocks
    ensures AllOwned(blocks[key := next], open[next := kind])
  {
    var bs := blocks[key := next];
    forall b | b in open[next := kind] ensures Owned(bs, b) {
      if b == next {
        assert bs[key] == b;
      } else {
        assert Owned(blocks, b);
        var k :| k in blocks && blocks[k] == b;
        assert bs[k] == b;
      }
    }
  }

  lemma OneMoreInjective(blocks: map<int, nat>, next: nat, key: int)
    requires Injective(blocks) && forall k :: k in blocks ==> blocks[k] < next
    ensures Injective(blocks[key := next])
  {
  }

  lemma StartKeeps(s: State, key: int, kind: Kind)
    requires Inv(s) && key >= -1 && key !in s.blocks && (kind.TextBlock? <==> key == -1)
    ensures Inv(s.(blocks := s.blocks[key := s.next], next := s.next + 1, textOpen := s.textOpen || key == -1,
                   out := s.out + [BlockStart(s.next, kind)]))
  {
    var e := BlockStart(s.next, kind);
    ReachedSnoc(s, e);
    var t := s.(blocks := s.blocks[key := s.next], next := s.next + 1, textOpen := s.textOpen || key == -1, out := s.out + [e]);
    var open := Reached(s).value.open;
    assert t.out == s.(out := s.out + [e]).out;
    assert Reached(t) == Accept(Reached(s), e) == Some(Grammar(s.next + 1, open[s.next := kind]));
    OneMoreAgrees(s.blocks, open, s.next, key, kind);
  }

  lemma DeltaKeeps(s: State, key: int, e: Event)
    requires Inv(s) && key in s.blocks
    requires e.TextDelta? || e.JsonDelta?
    requires e.index == s.blocks[key] && (e.TextDelta? <==> key == -1)
    ensures Inv(s.(out := s.out + [e]))
  {
    ReachedSnoc(s, e);
  }

  lemma TextKeeps(s: State, piece: string)
    requires Inv(s)
    ensures Inv(DoText(s, piece)) && (DoText(s, piece).textOpen <==> s.textOpen || piece != "")
  {
    if piece != "" {
      if s.textOpen {
        DeltaKeeps(s, -1, TextDelta(s.blocks[-1], piece));
      } else {
        StartKeeps(s, -1, TextBlock);
        var s1 := s.(blocks := s.blocks[-1 := s.next], next := s.next + 1, textOpen := true,
                     out := s.out + [BlockStart(s.next, TextBlock)]);
        DeltaKeeps(s1, -1, TextDelta(s.next, piece));
        assert s1.out + [TextDelta(s.next, piece)] == s.out + [BlockStart(s.next, TextBlock), TextDelta(s.next, piece)];
      }
    }
  }

  lemma ToolKeeps(s: State, t: ToolDelta)
    requires Inv(s) && ToolFits(s.textOpen, t)
    ensures Inv(DoTool(s, t)) && DoTool(s, t).textOpen == s.textOpen
  {
    var s1 := s;
    if t.index !in s.blocks {
      StartKeeps(s, t.index, ToolBlock(t.id, t.name));
      s1 := s.(blocks := s.blocks[t.index := s.next], next := s.next + 1,
               out := s.out + [BlockStart(s.next, ToolBlock(t.id, t.name))]);
      assert Inv(s1);
    }
    if t.args != "" {
      DeltaKeeps(s1, t.index, JsonDelta(s1.blocks[t.index], t.args));
    }
  }

  lemma {:induction false} ToolsKeep(s: State, ts: seq<ToolDelta>)
    requires Inv(s) && ToolsFit(s.textOpen, ts)
    ensures Inv(DoTools(s, ts)) && DoTools(s, ts).textOpen == s.textOpen
    decreases |ts|
  {
    if ts != [] {
      ToolKeeps(s, ts[0]);
      ToolsKeep(DoTool(s, ts[0]), ts[1..]);
    }
  }

  /** The text step of a chunk, after its usage and finish reason are noted. */
  ghost function Noted(s: State, c: Chunk): State
    requires s.textOpen ==> -1 in s.blocks
  {
    DoText(s.(usage := Later(s.usage, c.usage), finish := Later(s.finish, c.finish)), c.text)
  }

  lemma NotedKeeps(s: State, c: Chunk)
    requires Inv(s)
    ensures Inv(Noted(s, c)) && (Noted(s, c).textOpen <==> s.textOpen || c.text != "")
    ensures DoChunk(s, c) == DoTools(Noted(s, c), c.tools)
  {
    var s0 := s.(usage := Later(s.usage, c.usage), finish := Later(s.finish, c.finish));
    assert Reached(s0) == Reached(s);
    TextKeeps(s0, c.text);
  }

  lemma {:induction false} ChunksKeep(s: State, cs: seq<Chunk>)
    requires Inv(s) && Fits(s.textOpen, cs)
    ensures Inv(DoChunks(s, cs))
    decreases |cs|
  {
    if cs != [] {
      NotedKeeps(s, cs[0]);
      ToolsKeep(Noted(s, cs[0]), cs[0].tools);
      ChunksKeep(DoChunk(s, cs[0]), cs[1..]);
    }
  }

  // ---- closing ----

  lemma {:induction false} StopsClose(s: State, g: Grammar, b: nat)
    requires forall i :: i in g.open <==> b <= i && IsToolBlock(s.blocks, i)
    requires forall k :: k in s.blocks ==> s.blocks[k] < s.next
    ensures AcceptAll(Some(g), ToolStops(s, b)) == Some(Grammar(g.next, map[]))
    decreases s.next - b
  {
    if b >= s.next {
      assert g.open == map[];
    } else if IsToolBlock(s.blocks, b) {
      assert ToolStops(s, b) == [BlockStop(b)] + ToolStops(s, b + 1);
      AcceptCat(Some(g), [BlockStop(b)], ToolStops(s, b + 1));
      AcceptOne(Some(g), BlockStop(b));
      StopsClose(s, g.(open := g.open - {b}), b + 1);
    } else {
      assert ToolStops(s, b) == ToolStops(s, b + 1);
      StopsClose(s, g, b + 1);
    }
  }

  ghost function Stops(s: State): seq<Event>
    requires s.textOpen ==> -1 in s.blocks
  {
    (if s.textOpen then [BlockStop(s.blocks[-1])] else []) + ToolStops(s, 0)
  }

  /** The middle of the finished message is what was put out, then the stops. */
  lemma FinishMiddle(s: State)
    requires s.out != [] && (s.textOpen ==> -1 in s.blocks)
    ensures var out := Finish(s);
            |out| >= 3 && out[0] == s.out[0] && out[|out| - 2].MessageDelta? && out[|out| - 1] == MessageStop &&
            AcceptAll(EMPTY, out[1..|out| - 2]) == AcceptAll(Reached(s), Stops(s))
  {
    var out := Finish(s);
    var last := [MessageDelta(StopReason(s.finish), if s.usage.Some? then s.usage.value.output else 0), MessageStop];
    assert out == s.out + Stops(s) + last;
    assert out[1..|out| - 2] == s.out[1..] + Stops(s);
    AcceptCat(EMPTY, s.out[1..], Stops(s));
  }

  lemma FinishCloses(s: State)
    requires Inv(s)
    ensures WellFormed(Finish(s))
  {
    FinishMiddle(s);
    var g := Reached(s).value;
    if s.textOpen {
      var b := s.blocks[-1];
      AcceptCat(Some(g), [BlockStop(b)], ToolStops(s, 0));
      AcceptOne(Some(g), BlockStop(b));
      StopsClose(s, g.(open := g.open - {b}), 0);
    } else {
      assert Stops(s) == ToolStops(s, 0);
      StopsClose(s, g, 0);
    }
  }

  // ---- what goes wrong otherwise ----

  /** Nothing will ever stop block `b`. */
  ghost predicate Orphan(s: State, b: nat) {
    && b < s.next
    && (forall k :: k in s.blocks && k >= 0 ==> s.blocks[k] != b)
    && (s.textOpen ==> -1 in s.blocks && s.blocks[-1] != b)
  }

  /** The output is wrong already, or some open block will never be stopped. */
  ghost predicate Doomed(s: State) {
    && s.out != [] && (s.textOpen ==> -1 in s.blocks)
    && (Reached(s).None? || exists b :: b in Reached(s).value.open && Orphan(s, b))
  }

  lemma {:induction false} NoneStays(es: seq<Event>)
    ensures AcceptAll(None, es) == None
  {
    if es != [] {
      NoneStays(es[1..]);
    }
  }

  lemma DoomedEvent(s: State, t: State, e: Event)
    requires Doomed(s) && t.out == s.out + [e] && !e.BlockStop?
    requires t.textOpen ==> -1 in t.blocks
    requires forall b :: Orphan(s, b) ==> Orphan(t, b)
    ensures Doomed(t)
  {
    ReachedSnoc(s, e);
    assert Reached(t) == Reached(s.(out := s.out + [e]));
  }

  lemma DoomedText(s: State, piece: string)
    requires Doomed(s)
    ensures Doomed(DoText(s, piece))
  {
    if piece != "" {
      if s.textOpen {
        DoomedEvent(s, DoText(s, piece), TextDelta(s.blocks[-1], piece));
      } else {
        var s1 := s.(blocks := s.blocks[-1 := s.next], next := s.next + 1, textOpen := true,
                     out := s.out + [BlockStart(s.next, TextBlock)]);
        DoomedEvent(s, s1, BlockStart(s.next, TextBlock));
        assert s1.out + [TextDelta(s.next, piece)] == s.out + [BlockStart(s.next, TextBlock), TextDelta(s.next, piece)];
        DoomedEvent(s1, DoText(s, piece), TextDelta(s.next, piece));
      }
    }
  }

  lemma DoomedTool(s: State, t: ToolDelta)
    requires Doomed(s)
    ensures Doomed(DoTool(s, t))
  {
    var s1 := s;
    if t.index !in s.blocks {
      s1 := s.(blocks := s.blocks[t.index := s.next], next := s.next + 1,
               out := s.out + [BlockStart(s.next, ToolBlock(t.id, t.name))]);
      DoomedEvent(s, s1, BlockStart(s.next, ToolBlock(t.id, t.name)));
    }
    if t.args != "" {
      DoomedEvent(s1, DoTool(s, t), JsonDelta(s1.blocks[t.index], t.args));
    }
  }

  lemma {:induction false} DoomedTools(s: State, ts: seq<ToolDelta>)
    requires Doomed(s)
    ensures Doomed(DoTools(s, ts))
    decreases |ts|
  {
    if ts != [] {
      DoomedTool(s, ts[0]);
      DoomedTools(DoTool(s, ts[0]), ts[1..]);
    }
  }

  lemma {:induction false} DoomedChunks(s: State, cs: seq<Chunk>)
    requires Doomed(s)
    ensures Doomed(DoChunks(s, cs))
    decreases |cs|
  {
    if cs != [] {
      var s0 := s.(usage := Later(s.usage, cs[0].usage), finish := Later(s.finish, cs[0].finish));
      assert Reached(s0) == Reached(s);
      assert forall b :: Orphan(s, b) ==> Orphan(s0, b);
      DoomedText(s0, cs[0].text);
      DoomedTools(DoText(s0, cs[0].text), cs[0].tools);
      DoomedChunks(DoChunk(s, cs[0]), cs[1..]);
    }
  }

  lemma {:induction false} StopsMiss(s: State, g: Option<Grammar>, b: nat, from: nat)
    requires g.Some? ==> b in g.value.open
    requires !IsToolBlock(s.blocks, b)
    ensures var h := AcceptAll(g, ToolStops(s, from)); h.Some? ==> b in h.value.open
    decreases s.next - from
  {
    if from < s.next {
      if IsToolBlock(s.blocks, from) {
        assert ToolStops(s, from) == [BlockStop(from)] + ToolStops(s, from + 1);
        AcceptCat(g, [BlockStop(from)], ToolStops(s, from + 1));
        AcceptOne(g, BlockStop(from));
        StopsMiss(s, Accept(g, BlockStop(from)), b, from + 1);
      } else {
        assert ToolStops(s, from) == ToolStops(s, from + 1);
        StopsMiss(s, g, b, from + 1);
      }
    }
  }

  lemma DoomedFinish(s: State)
    requires Doomed(s)
    ensures !WellFormed(Finish(s))
  {
    FinishMiddle(s);
    var g := Reached(s);
    if g.None? {
      NoneStays(Stops(s));
    } else {
      var b :| b in g.value.open && Orphan(s, b);
      if s.textOpen {
        var e := BlockStop(s.blocks[-1]);
        AcceptCat(g, [e], ToolStops(s, 0));
        AcceptOne(g, e);
        StopsMiss(s, Accept(g, e), b, 0);
      } else {
        assert Stops(s) == ToolStops(s, 0);
        StopsMiss(s, g, b, 0);
      }
    }
  }

  /** The first tool delta that does not fit dooms the output. */
  lemma MisfitDooms(s: State, t: ToolDelta)
    requires Inv(s) && !ToolFits(s.textOpen, t)
    ensures Doomed(DoTool(s, t))
  {
    if t.index in s.blocks {
      ReachedSnoc(s, JsonDelta(s.blocks[-1], t.args));
    } else {
      var e := BlockStart(s.next, ToolBlock(t.id, t.name));
      var s1 := s.(blocks := s.blocks[t.index := s.next], next := s.next + 1, out := s.out + [e]);
      ReachedSnoc(s, e);
      assert Reached(s1) == Reached(s.(out := s.out + [e]));
      assert s.next in Reached(s1).value.open && Orphan(s1, s.next);
      if t.args != "" {
        DoomedEvent(s1, DoTool(s, t), JsonDelta(s.next, t.args));
      }
    }
  }

  lemma {:induction false} MisfitsDoom(s: State, ts: seq<ToolDelta>)
    requires Inv(s) && !ToolsFit(s.textOpen, ts)
    ensures Doomed(DoTools(s, ts))
    decreases |ts|
  {
    if ToolFits(s.textOpen, ts[0]) {
      ToolKeeps(s, ts[0]);
      MisfitsDoom(DoTool(s, ts[0]), ts[1..]);
    } else {
      MisfitDooms(s, ts[0]);
      DoomedTools(DoTool(s, ts[0]), ts[1..]);
    }
  }

  lemma {:induction false} MisfitChunksDoom(s: State, cs: seq<Chunk>)
    requires Inv(s) && !Fits(s.textOpen, cs)
    ensures Doomed(DoChunks(s, cs))
    decreases |cs|
  {
    var s1 := Noted(s, cs[0]);
    NotedKeeps(s, cs[0]);
    if ToolsFit(s1.textOpen, cs[0].tools) {
      ToolsKeep(s1, cs[0].tools);
      MisfitChunksDoom(DoChunk(s, cs[0]), cs[1..]);
    } else {
      MisfitsDoom(s1, cs[0].tools);
      DoomedChunks(DoChunk(s, cs[0]), cs[1..]);
    }
  }

  /** The finished output is well-formed exactly when every tool delta has a non-negative index,
      or is an empty one with index -1 after text has been seen. */
  lemma TranslationIsWellFormed(cs: seq<Chunk>)
    ensures WellFormed(Translate(cs)) <==> Fits(false, cs)
  {
    assert INIT.out[1..] == [];
    assert Inv(INIT);
    if Fits(false, cs) {
      ChunksKeep(INIT, cs);
      FinishCloses(DoChunks(INIT, cs));
    } else {
      MisfitChunksDoom(INIT, cs);
      DoomedFinish(DoChunks(INIT, cs));
    }
  }
}

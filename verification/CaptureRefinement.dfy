/** A pass of the importer is a sequence of the protocol's steps. */
module CaptureRefinement {
  import opened Wrappers
  import opened Timestamps
  import opened CaptureDocuments
  import opened CaptureSpec
  import opened CaptureProofs
  import opened CaptureContents
  import opened CaptureImporter

  /** `steps` lead from `s` to `t`. */
  ghost predicate Path(s: State, steps: seq<Step>, t: State)
    decreases |steps|
  {
    if steps == [] then s == t else Enabled(s, steps[0]) && Path(Apply(s, steps[0]), steps[1..], t)
  }

  lemma {:induction false} PathCat(s: State, xs: seq<Step>, t: State, ys: seq<Step>, u: State)
    requires Path(s, xs, t) && Path(t, ys, u)
    ensures Path(s, xs + ys, u)
    decreases |xs|
  {
    if xs == [] {
      assert xs + ys == ys;
    } else {
      assert (xs + ys)[1..] == xs[1..] + ys;
      PathCat(Apply(s, xs[0]), xs[1..], t, ys, u);
    }
  }

  lemma PathCons(s: State, step: Step, xs: seq<Step>, t: State)
    requires Enabled(s, step) && Path(Apply(s, step), xs, t)
    ensures Path(s, [step] + xs, t)
  {
    assert ([step] + xs)[1..] == xs;
  }

  ghost predicate RunTo(steps: seq<Step>, states: seq<State>, s: State) {
    Run(steps, states) && states[|steps|] == s
  }

  ghost predicate Reachable(s: State) {
    exists steps, states :: RunTo(steps, states, s)
  }

  lemma {:induction false} ReachableBy(s: State, steps: seq<Step>, t: State)
    requires Reachable(s) && Path(s, steps, t)
    ensures Reachable(t)
    decreases |steps|
  {
    if steps != [] {
      var before, states :| RunTo(before, states, s);
      var next := Apply(s, steps[0]);
      assert RunTo(before + [steps[0]], states + [next], next);
      ReachableBy(next, steps[1..], t);
    }
  }

  /** What importing may have changed in pass `p`. */
  function Moved(s: State, p: nat, store: Store, finished: nat, at: nat, high: Option<int>): State
    requires p < |s.passes|
  {
    s.(store := store, passes := s.passes[p := s.passes[p].(finished := finished, at := at, high := high)])
  }

  lemma MovedTwice(s: State, t: State, p: nat, store: Store, finished: nat, at: nat, high: Option<int>)
    requires p < |s.passes| == |t.passes|
    requires t == Moved(s, p, t.store, t.passes[p].finished, t.passes[p].at, t.passes[p].high)
    ensures Moved(t, p, store, finished, at, high) == Moved(s, p, store, finished, at, high)
  {
    assert Moved(t, p, store, finished, at, high).passes == Moved(s, p, store, finished, at, high).passes;
  }

  /** The next `n` events of the blob a pass is at. */
  lemma {:induction false} StoreSteps(s: State, p: nat, n: nat, now: Utc) returns (steps: seq<Step>)
    requires p < |s.passes| && s.passes[p].finished < |s.passes[p].pending|
    requires s.passes[p].at + n <= |s.passes[p].pending[s.passes[p].finished].events|
    ensures var pass := s.passes[p];
            var es := pass.pending[pass.finished].events[pass.at..pass.at + n];
            Path(s, steps, Moved(s, p, ImportEvents(s.store, es, pass.markups, now), pass.finished, pass.at + n, pass.high))
    decreases n
  {
    var pass := s.passes[p];
    if n == 0 {
      steps := [];
    } else {
      var step := StoreEvent(p, now);
      var t, es := Apply(s, step), pass.pending[pass.finished].events[pass.at..pass.at + n];
      assert es[1..] == pass.pending[pass.finished].events[pass.at + 1..pass.at + n];
      assert t.passes[p] == pass.(at := pass.at + 1);
      var more := StoreSteps(t, p, n - 1, now);
      steps := [step] + more;
      var store := ImportEvents(s.store, es, pass.markups, now);
      assert store == ImportEvents(t.store, es[1..], pass.markups, now);
      MovedTwice(s, t, p, store, pass.finished, pass.at + n, pass.high);
      PathCons(s, step, more, Moved(s, p, store, pass.finished, pass.at + n, pass.high));
    }
  }

  /** The blob a pass is at, to its end. */
  lemma BlobSteps(s: State, p: nat, now: Utc) returns (steps: seq<Step>)
    requires p < |s.passes| && s.passes[p].finished < |s.passes[p].pending| && s.passes[p].at == 0
    ensures var pass := s.passes[p];
            var b := pass.pending[pass.finished];
            Path(s, steps, Moved(s, p, ImportEvents(s.store, b.events, pass.markups, now), pass.finished + 1, 0,
                                 Higher(pass.high, b)))
  {
    var pass := s.passes[p];
    var b := pass.pending[pass.finished];
    var n := |b.events|;
    assert b.events[0..n] == b.events;
    var first := StoreSteps(s, p, n, now);
    var t := Moved(s, p, ImportEvents(s.store, b.events, pass.markups, now), pass.finished, n, pass.high);
    var u := Apply(t, FinishBlob(p));
    MovedTwice(s, t, p, t.store, pass.finished + 1, 0, Higher(pass.high, b));
    PathCons(t, FinishBlob(p), [], u);
    PathCat(s, first, t, [FinishBlob(p)] + [], u);
    steps := first + ([FinishBlob(p)] + []);
  }

  /** The first `n` blobs of a pass that has just listed them. */
  lemma {:induction false} BlobsSteps(s: State, p: nat, n: nat, now: Utc) returns (steps: seq<Step>)
    requires p < |s.passes| && s.passes[p].finished == s.passes[p].at == 0 && n <= |s.passes[p].pending|
    ensures var pass := s.passes[p];
            Path(s, steps, Moved(s, p, ImportEvents(s.store, EventsOf(pass.pending[..n]), pass.markups, now), n, 0,
                                 HighWater(pass.high, pass.pending[..n])))
    decreases n
  {
    var pass := s.passes[p];
    if n == 0 {
      steps := [];
    } else {
      var m := n - 1;
      var es := EventsOf(pass.pending[..m]);
      var first := BlobsSteps(s, p, m, now);
      var t := Moved(s, p, ImportEvents(s.store, es, pass.markups, now), m, 0, HighWater(pass.high, pass.pending[..m]));
      var more := BlobSteps(t, p, now);
      NextBlob(pass.pending, m);
      ImportCat(s.store, es, pass.pending[m].events, pass.markups, now);
      HighWaterStep(pass.high, pass.pending, m);
      var store := ImportEvents(s.store, EventsOf(pass.pending[..n]), pass.markups, now);
      var high := HighWater(pass.high, pass.pending[..n]);
      MovedTwice(s, t, p, store, n, 0, high);
      PathCat(s, first, t, more, Moved(s, p, store, n, 0, high));
      steps := first + more;
    }
  }

  /** Everything a pass imports once it has listed its blobs. */
  lemma HandledSteps(s: State, p: nat, stop: Stop, now: Utc) returns (steps: seq<Step>, t: State)
    requires p < |s.passes| && s.passes[p].finished == s.passes[p].at == 0
    ensures Path(s, steps, t)
    ensures var pass := s.passes[p];
            var n := Finished(stop, pass.pending);
            t == Moved(s, p, ImportEvents(s.store, Handled(stop, pass.pending), pass.markups, now), n,
                       |Partial(stop, pass.pending)|, HighWater(pass.high, pass.pending[..n]))
  {
    var pass := s.passes[p];
    var n, es := Finished(stop, pass.pending), Partial(stop, pass.pending);
    var done := EventsOf(pass.pending[..n]);
    steps := BlobsSteps(s, p, n, now);
    t := Moved(s, p, ImportEvents(s.store, done, pass.markups, now), n, 0, HighWater(pass.high, pass.pending[..n]));
    ImportCat(s.store, done, es, pass.markups, now);
    if es != [] {
      assert pass.pending[n].events[0..|es|] == es;
      var more := StoreSteps(t, p, |es|, now);
      var u := Moved(t, p, ImportEvents(t.store, es, pass.markups, now), n, |es|, t.passes[p].high);
      MovedTwice(s, t, p, u.store, n, |es|, t.passes[p].high);
      PathCat(s, steps, t, more, u);
      steps, t := steps + more, u;
    }
  }

  /** `UsageCaptureImporter.RunOnce` keeps to the protocol: from any state and any listing the
      storage may give, steps of one pass lead to the store and the watermark it leaves. So what
      holds in every run of the protocol holds after any calls of it, by any replicas. */
  lemma PassIsProtocol(s: State, listing: seq<Blob>, markups: Markups, now: Utc, parsed: bool, stop: Stop, writeOk: bool)
    returns (steps: seq<Step>, t: State)
    requires forall b :: b in listing ==> b in s.written
    requires forall b :: b in s.written ==> Visible(listing, b)
    ensures Path(s, steps, t) && t.written == s.written && (Reachable(s) ==> Reachable(t))
    ensures t.newestListed == Latest(s.newestListed, Newest(listing))
    ensures var mark := MarkRead(s, parsed);
            var pending := Pending(listing, mark);
            var high := HighWater(mark, pending[..Finished(stop, pending)]);
            t.store == ImportEvents(s.store, Handled(stop, pending), markups, now) &&
            t.watermark == if writeOk && high.Some? then high else s.watermark
  {
    var p, mark := |s.passes|, MarkRead(s, parsed);
    var pending := Pending(listing, mark);
    var high := HighWater(mark, pending[..Finished(stop, pending)]);
    var s1 := Apply(s, BeginPass(markups, parsed));
    var s2 := Apply(s1, ListBlobs(p, listing));
    var more, u := HandledSteps(s2, p, stop, now);
    PathCons(s1, ListBlobs(p, listing), more, u);
    steps, t := [BeginPass(markups, parsed)] + ([ListBlobs(p, listing)] + more), u;
    PathCons(s, BeginPass(markups, parsed), [ListBlobs(p, listing)] + more, u);
    HighWaterBounds(mark, pending[..Finished(stop, pending)]);
    if writeOk && high.Some? && high != mark {
      t := Apply(u, WriteWatermark(p));
      PathCons(u, WriteWatermark(p), [], t);
      PathCat(s, steps, u, [WriteWatermark(p)] + [], t);
      steps := steps + ([WriteWatermark(p)] + []);
    }
    if Reachable(s) {
      ReachableBy(s, steps, t);
    }
  }

  /** The one pending blob of a one-blob listing, and where a pass over it ends. */
  lemma OneBlob(b: Blob, mark: Option<int>)
    requires mark.None? || mark == Some(b.modified)
    ensures Pending([b], mark) == [b] && Handled(Never, [b]) == b.events
    ensures HighWater(mark, [b][..Finished(Never, [b])]) == Some(b.modified)
    ensures Visible([b], b)
  {
    assert [b][1..] == [] && [b][..1] == [b];
    assert Filter([b], mark) == [b] + [];
    assert Insert(b, []) == [b] + [];
    assert SortByTime([b]) == [b];
    assert EventsOf([b]) == b.events + [];
  }

  lemma OneEventConsistent(e: Event, b: Blob)
    requires e.ts.Some? && b.events == [e]
    ensures Consistent({b}) && Emits({b}, e)
  {
    assert b in {b} && e in b.events;
    forall f | Emits({b}, f) ensures f == e {
      var c :| c in {b} && f in c.events;
    }
  }

  /** A pass over the one blob with the one event. */
  lemma OneEventPass(s: State, b: Blob, e: Event, markups: Markups, now: Utc) returns (t: State)
    requires Reachable(s) && s.written == {b} && b.events == [e]
    requires s.watermark.None? || s.watermark == Some(b.modified)
    ensures Reachable(t) && t.written == s.written && t.watermark == Some(b.modified)
    ensures t.store == ImportEvent(s.store, e, markups, now)
  {
    OneBlob(b, s.watermark);
    assert [e][1..] == [];
    var steps;
    steps, t := PassIsProtocol(s, [b], markups, now, true, Never, true);
  }

  /** A pass that could not read the table of markups takes the markup out of bills that were
      right: the overlap brings every recent event back, now at no markup. */
  lemma UnreadTableDropsMarkup(e: Event, markups: Markups, now: Utc) returns (s: State, t: State)
    requires Keyed(e) && e.ts.Some?
    ensures Reachable(s) && Reachable(t) && Consistent(t.written)
    ensures s.store == map[KeyAt(e, now) := DocOf(e, markups, now)] && s.watermark.Some?
    ensures t.written == s.written && t.watermark == s.watermark
    ensures t.store == map[KeyAt(e, now) := DocOf(e, markups, now).(billed := Bill(e, map[]))]
  {
    var b := Blob(0, 0, [e]);
    var s0 := Apply(INIT, WriteBlob(b));
    assert RunTo([WriteBlob(b)], [INIT, s0], s0);
    OneEventConsistent(e, b);
    s := OneEventPass(s0, b, e, markups, now);
    t := OneEventPass(s, b, e, map[], now);
    OnlyTheBillVaries(e, markups, map[], now);
  }
}

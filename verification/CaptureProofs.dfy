/** Import safety: what the watermark has passed is in the store. */
module CaptureProofs {
  import opened Wrappers
  import opened Timestamps
  import opened CaptureDocuments
  import opened CaptureSpec

  // ---- sorting and capping ----

  ghost predicate Sorted(bs: seq<Blob>) {
    forall i, j :: 0 <= i < j < |bs| ==> bs[i].modified <= bs[j].modified
  }

  lemma TailIsSorted(bs: seq<Blob>)
    requires bs != [] && Sorted(bs)
    ensures Sorted(bs[1..]) && forall x :: x in bs[1..] ==> bs[0].modified <= x.modified
    ensures multiset(bs) == multiset{bs[0]} + multiset(bs[1..])
  {
    assert bs == [bs[0]] + bs[1..];
    assert forall i :: 0 <= i < |bs| - 1 ==> bs[1..][i] == bs[i + 1];
  }

  lemma ConsIsSorted(b: Blob, bs: seq<Blob>)
    requires Sorted(bs) && forall x :: x in multiset(bs) ==> b.modified <= x.modified
    ensures Sorted([b] + bs) && multiset([b] + bs) == multiset{b} + multiset(bs)
  {
    assert forall i :: 0 <= i < |bs| ==> bs[i] in multiset(bs);
  }

  lemma {:induction false} InsertSorts(b: Blob, sorted: seq<Blob>)
    requires Sorted(sorted)
    ensures Sorted(Insert(b, sorted)) && multiset(Insert(b, sorted)) == multiset{b} + multiset(sorted)
    ensures |Insert(b, sorted)| == |sorted| + 1
  {
    if sorted == [] {
      ConsIsSorted(b, sorted);
    } else {
      TailIsSorted(sorted);
      if b.modified <= sorted[0].modified {
        ConsIsSorted(b, sorted);
      } else {
        InsertSorts(b, sorted[1..]);
        ConsIsSorted(sorted[0], Insert(b, sorted[1..]));
      }
    }
  }

  lemma {:induction false} SortSorts(bs: seq<Blob>)
    ensures Sorted(SortByTime(bs)) && multiset(SortByTime(bs)) == multiset(bs) && |SortByTime(bs)| == |bs|
  {
    if bs != [] {
      SortSorts(bs[1..]);
      InsertSorts(bs[0], SortByTime(bs[1..]));
      assert bs == [bs[0]] + bs[1..];
    }
  }

  lemma {:induction false} FilterMembers(listing: seq<Blob>, w: Option<int>)
    ensures forall b :: b in Filter(listing, w) <==> b in listing && Recent(b, w)
  {
    if listing != [] {
      FilterMembers(listing[1..], w);
    }
  }

  /** A pass handles a sorted prefix of the recent blobs of its listing. */
  lemma PendingIsPrefix(listing: seq<Blob>, w: Option<int>)
    ensures Sorted(Pending(listing, w))
    ensures forall b :: b in Pending(listing, w) ==> b in listing && Recent(b, w)
    ensures forall b, i ::
              (b in listing && Recent(b, w) && 0 <= i < |Pending(listing, w)| &&
               b.modified < Pending(listing, w)[i].modified) ==> b in Pending(listing, w)[..i]
    ensures |Pending(listing, w)| <= 500
    ensures |Pending(listing, w)| < 500 ==>
              forall b :: b in listing && Recent(b, w) ==> b in Pending(listing, w)
    ensures forall b :: Recent(b, w) <==> w.None? || b.modified > w.value - 10 * 60 * 1_000_000
  {
    AllMembers(listing, w);
    PrefixTakesOldest(SortByTime(Filter(listing, w)), |Pending(listing, w)|);
  }

  lemma AllMembers(listing: seq<Blob>, w: Option<int>)
    ensures var all := SortByTime(Filter(listing, w)); Sorted(all) && forall b :: b in all <==> b in listing && Recent(b, w)
  {
    var all := SortByTime(Filter(listing, w));
    SortSorts(Filter(listing, w));
    FilterMembers(listing, w);
    forall b ensures b in all <==> b in listing && Recent(b, w) {
      assert b in all <==> b in multiset(all);
      assert b in Filter(listing, w) <==> b in multiset(Filter(listing, w));
    }
  }

  /** A prefix of a sorted sequence is sorted, and has everything older than what it has. */
  lemma PrefixTakesOldest(all: seq<Blob>, n: nat)
    requires Sorted(all) && n <= |all|
    ensures Sorted(all[..n]) && forall b :: b in all[..n] ==> b in all
    ensures forall b, i :: b in all && 0 <= i < n && b.modified < all[..n][i].modified ==> b in all[..n][..i]
  {
    forall b, i | b in all && 0 <= i < n && b.modified < all[..n][i].modified ensures b in all[..n][..i] {
      var j :| 0 <= j < |all| && all[j] == b;
      assert j < i;
      assert all[..n][..i][j] == b;
    }
  }

  // ---- high-water marks ----

  lemma {:induction false} HighWaterBounds(start: Option<int>, bs: seq<Blob>)
    ensures HighWater(start, bs).None? ==> start.None? && bs == []
    ensures HighWater(start, bs).Some? && start.Some? ==> start.value <= HighWater(start, bs).value
    ensures HighWater(start, bs).Some? ==> forall b :: b in bs ==> b.modified <= HighWater(start, bs).value
    ensures HighWater(start, bs) == start || exists b :: b in bs && HighWater(start, bs) == Some(b.modified)
    decreases |bs|
  {
    if bs != [] {
      HighWaterBounds(Higher(start, bs[0]), bs[1..]);
      assert bs[0] in bs;
      assert forall b :: b in bs[1..] ==> b in bs;
    }
  }

  lemma {:induction false} HighWaterStep(start: Option<int>, bs: seq<Blob>, n: nat)
    requires n < |bs|
    ensures HighWater(start, bs[..n + 1]) == Higher(HighWater(start, bs[..n]), bs[n])
    decreases n
  {
    if n == 0 {
      assert bs[..1][1..] == [];
    } else {
      assert bs[..n + 1][1..] == bs[1..][..n] && bs[..n][1..] == bs[1..][..n - 1];
      HighWaterStep(Higher(start, bs[0]), bs[1..], n - 1);
    }
  }

  // ---- the invariant ----

  /** The event is unkeyed or a document of it is in the store. */
  ghost predicate Present(store: Store, e: Event) {
    Keyed(e) ==> exists now: Utc :: KeyAt(e, now) in store
  }

  ghost predicate Imported(store: Store, b: Blob) {
    forall e :: e in b.events ==> Present(store, e)
  }

  /** Every blob ever written that is older than the mark less the overlap is imported. */
  ghost predicate SafeMark(s: State, mark: Option<int>) {
    mark.Some? ==> forall b :: b in s.written && b.modified <= mark.value - OVERLAP ==> Imported(s.store, b)
  }

  ghost predicate WithinListed(s: State, mark: Option<int>) {
    mark.Some? ==> s.newestListed.Some? && mark.value <= s.newestListed.value
  }

  /** Blobs the pass has to know of come before those that are newer by the overlap. */
  ghost predicate Contiguous(s: State, pass: Pass) {
    forall b, i ::
      (b in s.written && 0 <= i < |pass.pending| && Recent(b, pass.read) &&
       b.modified <= pass.pending[i].modified - OVERLAP) ==> b in pass.pending[..i]
  }

  ghost predicate PassOk(s: State, pass: Pass) {
    && pass.finished <= |pass.pending|
    && (!pass.listed ==> pass.pending == [])
    && (pass.at > 0 ==> pass.finished < |pass.pending| && pass.at <= |pass.pending[pass.finished].events|)
    && SafeMark(s, pass.read) && WithinListed(s, pass.read)
    && (forall i :: 0 <= i < |pass.pending| ==> WithinListed(s, Some(pass.pending[i].modified)))
    && Contiguous(s, pass)
    && (forall i :: 0 <= i < pass.finished ==> Imported(s.store, pass.pending[i]))
    && (forall j :: 0 <= j < pass.at ==> Present(s.store, pass.pending[pass.finished].events[j]))
    && pass.high == HighWater(pass.read, pass.pending[..pass.finished])
  }

  ghost predicate Inv(s: State) {
    && SafeMark(s, s.watermark) && WithinListed(s, s.watermark)
    && forall p :: 0 <= p < |s.passes| ==> PassOk(s, s.passes[p])
  }

  /** The high-water mark of a pass is a safe watermark at every moment. */
  lemma HighIsSafe(s: State, pass: Pass)
    requires PassOk(s, pass)
    ensures SafeMark(s, pass.high) && WithinListed(s, pass.high)
  {
    var done := pass.pending[..pass.finished];
    HighWaterBounds(pass.read, done);
    if pass.high != pass.read {
      var c :| c in done && pass.high == Some(c.modified);
      var i :| 0 <= i < |done| && done[i] == c;
      forall b | b in s.written && b.modified <= pass.high.value - OVERLAP ensures Imported(s.store, b) {
        if Recent(b, pass.read) {
          assert b in pass.pending[..i];
          var j :| 0 <= j < i && pass.pending[j] == b;
        }
      }
    }
  }

  ghost predicate Grows(a: Store, b: Store) { forall k :: k in a ==> k in b }

  lemma StoreGrows(s: State, t: State, pass: Pass)
    requires PassOk(s, pass) && Grows(s.store, t.store)
    requires t.written == s.written && t.newestListed == s.newestListed
    ensures PassOk(t, pass)
  {
    GrownMark(s, t, pass.read);
    forall i | 0 <= i < pass.finished ensures Imported(t.store, pass.pending[i]) {
      GrownBlob(s.store, t.store, pass.pending[i]);
    }
  }

  lemma GrownBlob(a: Store, b: Store, blob: Blob)
    requires Imported(a, blob) && Grows(a, b)
    ensures Imported(b, blob)
  {
    forall e | e in blob.events ensures Present(b, e) {
      assert Present(a, e);
    }
  }

  lemma GrownMark(s: State, t: State, mark: Option<int>)
    requires SafeMark(s, mark) && Grows(s.store, t.store) && t.written == s.written
    ensures SafeMark(t, mark)
  {
    if mark.Some? {
      forall b | b in t.written && b.modified <= mark.value - OVERLAP ensures Imported(t.store, b) {
        GrownBlob(s.store, t.store, b);
      }
    }
  }

  lemma WriteKeeps(s: State, b: Blob)
    requires Inv(s) && Enabled(s, WriteBlob(b))
    ensures Inv(Apply(s, WriteBlob(b)))
  {
    var t := Apply(s, WriteBlob(b));
    forall p | 0 <= p < |s.passes| ensures PassOk(t, s.passes[p]) {
      var pass := s.passes[p];
      assert PassOk(s, pass);
      forall c, i | c in t.written && 0 <= i < |pass.pending| && Recent(c, pass.read)
        && c.modified <= pass.pending[i].modified - OVERLAP ensures c in pass.pending[..i]
      {
        assert WithinListed(s, Some(pass.pending[i].modified));
      }
    }
  }

  lemma ListKeeps(s: State, p: nat, listing: seq<Blob>)
    requires Inv(s) && Enabled(s, ListBlobs(p, listing))
    ensures Inv(Apply(s, ListBlobs(p, listing)))
  {
    var t := Apply(s, ListBlobs(p, listing));
    var before, pass := s.passes[p], t.passes[p];
    assert PassOk(s, before);
    PendingIsPrefix(listing, before.read);
    HighWaterBounds(None, listing);
    forall i | 0 <= i < |pass.pending| ensures WithinListed(t, Some(pass.pending[i].modified)) {
      assert pass.pending[i] in listing;
    }
    forall b, i | b in t.written && 0 <= i < |pass.pending| && Recent(b, pass.read)
      && b.modified <= pass.pending[i].modified - OVERLAP ensures b in pass.pending[..i]
    {
      assert pass.pending[i] in listing;
      assert Visible(listing, b);
    }
    assert pass.pending[..0] == before.pending[..0];
    assert PassOk(t, pass);
    forall q | 0 <= q < |t.passes| ensures PassOk(t, t.passes[q]) {
      assert q != p ==> PassOk(s, s.passes[q]);
    }
  }

  lemma ImportAdds(store: Store, e: Event, markups: Markups, now: Utc)
    ensures Grows(store, ImportEvent(store, e, markups, now)) && Present(ImportEvent(store, e, markups, now), e)
  {
    if Keyed(e) {
      assert KeyAt(e, now) in ImportEvent(store, e, markups, now);
    }
  }

  lemma StoreKeeps(s: State, p: nat, now: Utc)
    requires Inv(s) && Enabled(s, StoreEvent(p, now))
    ensures Inv(Apply(s, StoreEvent(p, now)))
  {
    var t := Apply(s, StoreEvent(p, now));
    var pass := s.passes[p];
    var e := pass.pending[pass.finished].events[pass.at];
    ImportAdds(s.store, e, pass.markups, now);
    GrownMark(s, t, s.watermark);
    forall q | 0 <= q < |t.passes| ensures PassOk(t, t.passes[q]) {
      StoreGrows(s, t, s.passes[q]);
    }
  }

  lemma FinishKeeps(s: State, p: nat)
    requires Inv(s) && Enabled(s, FinishBlob(p))
    ensures Inv(Apply(s, FinishBlob(p)))
  {
    var t := Apply(s, FinishBlob(p));
    var pass := s.passes[p];
    assert PassOk(s, pass);
    var b := pass.pending[pass.finished];
    forall e | e in b.events ensures Present(s.store, e) {
      var j :| 0 <= j < |b.events| && b.events[j] == e;
    }
    HighWaterStep(pass.read, pass.pending, pass.finished);
    assert PassOk(t, t.passes[p]);
    forall q | 0 <= q < |t.passes| ensures PassOk(t, t.passes[q]) {
      assert q != p ==> PassOk(s, s.passes[q]);
    }
  }

  lemma StepKeeps(s: State, step: Step)
    requires Inv(s) && Enabled(s, step)
    ensures Inv(Apply(s, step))
  {
    match step {
      case WriteBlob(b) => WriteKeeps(s, b);
      case ListBlobs(p, listing) => ListKeeps(s, p, listing);
      case StoreEvent(p, now) => StoreKeeps(s, p, now);
      case FinishBlob(p) => FinishKeeps(s, p);
      case WriteWatermark(p) =>
        HighIsSafe(s, s.passes[p]);
        var t := Apply(s, step);
        forall q | 0 <= q < |t.passes| ensures PassOk(t, t.passes[q]) {
          assert PassOk(s, s.passes[q]);
        }
      case BeginPass(_, _) =>
        var t := Apply(s, step);
        forall q | 0 <= q < |t.passes| ensures PassOk(t, t.passes[q]) {
          assert q < |s.passes| ==> PassOk(s, s.passes[q]);
        }
    }
  }

  /** In every run of any number of replicas, with passes stopped anywhere and older watermarks
      written back, every blob ever written with a time at most the watermark less ten minutes
      has all its keyed events in the store. */
  lemma {:induction false} ImportSafety(steps: seq<Step>, states: seq<State>, i: nat)
    requires Run(steps, states) && i < |states|
    ensures Inv(states[i])
    ensures states[i].watermark.Some? ==>
              forall b :: b in states[i].written && b.modified <= states[i].watermark.value - OVERLAP
                ==> Imported(states[i].store, b)
  {
    if i > 0 {
      ImportSafety(steps, states, i - 1);
      StepKeeps(states[i - 1], steps[i - 1]);
      assert states[i - 1 + 1] == Apply(states[i - 1], steps[i - 1]);
    }
  }
}

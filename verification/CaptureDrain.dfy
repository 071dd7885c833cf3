/** How soon repeated passes have everything in the store, while blobs go on being written. */
module CaptureDrain {
  import opened Wrappers
  import opened Timestamps
  import opened CaptureDocuments
  import opened CaptureSpec
  import opened CaptureProofs
  import opened CaptureImporter
  import opened CaptureRefinement
  import opened CaptureProgress

  /** Some blobs are written; then a pass that meets no failure is made over a listing. */
  datatype Round = Round(written: seq<Blob>, listing: seq<Blob>, markups: Markups, now: Utc)

  function Listings(rounds: seq<Round>): (ls: seq<seq<Blob>>)
    ensures |ls| == |rounds| && forall i :: 0 <= i < |ls| ==> ls[i] == rounds[i].listing
  {
    seq(|rounds|, i requires 0 <= i < |rounds| => rounds[i].listing)
  }

  function Written(written: set<Blob>, bs: seq<Blob>): set<Blob> {
    written + set b | b in bs
  }

  /** The storage may go on like this: new blobs are no older than it allows, and each listing is
      one that it may give. */
  ghost predicate Legal(written: set<Blob>, newest: Option<int>, rounds: seq<Round>)
    decreases |rounds|
  {
    rounds == [] ||
    var r := rounds[0];
    var all := Written(written, r.written);
    && (forall b :: b in r.written ==> newest.None? || b.modified > newest.value - OVERLAP)
    && (forall b :: b in r.listing ==> b in all) && (forall b :: b in all ==> Visible(r.listing, b))
    && Legal(all, Latest(newest, Newest(r.listing)), rounds[1..])
  }

  function StoreAfterPass(store: Store, mark: Option<int>, r: Round): Store {
    ImportEvents(store, Handled(Never, Pending(r.listing, mark)), r.markups, r.now)
  }

  /** The store after the rounds. */
  function StoreAfter(store: Store, mark: Option<int>, rounds: seq<Round>): Store
    decreases |rounds|
  {
    if rounds == [] then store
    else StoreAfter(StoreAfterPass(store, mark, rounds[0]), NextMark(rounds[0].listing, mark), rounds[1..])
  }

  // ---- what is handled is stored ----

  lemma {:induction false} ImportGrows(store: Store, es: seq<Event>, markups: Markups, now: Utc)
    ensures Grows(store, ImportEvents(store, es, markups, now))
    ensures forall e :: e in es ==> Present(ImportEvents(store, es, markups, now), e)
    decreases |es|
  {
    if es != [] {
      var next := ImportEvent(store, es[0], markups, now);
      ImportAdds(store, es[0], markups, now);
      ImportGrows(next, es[1..], markups, now);
      PresentStays(next, ImportEvents(next, es[1..], markups, now), es[0]);
    }
  }

  lemma PresentStays(a: Store, b: Store, e: Event)
    requires Present(a, e) && Grows(a, b)
    ensures Present(b, e)
  {
  }

  lemma {:induction false} EventIsThere(bs: seq<Blob>, b: Blob, e: Event)
    requires b in bs && e in b.events
    ensures e in EventsOf(bs)
  {
    if b != bs[0] {
      EventIsThere(bs[1..], b, e);
    }
  }

  lemma {:induction false} StoreGrowsOn(store: Store, mark: Option<int>, rounds: seq<Round>)
    ensures Grows(store, StoreAfter(store, mark, rounds))
    decreases |rounds|
  {
    if rounds != [] {
      var r := rounds[0];
      ImportGrows(store, Handled(Never, Pending(r.listing, mark)), r.markups, r.now);
      StoreGrowsOn(StoreAfterPass(store, mark, r), NextMark(r.listing, mark), rounds[1..]);
    }
  }

  lemma PassImports(store: Store, mark: Option<int>, r: Round, b: Blob)
    requires b in Pending(r.listing, mark)
    ensures Imported(StoreAfterPass(store, mark, r), b)
  {
    var pending := Pending(r.listing, mark);
    assert pending[..|pending|] == pending;
    forall e | e in b.events ensures e in Handled(Never, pending) {
      EventIsThere(pending, b, e);
    }
    ImportGrows(store, Handled(Never, pending), r.markups, r.now);
  }

  lemma {:induction false} CoveredIsImported(store: Store, mark: Option<int>, rounds: seq<Round>, b: Blob)
    requires CoveredBy(Listings(rounds), mark, b)
    ensures Imported(StoreAfter(store, mark, rounds), b)
    decreases |rounds|
  {
    var r, rest := rounds[0], rounds[1..];
    var store1, mark1 := StoreAfterPass(store, mark, r), NextMark(r.listing, mark);
    assert Listings(rounds)[1..] == Listings(rest);
    if b in Pending(r.listing, mark) {
      PassImports(store, mark, r, b);
      StoreGrowsOn(store1, mark1, rest);
      GrownBlob(store1, StoreAfter(store1, mark1, rest), b);
    } else {
      CoveredIsImported(store1, mark1, rest, b);
    }
  }

  /** A blob is stored once there were enough passes. */
  lemma EnoughPasses(store: Store, mark: Option<int>, rounds: seq<Round>, b: Blob)
    requires rounds != [] && Growing(Listings(rounds)) && Sparse(rounds[|rounds| - 1].listing)
    requires b in rounds[0].listing && Recent(b, mark)
    requires |rounds| > CountRange(rounds[|rounds| - 1].listing, mark, b.modified)
    ensures Imported(StoreAfter(store, mark, rounds), b)
  {
    if mark.Some? {
      BacklogDrains(Listings(rounds), mark.value, b);
    } else {
      FreshStartDrains(Listings(rounds), b);
    }
    CoveredIsImported(store, mark, rounds, b);
  }

  // ---- the rounds as steps ----

  lemma {:induction false} WriteSteps(s: State, bs: seq<Blob>) returns (steps: seq<Step>)
    requires forall b :: b in bs ==> s.newestListed.None? || b.modified > s.newestListed.value - OVERLAP
    ensures Path(s, steps, s.(written := Written(s.written, bs)))
    decreases |bs|
  {
    if bs == [] {
      assert Written(s.written, bs) == s.written;
      steps := [];
    } else {
      var t := Apply(s, WriteBlob(bs[0]));
      var more := WriteSteps(t, bs[1..]);
      assert Written(t.written, bs[1..]) == Written(s.written, bs);
      PathCons(s, WriteBlob(bs[0]), more, s.(written := Written(s.written, bs)));
      steps := [WriteBlob(bs[0])] + more;
    }
  }

  lemma RoundSteps(s: State, r: Round) returns (steps: seq<Step>, t: State)
    requires Legal(s.written, s.newestListed, [r])
    ensures Path(s, steps, t) && t.written == Written(s.written, r.written)
    ensures t.newestListed == Latest(s.newestListed, Newest(r.listing))
    ensures t.store == StoreAfterPass(s.store, s.watermark, r) && t.watermark == NextMark(r.listing, s.watermark)
  {
    var u := s.(written := Written(s.written, r.written));
    var writes := WriteSteps(s, r.written);
    var pass;
    pass, t := PassIsProtocol(u, r.listing, r.markups, r.now, true, Never, true);
    PathCat(s, writes, u, pass, t);
    steps := writes + pass;
    var pending := Pending(r.listing, s.watermark);
    assert pending[..|pending|] == pending;
    HighWaterBounds(s.watermark, pending);
  }

  lemma {:induction false} RoundsSteps(s: State, rounds: seq<Round>) returns (steps: seq<Step>, t: State)
    requires Legal(s.written, s.newestListed, rounds)
    ensures Path(s, steps, t)
    ensures t.store == StoreAfter(s.store, s.watermark, rounds) && t.watermark == MarkAfter(Listings(rounds), s.watermark)
    decreases |rounds|
  {
    if rounds == [] {
      steps, t := [], s;
    } else {
      var r, rest := rounds[0], rounds[1..];
      assert [r][1..] == [];
      var first, u := RoundSteps(s, r);
      assert Listings(rounds)[1..] == Listings(rest);
      steps, t := RoundsSteps(u, rest);
      PathCat(s, first, u, steps, t);
      steps := first + steps;
    }
  }

  /** Passes that meet no failure, one after the other, while blobs go on being written and no
      ten-minute stretch is over-full: their steps lead to a state in which every blob of the first
      listing that is newer than the watermark less ten minutes, or any if there is no watermark,
      has its keyed events in the store, once there were more passes than the last listing has
      blobs between the watermark and it. */
  lemma BacklogIsImported(s: State, rounds: seq<Round>) returns (steps: seq<Step>, t: State)
    requires rounds != [] && Legal(s.written, s.newestListed, rounds)
    requires Growing(Listings(rounds)) && Sparse(rounds[|rounds| - 1].listing)
    ensures Path(s, steps, t) && (Reachable(s) ==> Reachable(t))
    ensures t.watermark == MarkAfter(Listings(rounds), s.watermark)
    ensures forall b :: b in rounds[0].listing && Recent(b, s.watermark)
                        && |rounds| > CountRange(rounds[|rounds| - 1].listing, s.watermark, b.modified)
              ==> Imported(t.store, b)
  {
    steps, t := RoundsSteps(s, rounds);
    if Reachable(s) {
      ReachableBy(s, steps, t);
    }
    forall b | b in rounds[0].listing && Recent(b, s.watermark)
               && |rounds| > CountRange(rounds[|rounds| - 1].listing, s.watermark, b.modified)
      ensures Imported(t.store, b)
    {
      EnoughPasses(s.store, s.watermark, rounds, b);
    }
  }

  /** In particular, without new blobs, everything recent is in after one pass more than the listing
      has blobs. */
  lemma AllIsImported(s: State, rounds: seq<Round>) returns (steps: seq<Step>, t: State)
    requires rounds != [] && Legal(s.written, s.newestListed, rounds) && Sparse(rounds[0].listing)
    requires |rounds| > |rounds[0].listing| && forall r :: r in rounds ==> r.listing == rounds[0].listing
    ensures Path(s, steps, t) && (Reachable(s) ==> Reachable(t))
    ensures forall b :: b in rounds[0].listing && Recent(b, s.watermark) ==> Imported(t.store, b)
  {
    forall i | 0 <= i < |rounds| ensures Listings(rounds)[i] == rounds[0].listing {
      assert rounds[i] in rounds;
    }
    steps, t := BacklogIsImported(s, rounds);
  }
}

/** How far repeated passes get, and exactly when they stop getting anywhere. */
module CaptureProgress {
  import opened Wrappers
  import opened CaptureSpec
  import opened CaptureProofs

  /** The watermark after a failure-free pass. */
  function NextMark(listing: seq<Blob>, mark: Option<int>): Option<int> {
    HighWater(mark, Pending(listing, mark))
  }

  /** How many blobs are newer than the watermark. */
  function NewerCount(bs: seq<Blob>, w: int): nat {
    if bs == [] then 0 else (if bs[0].modified > w then 1 else 0) + NewerCount(bs[1..], w)
  }

  /** How many blobs are newer than one time, if it is given, and not newer than another. */
  function CountRange(bs: seq<Blob>, lo: Option<int>, hi: int): (n: nat)
    ensures n <= |bs|
  {
    if bs == [] then 0
    else (if (lo.None? || lo.value < bs[0].modified) && bs[0].modified <= hi then 1 else 0) + CountRange(bs[1..], lo, hi)
  }

  /** How many blobs lie in the overlap window that ends at the watermark. */
  function WindowCount(bs: seq<Blob>, w: int): nat { CountRange(bs, Some(w - OVERLAP), w) }

  function OldCount(bs: seq<Blob>, w: int): nat { CountRange(bs, None, w) }

  lemma {:induction false} InsertCount(b: Blob, bs: seq<Blob>, w: int)
    ensures OldCount(Insert(b, bs), w) == OldCount(bs, w) + if b.modified <= w then 1 else 0
  {
    if bs == [] || b.modified <= bs[0].modified {
      assert ([b] + bs)[1..] == bs;
    } else {
      InsertCount(b, bs[1..], w);
      assert Insert(b, bs)[1..] == Insert(b, bs[1..]);
    }
  }

  lemma {:induction false} SortCount(bs: seq<Blob>, w: int)
    ensures OldCount(SortByTime(bs), w) == OldCount(bs, w)
  {
    if bs != [] {
      SortCount(bs[1..], w);
      InsertCount(bs[0], SortByTime(bs[1..]), w);
    }
  }

  lemma {:induction false} FilterCount(bs: seq<Blob>, w: int)
    ensures OldCount(Filter(bs, Some(w)), w) == WindowCount(bs, w)
    ensures |Filter(bs, Some(w))| == WindowCount(bs, w) + NewerCount(bs, w)
  {
    if bs != [] {
      FilterCount(bs[1..], w);
      if Recent(bs[0], Some(w)) {
        assert Filter(bs, Some(w))[1..] == Filter(bs[1..], Some(w));
      } else {
        assert Filter(bs, Some(w)) == Filter(bs[1..], Some(w));
      }
    }
  }

  lemma {:induction false} SortedSplit(bs: seq<Blob>, w: int, i: nat)
    requires Sorted(bs) && i < |bs|
    ensures bs[i].modified <= w <==> i < OldCount(bs, w)
    ensures OldCount(bs, w) <= |bs|
  {
    if bs[0].modified > w {
      NoneOld(bs, w);
    } else if i > 0 {
      SortedSplit(bs[1..], w, i - 1);
    } else if |bs| > 1 {
      SortedSplit(bs[1..], w, 0);
    }
  }

  lemma {:induction false} NoneOld(bs: seq<Blob>, w: int)
    requires forall i :: 0 <= i < |bs| ==> bs[i].modified > w
    ensures OldCount(bs, w) == 0
  {
    if bs != [] {
      NoneOld(bs[1..], w);
    }
  }

  /** A pass advances the watermark exactly when some blob is newer and the overlap window holds
      fewer blobs than a pass may handle; otherwise the watermark stays put. */
  lemma PassAdvances(listing: seq<Blob>, w: int)
    ensures NextMark(listing, Some(w)).Some?
    ensures NextMark(listing, Some(w)).value >= w
    ensures NextMark(listing, Some(w)).value > w <==>
            NewerCount(listing, w) > 0 && WindowCount(listing, w) < MAX_BLOBS_PER_RUN
  {
    var all := SortByTime(Filter(listing, Some(w)));
    SortSorts(Filter(listing, Some(w)));
    SortCount(Filter(listing, Some(w)), w);
    FilterCount(listing, w);
    CapAdvances(all, w, WindowCount(listing, w));
  }

  /** The same for the sorted blobs, of which `c` are not newer than the watermark. */
  lemma CapAdvances(all: seq<Blob>, w: int, c: nat)
    requires Sorted(all) && c == OldCount(all, w)
    ensures c <= |all|
    ensures HighWater(Some(w), Cap(all)).Some? && HighWater(Some(w), Cap(all)).value >= w
    ensures HighWater(Some(w), Cap(all)).value > w <==> c < |all| && c < MAX_BLOBS_PER_RUN
  {
    var pending := Cap(all);
    var high := HighWater(Some(w), pending);
    HighWaterBounds(Some(w), pending);
    if all != [] {
      SortedSplit(all, w, 0);
    }
    if c < |all| && c < MAX_BLOBS_PER_RUN {
      SortedSplit(all, w, c);
      assert pending[c] == all[c] && pending[c] in pending;
    } else if high != Some(w) {
      var b :| b in pending && high == Some(b.modified);
      var i :| 0 <= i < |pending| && pending[i] == b;
      SortedSplit(all, w, i);
    }
  }

  /** A pass handles the whole overlap window when it is not over-full. */
  lemma PassCoversWindow(listing: seq<Blob>, w: int, b: Blob)
    requires b in listing && w - OVERLAP < b.modified <= w && WindowCount(listing, w) < MAX_BLOBS_PER_RUN
    ensures b in Pending(listing, Some(w))
  {
    var all := SortByTime(Filter(listing, Some(w)));
    var i := SortedIndex(listing, w, b);
    SortCount(Filter(listing, Some(w)), w);
    FilterCount(listing, w);
    SortedSplit(all, w, i);
    assert Pending(listing, Some(w))[i] == b;
  }

  lemma SortedIndex(listing: seq<Blob>, w: int, b: Blob) returns (i: nat)
    requires b in listing && w - OVERLAP < b.modified
    ensures var all := SortByTime(Filter(listing, Some(w))); Sorted(all) && i < |all| && all[i] == b
  {
    var all := SortByTime(Filter(listing, Some(w)));
    SortSorts(Filter(listing, Some(w)));
    FilterMembers(listing, Some(w));
    assert b in multiset(Filter(listing, Some(w)));
    assert b in multiset(all);
    i :| 0 <= i < |all| && all[i] == b;
  }

  lemma {:induction false} NewerShrinks(listing: seq<Blob>, w: int, v: int)
    requires w <= v
    ensures NewerCount(listing, v) <= NewerCount(listing, w)
    ensures (exists b :: b in listing && w < b.modified <= v) ==> NewerCount(listing, v) < NewerCount(listing, w)
  {
    if listing != [] {
      NewerShrinks(listing[1..], w, v);
      if b :| b in listing && w < b.modified <= v {
        assert b == listing[0] || b in listing[1..];
      }
    }
  }

  /** A pass that advances leaves fewer blobs ahead. */
  lemma BacklogShrinks(listing: seq<Blob>, w: int)
    requires NewerCount(listing, w) > 0 && WindowCount(listing, w) < MAX_BLOBS_PER_RUN
    ensures NextMark(listing, Some(w)).Some?
    ensures NewerCount(listing, NextMark(listing, Some(w)).value) < NewerCount(listing, w)
  {
    PassAdvances(listing, w);
    var pending := Pending(listing, Some(w));
    HighWaterBounds(Some(w), pending);
    PendingIsPrefix(listing, Some(w));
    var b :| b in pending && NextMark(listing, Some(w)) == Some(b.modified);
    NewerShrinks(listing, w, b.modified);
  }

  // ---- pass after pass ----

  /** Each listing has everything the ones before it had. */
  ghost predicate Growing(ls: seq<seq<Blob>>) {
    forall i, j :: 0 <= i <= j < |ls| ==> multiset(ls[i]) <= multiset(ls[j])
  }

  /** Whether one of the passes over these listings handles the blob. */
  ghost predicate CoveredBy(ls: seq<seq<Blob>>, mark: Option<int>, b: Blob)
    decreases |ls|
  {
    ls != [] && (b in Pending(ls[0], mark) || CoveredBy(ls[1..], NextMark(ls[0], mark), b))
  }

  /** The watermark after the passes. */
  function MarkAfter(ls: seq<seq<Blob>>, mark: Option<int>): Option<int>
    decreases |ls|
  {
    if ls == [] then mark else MarkAfter(ls[1..], NextMark(ls[0], mark))
  }

  lemma {:induction false} CountCat(a: seq<Blob>, b: seq<Blob>, lo: Option<int>, hi: int)
    ensures CountRange(a + b, lo, hi) == CountRange(a, lo, hi) + CountRange(b, lo, hi)
  {
    if a == [] {
      assert a + b == b;
    } else {
      assert (a + b)[1..] == a[1..] + b;
      CountCat(a[1..], b, lo, hi);
    }
  }

  /** A listing with one blob taken out. */
  lemma Without(b: seq<Blob>, i: nat, lo: Option<int>, hi: int) returns (rest: seq<Blob>)
    requires i < |b|
    ensures CountRange(b, lo, hi) == CountRange(rest, lo, hi) + CountRange([b[i]], lo, hi)
    ensures multiset(b) == multiset(rest) + multiset{b[i]}
  {
    var front, back := b[..i], b[i + 1..];
    rest := front + back;
    assert b == front + ([b[i]] + back);
    CountCat(front, back, lo, hi);
    CountCat(front, [b[i]] + back, lo, hi);
    CountCat([b[i]], back, lo, hi);
  }

  /** A listing that has grown counts at least as many. */
  lemma {:induction false} CountGrows(a: seq<Blob>, b: seq<Blob>, lo: Option<int>, hi: int)
    requires multiset(a) <= multiset(b)
    ensures CountRange(a, lo, hi) <= CountRange(b, lo, hi)
    decreases |a|
  {
    if a != [] {
      assert a == [a[0]] + a[1..];
      assert a[0] in multiset(a);
      var i :| 0 <= i < |b| && b[i] == a[0];
      var rest := Without(b, i, lo, hi);
      assert multiset(a) == multiset{a[0]} + multiset(a[1..]);
      forall x ensures multiset(a[1..])[x] <= multiset(rest)[x] {
        assert multiset(a)[x] <= multiset(b)[x];
      }
      CountGrows(a[1..], rest, lo, hi);
      CountCat([a[0]], a[1..], lo, hi);
    }
  }

  /** A higher watermark that passes some blob leaves fewer above it. */
  lemma {:induction false} RangeShrinks(bs: seq<Blob>, lo: Option<int>, v: int, hi: int)
    requires lo.None? || lo.value <= v
    ensures CountRange(bs, Some(v), hi) <= CountRange(bs, lo, hi)
    ensures (exists c :: c in bs && (lo.None? || lo.value < c.modified) && c.modified <= v && c.modified <= hi) ==>
              CountRange(bs, Some(v), hi) < CountRange(bs, lo, hi)
  {
    if bs != [] {
      RangeShrinks(bs[1..], lo, v, hi);
      if c :| c in bs && (lo.None? || lo.value < c.modified) && c.modified <= v && c.modified <= hi {
        assert c == bs[0] || c in bs[1..];
      }
    }
  }

  lemma {:induction false} SomeInRange(bs: seq<Blob>, lo: Option<int>, hi: int, c: Blob)
    requires c in bs && (lo.None? || lo.value < c.modified) && c.modified <= hi
    ensures CountRange(bs, lo, hi) > 0
  {
    if c != bs[0] {
      SomeInRange(bs[1..], lo, hi, c);
    }
  }

  lemma {:induction false} SomeNewer(bs: seq<Blob>, w: int, c: Blob)
    requires c in bs && c.modified > w
    ensures NewerCount(bs, w) > 0
  {
    if c != bs[0] {
      SomeNewer(bs[1..], w, c);
    }
  }

  /** Every ten-minute stretch holds fewer blobs than a pass may handle. */
  ghost predicate Sparse(listing: seq<Blob>) {
    forall w :: WindowCount(listing, w) < MAX_BLOBS_PER_RUN
  }

  lemma SparseBefore(ls: seq<seq<Blob>>, i: nat)
    requires Growing(ls) && i < |ls| && Sparse(ls[|ls| - 1])
    ensures Sparse(ls[i])
  {
    forall w ensures WindowCount(ls[i], w) < MAX_BLOBS_PER_RUN {
      assert WindowCount(ls[|ls| - 1], w) < MAX_BLOBS_PER_RUN;
      CountGrows(ls[i], ls[|ls| - 1], Some(w - OVERLAP), w);
    }
  }

  lemma GrowingTail(ls: seq<seq<Blob>>, b: Blob)
    requires Growing(ls) && |ls| >= 2 && b in ls[0]
    ensures Growing(ls[1..]) && b in ls[1..][0]
    ensures forall c :: c in ls[0] ==> c in ls[|ls| - 1]
  {
    var next, last := ls[1], ls[|ls| - 1];
    assert b in multiset(ls[0]) && b in multiset(next);
    forall c | c in ls[0] ensures c in last {
      assert c in multiset(ls[0]) && c in multiset(last);
    }
  }

  /** While blobs go on coming, each is handled within as many passes as there are blobs, in the
      last listing, between the watermark and it, and one more. */
  lemma {:induction false} BacklogDrains(ls: seq<seq<Blob>>, w: int, b: Blob)
    requires ls != [] && Growing(ls) && Sparse(ls[|ls| - 1])
    requires b in ls[0] && b.modified > w - OVERLAP && |ls| > CountRange(ls[|ls| - 1], Some(w), b.modified)
    ensures CoveredBy(ls, Some(w), b)
    decreases |ls|
  {
    var listing, last := ls[0], ls[|ls| - 1];
    SparseBefore(ls, 0);
    assert WindowCount(listing, w) < MAX_BLOBS_PER_RUN;
    if b.modified <= w {
      PassCoversWindow(listing, w, b);
    } else {
      SomeNewer(listing, w, b);
      PassAdvances(listing, w);
      NextPass(ls, Some(w), b);
    }
  }

  /** A pass that moves the watermark handles the blob, or leaves fewer before it. */
  lemma {:induction false} NextPass(ls: seq<seq<Blob>>, mark: Option<int>, b: Blob)
    requires ls != [] && Growing(ls) && Sparse(ls[|ls| - 1])
    requires b in ls[0] && Recent(b, mark) && (mark.Some? ==> b.modified > mark.value)
    requires NextMark(ls[0], mark).Some? && mark != NextMark(ls[0], mark)
    requires |ls| > CountRange(ls[|ls| - 1], mark, b.modified)
    ensures CoveredBy(ls, mark, b)
    decreases |ls|, 1
  {
    var last, v := ls[|ls| - 1], NextMark(ls[0], mark).value;
    var c := HighestHandled(ls[0], mark);
    if b.modified < v {
      HandledBelow(ls[0], mark, v, b);
    } else {
      assert b in multiset(ls[0]) && b in multiset(last);
      SomeInRange(last, mark, b.modified, b);
      GrowingTail(ls, b);
      assert c in last;
      RangeShrinks(last, mark, v, b.modified);
      assert ls[1..][|ls| - 2] == last;
      BacklogDrains(ls[1..], v, b);
    }
  }

  /** The blob that gives a pass its new watermark. */
  lemma HighestHandled(listing: seq<Blob>, mark: Option<int>) returns (c: Blob)
    requires NextMark(listing, mark).Some? && mark != NextMark(listing, mark)
    ensures c in listing && c.modified == NextMark(listing, mark).value && (mark.None? || mark.value < c.modified)
  {
    var pending := Pending(listing, mark);
    HighWaterBounds(mark, pending);
    PendingIsPrefix(listing, mark);
    c :| c in pending && NextMark(listing, mark) == Some(c.modified);
  }

  lemma HandledBelow(listing: seq<Blob>, mark: Option<int>, v: int, b: Blob)
    requires NextMark(listing, mark) == Some(v) && mark != Some(v)
    requires b in listing && Recent(b, mark) && b.modified < v
    ensures b in Pending(listing, mark)
  {
    var pending := Pending(listing, mark);
    HighWaterBounds(mark, pending);
    PendingIsPrefix(listing, mark);
    var c :| c in pending && Some(v) == Some(c.modified);
    var i :| 0 <= i < |pending| && pending[i] == c;
    assert b in pending[..i];
  }

  /** From scratch, too: with no watermark at all, each is handled within as many passes as there
      are blobs not newer than it, and one more. */
  lemma FreshStartDrains(ls: seq<seq<Blob>>, b: Blob)
    requires ls != [] && Growing(ls) && Sparse(ls[|ls| - 1])
    requires b in ls[0] && |ls| > CountRange(ls[|ls| - 1], None, b.modified)
    ensures CoveredBy(ls, None, b)
  {
    var pending := Pending(ls[0], None);
    PendingIsPrefix(ls[0], None);
    HighWaterBounds(None, pending);
    assert pending == [] ==> b in pending;
    NextPass(ls, None, b);
  }

  /** An over-full overlap window stops the import for good, however the listing grows: no later
      pass handles any blob newer than the watermark, which stays put. */
  lemma {:induction false} OverfullWindowStalls(ls: seq<seq<Blob>>, w: int, b: Blob)
    requires Growing(ls) && (ls != [] ==> WindowCount(ls[0], w) >= MAX_BLOBS_PER_RUN)
    ensures MarkAfter(ls, Some(w)) == Some(w)
    ensures b.modified > w ==> !CoveredBy(ls, Some(w), b)
    decreases |ls|
  {
    if ls != [] {
      PassAdvances(ls[0], w);
      HighWaterBounds(Some(w), Pending(ls[0], Some(w)));
      if |ls| > 1 {
        CountGrows(ls[0], ls[1], Some(w - OVERLAP), w);
        assert Growing(ls[1..]);
      }
      OverfullWindowStalls(ls[1..], w, b);
    }
  }
}

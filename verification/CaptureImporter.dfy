/** One pass of the importer as the object that runs it. */
module CaptureImporter {
  import opened Wrappers
  import opened Timestamps
  import opened CaptureDocuments
  import opened CaptureSpec
  import opened CaptureProofs

  function ImportEvents(store: Store, es: seq<Event>, markups: Markups, now: Utc): Store
    decreases |es|
  {
    if es == [] then store else ImportEvents(ImportEvent(store, es[0], markups, now), es[1..], markups, now)
  }

  function EventsOf(bs: seq<Blob>): seq<Event> {
    if bs == [] then [] else bs[0].events + EventsOf(bs[1..])
  }

  function KeyedCount(es: seq<Event>): nat {
    if es == [] then 0 else (if Keyed(es[0]) then 1 else 0) + KeyedCount(es[1..])
  }

  /** Where an exception ends a pass: fetching blob `blob`, or at event `event` of it. */
  datatype Stop = Never | AtDownload(blob: nat) | AtEvent(blob: nat, event: nat)

  /** How many blobs a pass finishes. */
  function Finished(stop: Stop, pending: seq<Blob>): nat {
    match stop
    case Never => |pending|
    case AtDownload(b) => if b < |pending| then b else |pending|
    case AtEvent(b, e) => if b < |pending| && e < |pending[b].events| then b else |pending|
  }

  /** The events of the blob after those that are in as well. */
  function Partial(stop: Stop, pending: seq<Blob>): seq<Event> {
    if stop.AtEvent? && stop.blob < |pending| && stop.event < |pending[stop.blob].events|
    then pending[stop.blob].events[..stop.event] else []
  }

  /** The events a pass imports before `stop` ends it. */
  function Handled(stop: Stop, pending: seq<Blob>): seq<Event> {
    EventsOf(pending[..Finished(stop, pending)]) + Partial(stop, pending)
  }

  /** Reading the watermark: a date, something else, or a database error. */
  datatype MarkResult = Parsed | Unparsed | Raises

  lemma {:induction false} ImportSnoc(store: Store, es: seq<Event>, e: Event, markups: Markups, now: Utc)
    ensures ImportEvents(store, es + [e], markups, now) == ImportEvent(ImportEvents(store, es, markups, now), e, markups, now)
    ensures KeyedCount(es + [e]) == KeyedCount(es) + if Keyed(e) then 1 else 0
    decreases |es|
  {
    if es == [] {
      assert [e][1..] == [];
    } else {
      assert (es + [e])[1..] == es[1..] + [e];
      ImportSnoc(ImportEvent(store, es[0], markups, now), es[1..], e, markups, now);
    }
  }

  lemma {:induction false} ImportCat(store: Store, es: seq<Event>, fs: seq<Event>, markups: Markups, now: Utc)
    ensures ImportEvents(store, es + fs, markups, now) == ImportEvents(ImportEvents(store, es, markups, now), fs, markups, now)
    ensures KeyedCount(es + fs) == KeyedCount(es) + KeyedCount(fs)
    decreases |es|
  {
    if es == [] {
      assert es + fs == fs;
    } else {
      assert (es + fs)[1..] == es[1..] + fs;
      ImportCat(ImportEvent(store, es[0], markups, now), es[1..], fs, markups, now);
    }
  }

  lemma {:induction false} EventsSnoc(bs: seq<Blob>, b: Blob)
    ensures EventsOf(bs + [b]) == EventsOf(bs) + b.events
    decreases |bs|
  {
    if bs == [] {
      assert [b][1..] == [];
    } else {
      assert (bs + [b])[1..] == bs[1..] + [b];
      EventsSnoc(bs[1..], b);
    }
  }

  /** The events of one more blob. */
  lemma NextBlob(bs: seq<Blob>, i: nat)
    requires i < |bs|
    ensures EventsOf(bs[..i + 1]) == EventsOf(bs[..i]) + bs[i].events
  {
    assert bs[..i + 1] == bs[..i] + [bs[i]];
    EventsSnoc(bs[..i], bs[i]);
  }

  class UsageCaptureImporter {
    var store: Store
    var watermark: Option<int>

    constructor ()
      ensures store == map[] && watermark == None
    {
      store, watermark := map[], None;
    }

    /** The loop over the events of one blob; `raiseAt` is where an exception leaves it. */
    method ImportBlob(blob: Blob, markups: Markups, now: Utc, raiseAt: Option<nat>)
      returns (written: nat, skipped: nat, failed: bool)
      modifies this`store
      ensures failed <==> raiseAt.Some? && raiseAt.value < |blob.events|
      ensures var es := if failed then blob.events[..raiseAt.value] else blob.events;
              store == ImportEvents(old(store), es, markups, now) &&
              written == KeyedCount(es) && written + skipped == |es|
    {
      written, skipped := 0, 0;
      for j := 0 to |blob.events|
        invariant store == ImportEvents(old(store), blob.events[..j], markups, now)
        invariant written == KeyedCount(blob.events[..j]) && written + skipped == j
        invariant raiseAt.Some? ==> j <= raiseAt.value
      {
        if raiseAt == Some(j) {
          return written, skipped, true;
        }
        assert blob.events[..j + 1] == blob.events[..j] + [blob.events[j]];
        ImportSnoc(old(store), blob.events[..j], blob.events[j], markups, now);
        match EventToDocument(blob.events[j], markups, now) {
          case None => skipped := skipped + 1;
          case Some(d) =>
            store := store[KeyOf(d) := d];
            written := written + 1;
        }
      }
      assert blob.events[..|blob.events|] == blob.events;
      failed := false;
    }

    /** The loop of `run_once` over the pending blobs. */
    method ImportPending(pending: seq<Blob>, mark: Option<int>, markups: Markups, now: Utc, stop: Stop)
      returns (high: Option<int>, blobs: nat, written: nat, skipped: nat)
      modifies this`store
      ensures store == ImportEvents(old(store), Handled(stop, pending), markups, now)
      ensures var n := Finished(stop, pending);
              high == HighWater(mark, pending[..n]) && blobs == (if n < |pending| && stop.AtEvent? then n + 1 else n)
      ensures written == KeyedCount(Handled(stop, pending)) && written + skipped == |Handled(stop, pending)|
    {
      high, blobs, written, skipped := mark, 0, 0, 0;
      ghost var n := Finished(stop, pending);
      var i := 0;
      while i < |pending| && stop != AtDownload(i)
        invariant i <= n && blobs == i
        invariant store == ImportEvents(old(store), EventsOf(pending[..i]), markups, now)
        invariant high == HighWater(mark, pending[..i])
        invariant written == KeyedCount(EventsOf(pending[..i]))
        invariant written + skipped == |EventsOf(pending[..i])|
        decreases |pending| - i
      {
        blobs := blobs + 1;
        var raiseAt := if stop.AtEvent? && stop.blob == i then Some(stop.event) else None;
        var w, k, failed := ImportBlob(pending[i], markups, now, raiseAt);
        written, skipped := written + w, skipped + k;
        if failed {
          ImportCat(old(store), EventsOf(pending[..i]), Partial(stop, pending), markups, now);
          return;
        }
        ImportCat(old(store), EventsOf(pending[..i]), pending[i].events, markups, now);
        NextBlob(pending, i);
        HighWaterStep(mark, pending, i);
        if high.None? || pending[i].modified > high.value {
          high := Some(pending[i].modified);
        }
        i := i + 1;
      }
      assert Handled(stop, pending) == EventsOf(pending[..n]);
    }

    /** `run_once`. A listing that fails is an empty one. The watermark only moves over blobs
        that are completely in; only a database error while reading it escapes. */
    method RunOnce(listing: seq<Blob>, markups: Markups, now: Utc, read: MarkResult, stop: Stop, writeOk: bool)
      returns (raised: bool, blobs: nat, written: nat, skipped: nat)
      modifies this
      ensures raised <==> read.Raises?
      ensures raised ==> store == old(store) && watermark == old(watermark)
      ensures var mark := if read.Parsed? then old(watermark) else None;
              var pending := Pending(listing, mark);
              var n := Finished(stop, pending);
              var high := HighWater(mark, pending[..n]);
              !raised ==>
                store == ImportEvents(old(store), Handled(stop, pending), markups, now) &&
                watermark == (if writeOk && high.Some? then high else old(watermark)) &&
                blobs == (if n < |pending| && stop.AtEvent? then n + 1 else n) &&
                written == KeyedCount(Handled(stop, pending)) &&
                written + skipped == |Handled(stop, pending)|
    {
      raised, blobs, written, skipped := read.Raises?, 0, 0, 0;
      if raised { return; }
      var mark := if read.Parsed? then watermark else None;
      var pending := Pending(listing, mark);
      var high: Option<int>;
      high, blobs, written, skipped := ImportPending(pending, mark, markups, now, stop);
      HighWaterBounds(mark, pending[..Finished(stop, pending)]);
      if high.Some? && high != mark && writeOk {
        watermark := high;
      }
    }
  }
}

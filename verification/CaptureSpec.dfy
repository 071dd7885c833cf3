/**
  The capture import as a protocol: blobs keep being written, any number of replicas run passes
  against one watermark row, a pass may stop anywhere, and a slow pass may write back an older
  watermark. Times are whole microseconds.
 */
module CaptureSpec {
  import opened Wrappers
  import opened Timestamps
  import opened CaptureDocuments

  const OVERLAP := 600_000_000
  const MAX_BLOBS_PER_RUN := 500

  datatype Blob = Blob(name: nat, modified: int, events: seq<Event>)

  // ---- choosing the blobs of a pass ----

  /** Whether a blob is newer than the watermark less the overlap. */
  predicate Recent(b: Blob, watermark: Option<int>) {
    watermark.None? || b.modified > watermark.value - OVERLAP
  }

  function Filter(listing: seq<Blob>, watermark: Option<int>): seq<Blob> {
    if listing == [] then []
    else (if Recent(listing[0], watermark) then [listing[0]] else []) + Filter(listing[1..], watermark)
  }

  function Insert(b: Blob, sorted: seq<Blob>): seq<Blob> {
    if sorted == [] || b.modified <= sorted[0].modified then [b] + sorted
    else [sorted[0]] + Insert(b, sorted[1..])
  }

  /** A stable sort by modification time. */
  function SortByTime(bs: seq<Blob>): seq<Blob> {
    if bs == [] then [] else Insert(bs[0], SortByTime(bs[1..]))
  }

  function Cap(bs: seq<Blob>): seq<Blob> {
    if |bs| <= MAX_BLOBS_PER_RUN then bs else bs[..MAX_BLOBS_PER_RUN]
  }

  /** The blobs a pass handles: the oldest 500 of the recent ones, oldest first. */
  function Pending(listing: seq<Blob>, watermark: Option<int>): seq<Blob> {
    Cap(SortByTime(Filter(listing, watermark)))
  }

  function Higher(high: Option<int>, b: Blob): Option<int> {
    if high.None? || b.modified > high.value then Some(b.modified) else high
  }

  /** The highest of a starting mark and the times of some blobs. */
  function HighWater(start: Option<int>, bs: seq<Blob>): Option<int>
    decreases |bs|
  {
    if bs == [] then start else HighWater(Higher(start, bs[0]), bs[1..])
  }

  // ---- the protocol ----

  /** A running pass: the watermark and the table of markups it read, its blobs once listed, how
      many are finished, how many events of the next one are in, and its high-water mark. */
  datatype Pass = Pass(read: Option<int>, markups: Markups, listed: bool, pending: seq<Blob>,
                       finished: nat, at: nat, high: Option<int>)

  datatype State = State(written: set<Blob>, store: Store, watermark: Option<int>, newestListed: Option<int>,
                         passes: seq<Pass>)

  const INIT := State({}, map[], None, None, [])

  /** The watermark a pass starts from: a row that is no date reads as none. */
  function MarkRead(s: State, parsed: bool): Option<int> { if parsed then s.watermark else None }

  datatype Step =
    | WriteBlob(blob: Blob)
    | BeginPass(markups: Markups, parsed: bool)
    | ListBlobs(p: nat, listing: seq<Blob>)
    | StoreEvent(p: nat, now: Utc)
    | FinishBlob(p: nat)
    | WriteWatermark(p: nat)

  function Newest(listing: seq<Blob>): Option<int> { HighWater(None, listing) }

  /** A blob missing from a listing is newer than the newest one listed less the overlap. */
  ghost predicate Visible(listing: seq<Blob>, b: Blob) {
    b in listing || Newest(listing).None? || b.modified > Newest(listing).value - OVERLAP
  }

  ghost predicate Enabled(s: State, step: Step) {
    match step
    case WriteBlob(b) => s.newestListed.None? || b.modified > s.newestListed.value - OVERLAP
    case BeginPass(_, _) => true
    case ListBlobs(p, listing) =>
      && p < |s.passes| && !s.passes[p].listed
      && (forall b :: b in listing ==> b in s.written)
      && (forall b :: b in s.written ==> Visible(listing, b))
    case StoreEvent(p, _) =>
      && p < |s.passes| && s.passes[p].finished < |s.passes[p].pending|
      && s.passes[p].at < |s.passes[p].pending[s.passes[p].finished].events|
    case FinishBlob(p) =>
      && p < |s.passes| && s.passes[p].finished < |s.passes[p].pending|
      && s.passes[p].at == |s.passes[p].pending[s.passes[p].finished].events|
    case WriteWatermark(p) => p < |s.passes| && s.passes[p].high.Some? && s.passes[p].high != s.passes[p].read
  }

  function Latest(a: Option<int>, b: Option<int>): Option<int> {
    if a.None? then b else if b.None? || b.value <= a.value then a else b
  }

  function Apply(s: State, step: Step): State
    requires Enabled(s, step)
  {
    match step
    case WriteBlob(b) => s.(written := s.written + {b})
    case BeginPass(markups, parsed) =>
      var mark := MarkRead(s, parsed);
      s.(passes := s.passes + [Pass(mark, markups, false, [], 0, 0, mark)])
    case ListBlobs(p, listing) =>
      var pass := s.passes[p];
      s.(newestListed := Latest(s.newestListed, Newest(listing)),
         passes := s.passes[p := pass.(listed := true, pending := Pending(listing, pass.read))])
    case StoreEvent(p, now) =>
      var pass := s.passes[p];
      s.(store := ImportEvent(s.store, pass.pending[pass.finished].events[pass.at], pass.markups, now),
         passes := s.passes[p := pass.(at := pass.at + 1)])
    case FinishBlob(p) =>
      var pass := s.passes[p];
      s.(passes := s.passes[p := pass.(finished := pass.finished + 1, at := 0,
                                       high := Higher(pass.high, pass.pending[pass.finished]))])
    case WriteWatermark(p) => s.(watermark := s.passes[p].high)
  }

  ghost predicate Run(steps: seq<Step>, states: seq<State>) {
    && |states| == |steps| + 1
    && states[0] == INIT
    && forall i :: 0 <= i < |steps| ==>
         Enabled(states[i], steps[i]) && states[i + 1] == Apply(states[i], steps[i])
  }
}

/**
  What the store holds, whoever imported it: under each key the document of a written event, billed
  by the table of markups that some pass read; and when importing an event again is free.
 */
module CaptureContents {
  import opened Timestamps
  import opened Billing
  import opened CaptureDocuments
  import opened CaptureSpec
  import opened CaptureProofs

  ghost predicate Emits(written: set<Blob>, e: Event) {
    exists b :: b in written && e in b.events
  }

  function DocOf(e: Event, markups: Markups, now: Utc): Doc
    requires Keyed(e)
  {
    EventToDocument(e, markups, now).value
  }

  /** The document under `k` was made from `e` by pass `p`, at the time `now`. */
  ghost predicate Sourced(s: State, k: Key, e: Event, p: nat, now: Utc)
    requires k in s.store
  {
    && p < |s.passes| && Emits(s.written, e) && Keyed(e)
    && KeyAt(e, now) == k && s.store[k] == DocOf(e, s.passes[p].markups, now)
  }

  ghost predicate HasSource(s: State, k: Key)
    requires k in s.store
  {
    exists e, p, now: Utc :: Sourced(s, k, e, p, now)
  }

  ghost predicate Faithful(s: State) {
    && (forall k :: k in s.store ==> HasSource(s, k))
    && (forall p :: 0 <= p < |s.passes| ==> forall b :: b in s.passes[p].pending ==> b in s.written)
  }

  lemma EmitsGrows(a: set<Blob>, b: set<Blob>, e: Event)
    requires Emits(a, e) && a <= b
    ensures Emits(b, e)
  {
    var c :| c in a && e in c.events;
    assert c in b;
  }

  ghost predicate TablesStay(s: State, t: State) {
    |s.passes| <= |t.passes| && forall p :: 0 <= p < |s.passes| ==> t.passes[p].markups == s.passes[p].markups
  }

  lemma SourceStays(s: State, t: State, k: Key)
    requires k in s.store && HasSource(s, k) && s.written <= t.written && TablesStay(s, t)
    requires k in t.store && t.store[k] == s.store[k]
    ensures HasSource(t, k)
  {
    var e, p, now: Utc :| Sourced(s, k, e, p, now);
    EmitsGrows(s.written, t.written, e);
    assert Sourced(t, k, e, p, now);
  }

  /** The event pass `p` is about to store was written. */
  lemma NextIsWritten(s: State, p: nat, now: Utc)
    requires Faithful(s) && Enabled(s, StoreEvent(p, now))
    ensures var pass := s.passes[p]; Emits(s.written, pass.pending[pass.finished].events[pass.at])
  {
    var pass := s.passes[p];
    assert pass.pending[pass.finished] in pass.pending;
  }

  lemma StoreFaithful(s: State, p: nat, now: Utc)
    requires Faithful(s) && Enabled(s, StoreEvent(p, now))
    ensures Faithful(Apply(s, StoreEvent(p, now)))
  {
    var t := Apply(s, StoreEvent(p, now));
    var pass := s.passes[p];
    var e := pass.pending[pass.finished].events[pass.at];
    NextIsWritten(s, p, now);
    assert TablesStay(s, t);
    forall k | k in t.store ensures HasSource(t, k) {
      if Keyed(e) && k == KeyAt(e, now) {
        assert t.store[k] == DocOf(e, t.passes[p].markups, now);
        assert Sourced(t, k, e, p, now);
      } else {
        SourceStays(s, t, k);
      }
    }
  }

  lemma SameStoreFaithful(s: State, t: State)
    requires Faithful(s) && t.store == s.store && s.written <= t.written && TablesStay(s, t)
    requires forall p :: 0 <= p < |t.passes| ==> forall b :: b in t.passes[p].pending ==> b in t.written
    ensures Faithful(t)
  {
    forall k | k in t.store ensures HasSource(t, k) {
      SourceStays(s, t, k);
    }
  }

  lemma StepFaithful(s: State, step: Step)
    requires Faithful(s) && Enabled(s, step)
    ensures Faithful(Apply(s, step))
  {
    match step {
      case StoreEvent(p, now) => StoreFaithful(s, p, now);
      case ListBlobs(p, listing) =>
        PendingIsPrefix(listing, s.passes[p].read);
        SameStoreFaithful(s, Apply(s, step));
      case _ => SameStoreFaithful(s, Apply(s, step));
    }
  }

  /** In every run, whatever the clocks and the tables: each stored document is that of some
      written event, billed by the table of some pass. */
  lemma {:induction false} RunFaithful(steps: seq<Step>, states: seq<State>, i: nat)
    requires Run(steps, states) && i < |states|
    ensures Faithful(states[i])
  {
    if i > 0 {
      RunFaithful(steps, states, i - 1);
      StepFaithful(states[i - 1], steps[i - 1]);
      assert states[i - 1 + 1] == Apply(states[i - 1], steps[i - 1]);
    }
  }

  // ---- importing an event again ----

  /** Events with the same key make the same document from the same table, at any times:
      at-least-once delivery repeats an event byte for byte, and its timestamp parses. */
  ghost predicate Consistent(written: set<Blob>) {
    forall e, f, markups, a: Utc, b: Utc ::
      (Emits(written, e) && Emits(written, f) && Keyed(e) && Keyed(f) && KeyAt(e, a) == KeyAt(f, b))
        ==> DocOf(e, markups, a) == DocOf(f, markups, b)
  }

  /** What an event is billed under a table. */
  function Bill(e: Event, markups: Markups): int {
    match CostFromCopilotUsage(e.nano, MarkupOf(markups, OrUnknown(e.model)))
    case None => 0
    case Some(c) => c.billed
  }

  lemma OnlyTheBillVaries(e: Event, m: Markups, n: Markups, a: Utc)
    requires Keyed(e)
    ensures DocOf(e, m, a).billed == Bill(e, m)
    ensures DocOf(e, n, a) == DocOf(e, m, a).(billed := Bill(e, n))
  {
  }

  lemma ConsistentParses(written: set<Blob>, e: Event)
    requires Consistent(written) && Emits(written, e) && Keyed(e)
    ensures e.ts.Some?
  {
    var a: Utc := DateTime(2026, 1, 1, 0, 0, 0, 0);
    var b: Utc := DateTime(2026, 1, 2, 0, 0, 0, 0);
    assert KeyAt(e, a) == KeyAt(e, b) ==> DocOf(e, map[], a).ts == DocOf(e, map[], b).ts;
  }

  /** A stored key that an event of a consistent feed has holds its document, billed by the table
      of some pass. */
  lemma StoredAs(s: State, e: Event, now: Utc) returns (p: nat)
    requires Faithful(s) && Consistent(s.written) && Emits(s.written, e) && Keyed(e) && KeyAt(e, now) in s.store
    ensures p < |s.passes| && s.store[KeyAt(e, now)] == DocOf(e, s.passes[p].markups, now)
  {
    var k := KeyAt(e, now);
    assert HasSource(s, k);
    var f, q: nat, u: Utc :| Sourced(s, k, f, q, u);
    p := q;
    assert KeyAt(f, u) == KeyAt(e, now);
  }

  /** In every run of a consistent feed: a keyed event behind the watermark is stored, billed by
      the table of some pass, and importing it again sets the bill to that of the table now read.
      That changes nothing exactly when the two tables bill the event alike. */
  lemma ReimportIsNoOp(steps: seq<Step>, states: seq<State>, i: nat, b: Blob, e: Event, markups: Markups, now: Utc)
    returns (p: nat)
    requires Run(steps, states) && i < |states| && Consistent(states[i].written)
    requires b in states[i].written && e in b.events && Keyed(e)
    requires states[i].watermark.Some? && b.modified <= states[i].watermark.value - OVERLAP
    ensures p < |states[i].passes|
    ensures var s, k := states[i].store, KeyAt(e, now);
            k in s && s[k].billed == Bill(e, states[i].passes[p].markups) &&
            ImportEvent(s, e, markups, now) == s[k := s[k].(billed := Bill(e, markups))]
    ensures ImportEvent(states[i].store, e, markups, now) == states[i].store
            <==> Bill(e, markups) == Bill(e, states[i].passes[p].markups)
  {
    var s, k := states[i], KeyAt(e, now);
    ImportSafety(steps, states, i);
    RunFaithful(steps, states, i);
    assert Emits(s.written, e);
    ConsistentParses(s.written, e);
    assert Present(s.store, e);
    var t: Utc :| KeyAt(e, t) in s.store;
    assert KeyAt(e, t) == k;
    p := StoredAs(s, e, now);
    Rebilled(s.store, e, s.passes[p].markups, markups, now);
  }

  /** Importing a stored event again changes its bill and nothing else. */
  lemma Rebilled(store: Store, e: Event, m: Markups, n: Markups, now: Utc)
    requires Keyed(e) && KeyAt(e, now) in store && store[KeyAt(e, now)] == DocOf(e, m, now)
    ensures var k := KeyAt(e, now);
            store[k].billed == Bill(e, m) &&
            ImportEvent(store, e, n, now) == store[k := store[k].(billed := Bill(e, n))]
    ensures ImportEvent(store, e, n, now) == store <==> Bill(e, n) == Bill(e, m)
  {
    var k := KeyAt(e, now);
    OnlyTheBillVaries(e, m, n, now);
    assert ImportEvent(store, e, n, now)[k].billed == Bill(e, n);
  }

  /** Two events with one key and different documents cannot both be imported again for free. */
  lemma ConflictingEventsOverwrite(store: Store, e: Event, f: Event, markups: Markups, now: Utc)
    requires Keyed(e) && Keyed(f) && KeyAt(e, now) == KeyAt(f, now)
    requires DocOf(e, markups, now) != DocOf(f, markups, now)
    ensures ImportEvent(store, e, markups, now) != store || ImportEvent(store, f, markups, now) != store
  {
    var k := KeyAt(e, now);
    assert ImportEvent(store, e, markups, now)[k] == DocOf(e, markups, now);
    assert ImportEvent(store, f, markups, now)[k] == DocOf(f, markups, now);
  }
}

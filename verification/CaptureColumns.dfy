/** What the columns of a stored document are, in terms of the event it was made from. */
module CaptureColumns {
  import opened Wrappers
  import opened Timestamps
  import opened Billing
  import opened CaptureDocuments
  import opened CaptureSpec
  import opened CaptureContents
  import opened CaptureImporter

  predicate Given(x: Option<string>) { x.Some? && x.value != "" }

  /** The columns that name and place a document. The partition is the subscription and the digits
      of the year and month as the timestamp prints them. */
  predicate Placed(d: Doc, e: Event, now: Utc) {
    && Given(e.requestId) && d.id == e.requestId.value
    && d.ts == (if e.ts.Some? then e.ts.value else now)
    && d.subscription == (if Given(e.subscription) then e.subscription.value else "unknown")
    && d.route == (if Given(e.model) then e.model.value else "unknown")
    && |Iso(d.ts)| >= 7 && d.pk == d.subscription + "_" + Iso(d.ts)[..4] + Iso(d.ts)[5..7]
    && d.rest == e.rest
  }

  /** The nearest whole number. */
  predicate Nearest(n: int, x: real) { x - 0.5 <= n as real <= x + 0.5 }

  /** Cost and bill of a nano total at a markup. */
  predicate IsPair(cost: int, billed: int, x: real, markup: real) {
    && Nearest(cost, x) && (x == x.Floor as real ==> cost as real == x)
    && Nearest(billed, x * (1.0 + markup))
  }

  /** The markup is that of the route; a route the table does not have has none. */
  predicate Priced(d: Doc, e: Event, markups: Markups) {
    && (d.priced <==> e.nano.Some?)
    && (e.nano.None? ==> d.cost == 0 && d.billed == 0)
    && (e.nano.Some? ==> IsPair(d.cost, d.billed, e.nano.value, if d.route in markups then markups[d.route] else 0.0))
  }

  /** The token counts are upstream's own split by kind if it counts anything, and otherwise those
      the hub gave, which has no cache writes. */
  predicate Counted(d: Doc, e: Event) {
    var split := Tokens(CountsOf(e.details, "input"), CountsOf(e.details, "output"),
                        CountsOf(e.details, "cache_read"), CountsOf(e.details, "cache_write"));
    d.tokens == if split != Tokens(0, 0, 0, 0) then split
                else Tokens(e.fallback.prompt, e.fallback.completion, e.fallback.cached, 0)
  }

  predicate HasColumns(d: Doc, e: Event, markups: Markups, now: Utc) {
    Placed(d, e, now) && Priced(d, e, markups) && Counted(d, e)
  }

  lemma PartitionDigits(t: Utc)
    ensures |Iso(t)| >= 7 && Iso(t)[..4] == Dec4(t.y) && Iso(t)[5..7] == Dec2(t.mo)
  {
    var date := DateText(t);
    assert date == Dec4(t.y) + ("-" + Dec2(t.mo) + "-" + Dec2(t.d));
    assert |Dec4(t.y)| == 4 && |Dec2(t.mo)| == 2;
    assert date[..4] == Dec4(t.y) && date[5..7] == Dec2(t.mo);
    assert date <= Iso(t);
  }

  lemma DocumentPlaced(e: Event, markups: Markups, now: Utc)
    requires Given(e.requestId)
    ensures Keyed(e) && Placed(DocOf(e, markups, now), e, now)
  {
    var d := DocOf(e, markups, now);
    PartitionDigits(d.ts);
    Assoc(d.subscription + "_", Dec4(d.ts.y), Dec2(d.ts.mo));
  }

  lemma Assoc(x: string, y: string, z: string)
    ensures x + (y + z) == (x + y) + z
  {
  }

  lemma PairIsNearest(x: real, markup: real)
    ensures var c := CostFromCopilotUsage(Some(x), markup).value;
            IsPair(c.cost, c.billed, x, markup)
  {
    var y := x * (1.0 + markup);
    RoundIsNearest(x);
    RoundIsNearest(y);
    RoundOfInteger(x.Floor);
  }

  lemma DocumentPriced(e: Event, markups: Markups, now: Utc)
    requires Given(e.requestId)
    ensures Keyed(e) && Priced(DocOf(e, markups, now), e, markups)
  {
    if e.nano.Some? {
      var d := DocOf(e, markups, now);
      var markup := MarkupOf(markups, d.route);
      PairIsNearest(e.nano.value, markup);
      assert d.cost == CostFromCopilotUsage(e.nano, markup).value.cost;
      assert d.billed == CostFromCopilotUsage(e.nano, markup).value.billed;
    }
  }

  lemma DocumentCounted(e: Event, markups: Markups, now: Utc)
    requires Given(e.requestId)
    ensures Keyed(e) && Counted(DocOf(e, markups, now), e)
  {
    TokensAreSums(Tokens(0, 0, 0, 0), e.details);
  }

  /** `event_to_document` keeps nothing of an event without a request id, and of one with it makes a
      document with these columns. */
  lemma DocumentHasColumns(e: Event, markups: Markups, now: Utc)
    ensures EventToDocument(e, markups, now).Some? <==> Given(e.requestId)
    ensures Given(e.requestId) ==> HasColumns(EventToDocument(e, markups, now).value, e, markups, now)
  {
    if Given(e.requestId) {
      DocumentPlaced(e, markups, now);
      DocumentPriced(e, markups, now);
      DocumentCounted(e, markups, now);
    }
  }

  // ---- in the store ----

  /** The document of `e` lies under its own partition and id, with its columns. */
  predicate StoredOf(store: Store, e: Event, markups: Markups, now: Utc) {
    exists k :: k in store && k.id == store[k].id && k.pk == store[k].pk && HasColumns(store[k], e, markups, now)
  }

  lemma {:induction false} ImportedLast(store: Store, es: seq<Event>, i: nat, markups: Markups, now: Utc)
    requires i < |es| && Keyed(es[i])
    requires forall j :: i < j < |es| && Keyed(es[j]) ==> KeyAt(es[j], now) != KeyAt(es[i], now)
    ensures var k := KeyAt(es[i], now);
            && k in ImportEvents(store, es, markups, now)
            && ImportEvents(store, es, markups, now)[k] == DocOf(es[i], markups, now)
    decreases |es|
  {
    var next := ImportEvent(store, es[0], markups, now);
    if i > 0 {
      ImportedLast(next, es[1..], i - 1, markups, now);
    } else {
      ImportedElsewhere(next, es[1..], KeyAt(es[0], now), markups, now);
    }
  }

  /** What no event is stored under stays as it was. */
  lemma {:induction false} ImportedElsewhere(store: Store, es: seq<Event>, k: Key, markups: Markups, now: Utc)
    requires forall j :: 0 <= j < |es| && Keyed(es[j]) ==> KeyAt(es[j], now) != k
    ensures k in ImportEvents(store, es, markups, now) <==> k in store
    ensures k in store ==> ImportEvents(store, es, markups, now)[k] == store[k]
    decreases |es|
  {
    if es != [] {
      ImportedElsewhere(ImportEvent(store, es[0], markups, now), es[1..], k, markups, now);
    }
  }

  /** After a pass, cut off or not: of the events it got to, each with a request id that is the last
      under its key lies in the store with its columns. */
  lemma PassStoresColumns(store: Store, pending: seq<Blob>, stop: Stop, i: nat, markups: Markups, now: Utc)
    requires i < |Handled(stop, pending)| && Given(Handled(stop, pending)[i].requestId)
    requires forall j :: i < j < |Handled(stop, pending)| && Keyed(Handled(stop, pending)[j]) ==>
               KeyAt(Handled(stop, pending)[j], now) != KeyAt(Handled(stop, pending)[i], now)
    ensures StoredOf(ImportEvents(store, Handled(stop, pending), markups, now), Handled(stop, pending)[i], markups, now)
  {
    var es := Handled(stop, pending);
    ImportedLast(store, es, i, markups, now);
    DocumentHasColumns(es[i], markups, now);
    assert KeyOf(DocOf(es[i], markups, now)) == KeyAt(es[i], now);
  }

  /** In every run each stored document lies under its own partition and id, and has the columns of
      some written event under the table of some pass. */
  lemma RunStoresColumns(steps: seq<Step>, states: seq<State>, i: nat, k: Key)
    returns (e: Event, p: nat, now: Utc)
    requires Run(steps, states) && i < |states| && k in states[i].store
    ensures Emits(states[i].written, e) && p < |states[i].passes|
    ensures var d := states[i].store[k]; k.id == d.id && k.pk == d.pk && HasColumns(d, e, states[i].passes[p].markups, now)
  {
    RunFaithful(steps, states, i);
    assert HasSource(states[i], k);
    e, p, now :| Sourced(states[i], k, e, p, now);
    DocumentHasColumns(e, states[i].passes[p].markups, now);
  }
}

/** One hub usage event becomes one stored document; writing it again must change nothing. */
module CaptureDocuments {
  import opened Wrappers
  import opened Timestamps
  import opened Billing

  /** A decoded event. `ts` is None when it is missing or malformed; `rest` stands for the
      columns that are copied without being looked at. */
  datatype Event = Event(
    requestId: Option<string>, subscription: Option<string>, model: Option<string>, ts: Option<Utc>,
    details: seq<TokenEntry>, fallback: Tokens, nano: Option<real>, rest: nat)

  datatype Doc = Doc(
    id: string, pk: string, ts: Utc, subscription: string, route: string,
    tokens: Tokens, cost: int, billed: int, priced: bool, rest: nat)

  datatype Key = Key(pk: string, id: string)

  type Store = map<Key, Doc>

  /** Model name to markup; empty when the database could not be read. */
  type Markups = map<string, real>

  predicate Keyed(e: Event) { e.requestId.Some? && e.requestId.value != "" }

  function OrUnknown(x: Option<string>): string {
    if x.Some? && x.value != "" then x.value else "unknown"
  }

  /** `<subscription>_<yyyyMM>` */
  function PartitionKey(subscription: string, ts: Utc): string {
    subscription + "_" + Dec4(ts.y) + Dec2(ts.mo)
  }

  function ParseTs(e: Event, now: Utc): Utc {
    if e.ts.Some? then e.ts.value else now
  }

  function TokensOf(e: Event): Tokens {
    var t := TokensFrom(e.details);
    if t.prompt != 0 || t.completion != 0 || t.cached != 0 || t.cacheWrite != 0 then t
    else e.fallback.(cacheWrite := 0)
  }

  function MarkupOf(markups: Markups, model: string): real {
    if model in markups then markups[model] else 0.0
  }

  /** `event_to_document`: None for an event without a request id. */
  function EventToDocument(e: Event, markups: Markups, now: Utc): Option<Doc> {
    if !Keyed(e) then None
    else
      var sub, ts, model := OrUnknown(e.subscription), ParseTs(e, now), OrUnknown(e.model);
      var cost := CostFromCopilotUsage(e.nano, MarkupOf(markups, model));
      Some(Doc(e.requestId.value, PartitionKey(sub, ts), ts, sub, model, TokensOf(e),
               if cost.Some? then cost.value.cost else 0, if cost.Some? then cost.value.billed else 0,
               cost.Some?, e.rest))
  }

  function KeyOf(d: Doc): Key { Key(d.pk, d.id) }

  function KeyAt(e: Event, now: Utc): Key
    requires Keyed(e)
  {
    Key(PartitionKey(OrUnknown(e.subscription), ParseTs(e, now)), e.requestId.value)
  }

  /** Cosmos `upsert_item`: the document with the same key is replaced. */
  function Upsert(store: Store, d: Doc): Store { store[KeyOf(d) := d] }

  function ImportEvent(store: Store, e: Event, markups: Markups, now: Utc): Store {
    match EventToDocument(e, markups, now)
    case None => store
    case Some(d) => Upsert(store, d)
  }

  /** The document does not depend on when it is made exactly when the event is unkeyed or its
      timestamp parses. */
  lemma ClockMattersOnlyForBadTs(e: Event, markups: Markups)
    ensures (forall a: Utc, b: Utc :: EventToDocument(e, markups, a) == EventToDocument(e, markups, b))
            <==> !Keyed(e) || e.ts.Some?
  {
    if Keyed(e) && e.ts.None? {
      var a: Utc := DateTime(2026, 1, 31, 0, 0, 0, 0);
      var b: Utc := DateTime(2026, 2, 1, 0, 0, 0, 0);
      assert EventToDocument(e, markups, a).value.ts == a;
      assert EventToDocument(e, markups, b).value.ts == b;
    }
  }

  /** A keyed event whose timestamp does not parse is stored twice when its second import falls
      in another month: both documents stay. */
  lemma BadTsDuplicates(store: Store, e: Event, markups: Markups)
    requires Keyed(e) && e.ts.None?
    ensures exists a: Utc, b: Utc ::
              var s1 := ImportEvent(store, e, markups, a);
              KeyAt(e, a) != KeyAt(e, b) && KeyAt(e, a) in ImportEvent(s1, e, markups, b)
              && KeyAt(e, b) in ImportEvent(s1, e, markups, b)
  {
    var a: Utc := DateTime(2026, 1, 31, 0, 0, 0, 0);
    var b: Utc := DateTime(2026, 2, 1, 0, 0, 0, 0);
    Order2(1, 2);
    var p := OrUnknown(e.subscription) + "_" + Dec4(2026);
    CatEqual(p, p, Dec2(1), Dec2(2));
    assert KeyAt(e, a) != KeyAt(e, b);
    var s1 := ImportEvent(store, e, markups, a);
    assert KeyAt(e, a) in s1;
    assert KeyAt(e, a) in ImportEvent(s1, e, markups, b);
  }

  /** An event whose timestamp parses can be imported any number of times, at any times: the last
      table of markups alone decides what is stored. */
  lemma ReimportIsIdempotent(store: Store, e: Event, m: Markups, n: Markups, a: Utc, b: Utc, c: Utc)
    requires e.ts.Some?
    ensures ImportEvent(ImportEvent(store, e, m, a), e, n, b) == ImportEvent(store, e, n, c)
  {
    ClockMattersOnlyForBadTs(e, n);
    assert Keyed(e) ==> KeyAt(e, a) == KeyAt(e, b) == KeyAt(e, c);
  }
}

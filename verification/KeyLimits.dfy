/**
  The per-key map the gateway reads on every request: token limits and the audit flag of each
  subscription, kept in one size-capped named value.
 */
module KeyLimits {
  import opened Decimal
  import opened Wrappers

  /** `{"t", "qt", "p", "a"}`, absent fields None or false. */
  datatype Entry = Entry(t: Option<int>, qt: Option<string>, p: Option<string>, a: bool)

  type Limits = map<string, Entry>

  const NOTHING := Entry(None, None, None, false)
  const MAX_BYTES := 4000

  // ---- what is stored ----

  /** An entry is kept only if it says something. */
  function Put(m: Limits, sub: string, e: Entry): Limits {
    if e == NOTHING then m - {sub} else m[sub := e]
  }

  function Get(m: Limits, sub: string): Entry { if sub in m then m[sub] else NOTHING }

  function Tier(quotaTier: Option<string>): Option<string> {
    if quotaTier == Some("none") then None else quotaTier
  }

  function WithLimit(m: Limits, sub: string, tpm: Option<int>, quotaTier: Option<string>, period: Option<string>): Limits {
    Put(m, sub, Entry(tpm, Tier(quotaTier), period, Get(m, sub).a))
  }

  function WithAudit(m: Limits, subs: seq<string>, enabled: bool): Limits
    decreases |subs|
  {
    if subs == [] then m else WithAudit(Put(m, subs[0], Get(m, subs[0]).(a := enabled)), subs[1..], enabled)
  }

  // ---- how it is written ----

  function Hex(n: nat): char
    requires n < 16
  {
    "0123456789abcdef"[n]
  }

  function Unicode(n: nat): (s: string)
    requires n < 0x10000
    ensures |s| == 6
  {
    "\\u" + [Hex(n / 4096), Hex(n / 256 % 16), Hex(n / 16 % 16), Hex(n % 16)]
  }

  function EscapeChar(c: char): (s: string)
    ensures |s| >= 1
  {
    var n := c as int;
    if c == '\"' then "\\\""
    else if c == '\\' then "\\\\"
    else if c == '\n' then "\\n"
    else if c == '\r' then "\\r"
    else if c == '\t' then "\\t"
    else if n == 12 then "\\f"
    else if n == 8 then "\\b"
    else if ' ' <= c <= '~' then [c]
    else if n < 0x10000 then Unicode(n)
    else Unicode(0xD800 + (n - 0x10000) / 0x400) + Unicode(0xDC00 + (n - 0x10000) % 0x400)
  }

  function Escape(s: string): string { if s == "" then "" else EscapeChar(s[0]) + Escape(s[1..]) }

  function Quote(s: string): string { "\"" + Escape(s) + "\"" }

  function Commas(parts: seq<string>): string {
    if parts == [] then "" else if |parts| == 1 then parts[0] else parts[0] + "," + Commas(parts[1..])
  }

  function Fields(e: Entry): seq<string> {
    (if e.t.Some? then ["\"t\":" + Number(e.t.value)] else [])
    + (if e.qt.Some? then ["\"qt\":" + Quote(e.qt.value)] else [])
    + (if e.p.Some? then ["\"p\":" + Quote(e.p.value)] else [])
    + (if e.a then ["\"a\":1"] else [])
  }

  function Member(sub: string, e: Entry): string { Quote(sub) + ":{" + Commas(Fields(e)) + "}" }

  /** The total length of the members, in whatever order they are written. */
  ghost function Weight(m: Limits): nat
    decreases |m|
  {
    if m == map[] then 0
    else
      var sub :| sub in m;
      |Member(sub, m[sub])| + Weight(m - {sub})
  }

  /** The length of the whole text: the members, the commas between them and two braces. */
  ghost function SerializedLength(m: Limits): nat {
    Weight(m) + (if |m| == 0 then 0 else |m| - 1) + 2
  }

  /** The key that `Weight` takes out first. */
  lemma WeightPick(m: Limits) returns (k: string)
    requires m != map[]
    ensures k in m && Weight(m) == |Member(k, m[k])| + Weight(m - {k})
  {
    k :| k in m && Weight(m) == |Member(k, m[k])| + Weight(m - {k});
  }

  lemma TwoLess(m: Limits, k: string, sub: string)
    requires k in m && sub in m && k != sub
    ensures |m - {k}| < |m| && |m - {sub}| < |m| && sub in m - {k} && k in m - {sub}
    ensures (m - {k})[sub] == m[sub] && (m - {sub})[k] == m[k] && m - {k} - {sub} == m - {sub} - {k}
  {
    assert (m - {k}).Keys == m.Keys - {k} && (m - {sub}).Keys == m.Keys - {sub};
  }

  lemma {:induction false} WeightOf(m: Limits, sub: string)
    requires sub in m
    ensures Weight(m) == |Member(sub, m[sub])| + Weight(m - {sub})
    decreases |m|
  {
    var k := WeightPick(m);
    if k != sub {
      TwoLess(m, k, sub);
      WeightOf(m - {k}, sub);
      WeightOf(m - {sub}, k);
    }
  }

  lemma {:induction false} CommasSnoc(parts: seq<string>, last: string)
    ensures |Commas(parts + [last])| == |Commas(parts)| + |last| + (if parts == [] then 0 else 1)
  {
    if parts != [] {
      assert (parts + [last])[1..] == parts[1..] + [last];
      CommasSnoc(parts[1..], last);
    }
  }

  /** The keys of a set, each once. */
  predicate EachOnce(ks: seq<string>, keys: set<string>) {
    (forall i, j :: 0 <= i < j < |ks| ==> ks[i] != ks[j]) && (set k | k in ks) == keys
  }

  predicate IsOrder(ks: seq<string>, m: Limits) { EachOnce(ks, m.Keys) }

  function Members(ks: seq<string>, m: Limits): (parts: seq<string>)
    requires forall k :: k in ks ==> k in m
    ensures |parts| == |ks|
  {
    if ks == [] then [] else Members(ks[..|ks| - 1], m) + [Member(ks[|ks| - 1], m[ks[|ks| - 1]])]
  }

  /** The map written in an order of its keys. */
  function Written(ks: seq<string>, m: Limits): string
    requires forall k :: k in ks ==> k in m
  {
    "{" + Commas(Members(ks, m)) + "}"
  }

  ghost predicate IsWritten(text: string, m: Limits) {
    exists ks :: IsOrder(ks, m) && (forall k :: k in ks ==> k in m) && text == Written(ks, m)
  }

  lemma {:induction false} SameMembers(ks: seq<string>, m: Limits, n: Limits)
    requires forall k :: k in ks ==> k in m && k in n && m[k] == n[k]
    ensures Members(ks, m) == Members(ks, n)
  {
    if ks != [] {
      assert ks[|ks| - 1] in ks;
      SameMembers(ks[..|ks| - 1], m, n);
    }
  }

  /** An order without its last key is one of the map without it. */
  lemma FrontIsOrder(ks: seq<string>, m: Limits)
    requires ks != [] && IsOrder(ks, m)
    ensures ks[|ks| - 1] in m && IsOrder(ks[..|ks| - 1], m - {ks[|ks| - 1]})
  {
    var front, k := ks[..|ks| - 1], ks[|ks| - 1];
    assert k in ks && ks == front + [k];
    assert k in (set j | j in ks);
    assert (set j | j in front) == m.Keys - {k};
  }

  /** Whatever the order, the length is the same. */
  lemma {:induction false} MembersLength(ks: seq<string>, m: Limits)
    requires IsOrder(ks, m)
    ensures forall k :: k in ks ==> k in m
    ensures |ks| == |m| && |Commas(Members(ks, m))| == Weight(m) + (if |m| == 0 then 0 else |m| - 1)
    decreases |ks|
  {
    assert forall k :: k in ks ==> k in (set j | j in ks);
    if ks == [] {
      assert m.Keys == {} && m == map[];
    } else {
      var front, k := ks[..|ks| - 1], ks[|ks| - 1];
      FrontIsOrder(ks, m);
      MembersLength(front, m - {k});
      SameMembers(front, m, m - {k});
      CommasSnoc(Members(front, m), Member(k, m[k]));
      WeightOf(m, k);
      assert |m - {k}| == |m.Keys - {k}| == |m.Keys| - 1 == |m| - 1;
    }
  }

  lemma MembersSnoc(ks: seq<string>, k: string, m: Limits)
    requires (forall j :: j in ks ==> j in m) && k in m
    ensures forall j :: j in ks + [k] ==> j in m
    ensures Members(ks + [k], m) == Members(ks, m) + [Member(k, m[k])]
  {
    assert (ks + [k])[..|ks|] == ks;
  }

  /** One more key. */
  lemma OrderGrows(ks: seq<string>, done: set<string>, k: string)
    requires EachOnce(ks, done) && k !in done
    ensures EachOnce(ks + [k], done + {k})
  {
    forall i | 0 <= i < |ks| ensures ks[i] in done {
      assert ks[i] in ks;
    }
  }

  /** `json.dumps`: the map written in some order of its keys; whatever the order, the text has the
      length the cap looks at. */
  method Dumps(m: Limits) returns (text: string)
    ensures |text| == SerializedLength(m)
    ensures IsWritten(text, m)
  {
    var left, parts := m.Keys, [];
    ghost var ks := [];
    while left != {}
      invariant left <= m.Keys && EachOnce(ks, m.Keys - left)
      invariant (forall k :: k in ks ==> k in m) && parts == Members(ks, m)
      decreases |left|
    {
      var sub :| sub in left;
      OrderGrows(ks, m.Keys - left, sub);
      assert m.Keys - left + {sub} == m.Keys - (left - {sub});
      MembersSnoc(ks, sub, m);
      parts := parts + [Member(sub, m[sub])];
      left := left - {sub};
      ks := ks + [sub];
    }
    text := "{" + Commas(parts) + "}";
    MembersLength(ks, m);
    assert IsOrder(ks, m) && text == Written(ks, m);
  }

  // ---- the three changes ----

  datatype Problem = TooLarge

  /** A new map is refused when its text is too long. */
  ghost function Capped(m: Limits): Result<Limits, Problem> {
    if SerializedLength(m) > MAX_BYTES then Err(TooLarge) else Ok(m)
  }

  /** The check at the end of both merges. */
  method CheckSize(merged: Limits) returns (r: Result<Limits, Problem>)
    ensures r == Capped(merged)
  {
    var text := Dumps(merged);
    r := if |text| > MAX_BYTES then Err(TooLarge) else Ok(merged);
  }

  /** `_merge_key_limit` */
  method MergeKeyLimit(mapping: Limits, sub: string, tpm: Option<int>, quotaTier: Option<string>, period: Option<string>)
    returns (r: Result<Limits, Problem>)
    ensures r == Capped(WithLimit(mapping, sub, tpm, quotaTier, period))
  {
    var merged := mapping;
    var entry := NOTHING;
    if tpm.Some? { entry := entry.(t := tpm); }
    if quotaTier.Some? && quotaTier.value != "none" { entry := entry.(qt := quotaTier); }
    if period.Some? { entry := entry.(p := period); }
    if sub in mapping && mapping[sub].a { entry := entry.(a := true); }
    if entry != NOTHING {
      merged := merged[sub := entry];
    } else {
      merged := merged - {sub};
    }
    assert entry == Entry(tpm, Tier(quotaTier), period, Get(mapping, sub).a);
    assert merged == WithLimit(mapping, sub, tpm, quotaTier, period);
    r := CheckSize(merged);
  }

  /** `_merge_audit_flag` */
  method MergeAuditFlag(mapping: Limits, subs: seq<string>, enabled: bool) returns (r: Result<Limits, Problem>)
    ensures r == Capped(WithAudit(mapping, subs, enabled))
  {
    var merged := mapping;
    for i := 0 to |subs|
      invariant WithAudit(merged, subs[i..], enabled) == WithAudit(mapping, subs, enabled)
    {
      assert subs[i..][1..] == subs[i + 1..];
      var entry := if subs[i] in merged then merged[subs[i]] else NOTHING;
      entry := entry.(a := enabled);
      if entry != NOTHING {
        merged := merged[subs[i] := entry];
      } else {
        merged := merged - {subs[i]};
      }
    }
    assert subs[|subs|..] == [];
    r := CheckSize(merged);
  }

  /** `_remove_key_limit`: no cap is looked at. */
  function RemoveKeyLimit(mapping: Limits, sub: string): Limits { mapping - {sub} }

  datatype Op =
    | SetLimits(sub: string, tpm: Option<int>, tier: Option<string>, period: Option<string>)
    | SetAudit(subs: seq<string>, enabled: bool)
    | Remove(sub: string)

  /** The map after an operation, before the cap. */
  function Changed(m: Limits, op: Op): Limits {
    match op
    case SetLimits(sub, tpm, tier, period) => WithLimit(m, sub, tpm, tier, period)
    case SetAudit(subs, enabled) => WithAudit(m, subs, enabled)
    case Remove(sub) => RemoveKeyLimit(m, sub)
  }

  ghost function Merge(m: Limits, op: Op): Result<Limits, Problem> {
    if op.Remove? then Ok(Changed(m, op)) else Capped(Changed(m, op))
  }

  // ---- what they do to each key ----

  function Stored(m: Limits, sub: string): Option<Entry> { if sub in m then Some(m[sub]) else None }

  function Said(e: Option<Entry>): Entry { if e.Some? then e.value else NOTHING }

  function Kept(e: Entry): Option<Entry> { if e == NOTHING then None else Some(e) }

  /** What an operation makes of what is stored under one key. */
  function ChangedEntry(e: Option<Entry>, sub: string, op: Op): Option<Entry> {
    match op
    case SetLimits(s, tpm, tier, period) => if s == sub then Kept(Entry(tpm, Tier(tier), period, Said(e).a)) else e
    case SetAudit(subs, enabled) => if sub in subs then Kept(Said(e).(a := enabled)) else e
    case Remove(s) => if s == sub then None else e
  }

  lemma {:induction false} AuditEntry(m: Limits, sub: string, subs: seq<string>, enabled: bool)
    ensures Stored(WithAudit(m, subs, enabled), sub) == ChangedEntry(Stored(m, sub), sub, SetAudit(subs, enabled))
    decreases |subs|
  {
    if subs != [] {
      AuditEntry(Put(m, subs[0], Get(m, subs[0]).(a := enabled)), sub, subs[1..], enabled);
      assert sub in subs <==> sub == subs[0] || sub in subs[1..];
    }
  }

  /** Every operation works key by key. */
  lemma ChangedKeyByKey(m: Limits, sub: string, op: Op)
    ensures Stored(Changed(m, op), sub) == ChangedEntry(Stored(m, sub), sub, op)
  {
    if op.SetAudit? {
      AuditEntry(m, sub, op.subs, op.enabled);
    }
  }

  lemma SameMap(m: Limits, n: Limits)
    requires forall sub :: Stored(m, sub) == Stored(n, sub)
    ensures m == n
  {
    forall sub ensures sub in m <==> sub in n {
      assert Stored(m, sub) == Stored(n, sub);
    }
    forall sub | sub in m ensures m[sub] == n[sub] {
      assert Stored(m, sub) == Stored(n, sub);
    }
  }

  function Audited(m: Limits, sub: string): bool { Get(m, sub).a }

  function LimitsOf(m: Limits, sub: string): Entry { Get(m, sub).(a := false) }

  /** Setting limits sets the limits of its key, a tier of "none" being no tier; setting audit
      flags sets those of its keys; removing clears one key. Neither touches the fields of the
      other, or any other key. */
  lemma FieldsSet(m: Limits, op: Op, sub: string)
    ensures Audited(Changed(m, op), sub) ==
            match op {
              case SetLimits(_, _, _, _) => Audited(m, sub)
              case SetAudit(subs, enabled) => if sub in subs then enabled else Audited(m, sub)
              case Remove(s) => s != sub && Audited(m, sub)
            }
    ensures LimitsOf(Changed(m, op), sub) ==
            match op {
              case SetLimits(s, tpm, tier, period) =>
                if s == sub then Entry(tpm, if tier == Some("none") then None else tier, period, false) else LimitsOf(m, sub)
              case SetAudit(_, _) => LimitsOf(m, sub)
              case Remove(s) => if s == sub then NOTHING else LimitsOf(m, sub)
            }
  {
    ChangedKeyByKey(m, sub, op);
    assert Get(m, sub) == Said(Stored(m, sub));
    assert Get(Changed(m, op), sub) == Said(Stored(Changed(m, op), sub));
  }

  /** What an operation is for is so in the map: its keys have the flag, its key has the limits, a
      tier of "none" being no tier, or its key is absent. */
  predicate InForce(m: Limits, op: Op) {
    match op
    case SetLimits(k, tpm, tier, period) =>
      if tpm.None? && (tier.None? || tier == Some("none")) && period.None? then
        k in m ==> m[k].t.None? && m[k].qt.None? && m[k].p.None?
      else
        k in m && m[k].t == tpm && m[k].p == period && m[k].qt == (if tier == Some("none") then None else tier)
    case SetAudit(subs, enabled) => forall k :: k in subs ==> (k in m && m[k].a <==> enabled)
    case Remove(k) => k !in m
  }

  lemma ChangeIsInForce(m: Limits, op: Op)
    ensures InForce(Changed(m, op), op)
  {
    match op {
      case SetLimits(k, _, _, _) => ChangedKeyByKey(m, k, op);
      case SetAudit(subs, enabled) =>
        forall k | k in subs ensures k in Changed(m, op) && Changed(m, op)[k].a <==> enabled {
          ChangedKeyByKey(m, k, op);
        }
      case Remove(_) =>
    }
  }

  /** Setting limits and setting audit flags commute. */
  lemma LimitsAndAuditCommute(m: Limits, x: Op, y: Op)
    requires x.SetLimits? && y.SetAudit?
    ensures Changed(Changed(m, x), y) == Changed(Changed(m, y), x)
  {
    forall sub ensures Stored(Changed(Changed(m, x), y), sub) == Stored(Changed(Changed(m, y), x), sub) {
      ChangedKeyByKey(m, sub, x);
      ChangedKeyByKey(m, sub, y);
      ChangedKeyByKey(Changed(m, x), sub, y);
      ChangedKeyByKey(Changed(m, y), sub, x);
    }
    SameMap(Changed(Changed(m, x), y), Changed(Changed(m, y), x));
  }

  ghost function Then(r: Result<Limits, Problem>, op: Op): Result<Limits, Problem> {
    if r.Ok? then Merge(r.value, op) else r
  }

  /** As the code runs them, with the cap checked after each: the two orders end alike exactly
      when the first steps both fit, or neither does, or the last map does not fit anyway. */
  lemma MergesCommute(m: Limits, x: Op, y: Op)
    requires x.SetLimits? && y.SetAudit?
    ensures Then(Merge(m, x), y).Ok? && Then(Merge(m, y), x).Ok? ==> Then(Merge(m, x), y) == Then(Merge(m, y), x)
    ensures Then(Merge(m, x), y) == Then(Merge(m, y), x) <==>
            SerializedLength(Changed(Changed(m, x), y)) > MAX_BYTES ||
            (SerializedLength(Changed(m, x)) <= MAX_BYTES <==> SerializedLength(Changed(m, y)) <= MAX_BYTES)
  {
    LimitsAndAuditCommute(m, x, y);
  }

  // ---- the cap ----

  ghost predicate NoEmpty(m: Limits) { forall sub :: sub in m ==> m[sub] != NOTHING }

  /** No operation introduces an empty entry. */
  lemma NoEmptyKept(m: Limits, op: Op)
    requires NoEmpty(m)
    ensures NoEmpty(Changed(m, op))
  {
    forall sub | sub in Changed(m, op) ensures Changed(m, op)[sub] != NOTHING {
      ChangedKeyByKey(m, sub, op);
    }
  }

  lemma FieldsShrink(e: Entry)
    ensures |Commas(Fields(e.(a := false)))| <= |Commas(Fields(e))|
  {
    if e.a {
      CommasSnoc(Fields(e.(a := false)), "\"a\":1");
      assert Fields(e) == Fields(e.(a := false)) + ["\"a\":1"];
    }
  }

  lemma RemovalShrinks(m: Limits, sub: string)
    ensures SerializedLength(RemoveKeyLimit(m, sub)) <= SerializedLength(m)
  {
    if sub in m {
      WeightOf(m, sub);
    } else {
      assert m - {sub} == m;
    }
  }

  lemma PutShrinks(m: Limits, sub: string, e: Entry)
    requires sub in m && |Commas(Fields(e))| <= |Commas(Fields(m[sub]))|
    ensures SerializedLength(Put(m, sub, e)) <= SerializedLength(m)
  {
    RemovalShrinks(m, sub);
    if e != NOTHING {
      var n := m[sub := e];
      WeightOf(m, sub);
      WeightOf(n, sub);
      assert n - {sub} == m - {sub};
      assert n.Keys == m.Keys && |n| == |n.Keys| == |m.Keys| == |m|;
    }
  }

  /** Switching auditing off never lengthens the map. */
  lemma {:induction false} AuditOffShrinks(m: Limits, subs: seq<string>)
    ensures SerializedLength(WithAudit(m, subs, false)) <= SerializedLength(m)
    decreases |subs|
  {
    if subs != [] {
      var sub := subs[0];
      if sub in m {
        FieldsShrink(m[sub]);
        PutShrinks(m, sub, m[sub].(a := false));
      } else {
        assert m - {sub} == m;
      }
      AuditOffShrinks(Put(m, sub, Get(m, sub).(a := false)), subs[1..]);
    }
  }

  ghost predicate Sound(m: Limits) { NoEmpty(m) && SerializedLength(m) <= MAX_BYTES }

  /** What the gateway holds after the operations, those that raise leaving it as it was. */
  ghost function Replay(m: Limits, ops: seq<Op>): Limits
    decreases |ops|
  {
    if ops == [] then m
    else Replay(if Merge(m, ops[0]).Ok? then Merge(m, ops[0]).value else m, ops[1..])
  }

  /** Every map reached from the empty one has no empty entry and fits, removals included;
      and there switching auditing off always succeeds. */
  lemma {:induction false} ReachableMapsFit(m: Limits, ops: seq<Op>, subs: seq<string>)
    requires Sound(m)
    ensures Sound(Replay(m, ops))
    ensures Merge(Replay(m, ops), SetAudit(subs, false)).Ok?
    decreases |ops|
  {
    if ops == [] {
      AuditOffShrinks(m, subs);
    } else {
      NoEmptyKept(m, ops[0]);
      if ops[0].Remove? {
        RemovalShrinks(m, ops[0].sub);
      }
      ReachableMapsFit(if Merge(m, ops[0]).Ok? then Merge(m, ops[0]).value else m, ops[1..], subs);
    }
  }

  lemma EmptyIsSound()
    ensures Sound(map[])
  {
  }

  // ---- when the order decides ----

  lemma FreshKeyAdds(m: Limits, sub: string, e: Entry)
    requires sub !in m
    ensures SerializedLength(m[sub := e]) == SerializedLength(m) + |Member(sub, e)| + (if m == map[] then 0 else 1)
  {
    var n := m[sub := e];
    WeightOf(n, sub);
    assert n - {sub} == m;
    assert |n.Keys| == |m.Keys + {sub}| == |m.Keys| + 1;
    assert |m| == 0 <==> m == map[];
  }

  /** What the flag takes in an entry that has limits: a comma and `"a":1`. */
  const FLAG_LENGTH := 6

  lemma FlagCosts(e: Entry)
    requires e.a && e.(a := false) != NOTHING
    ensures |Commas(Fields(e))| == |Commas(Fields(e.(a := false)))| + FLAG_LENGTH
  {
    CommasSnoc(Fields(e.(a := false)), "\"a\":1");
    assert Fields(e) == Fields(e.(a := false)) + ["\"a\":1"];
  }

  predicate Distinct(ids: seq<string>) { forall i, j :: 0 <= i < j < |ids| ==> ids[i] != ids[j] }

  /** Distinct keys of the map that are audited and have limits. */
  ghost predicate AuditedKeys(m: Limits, subs: seq<string>) {
    && Distinct(subs)
    && forall sub :: sub in subs ==> sub in m && m[sub].a && m[sub].(a := false) != NOTHING
  }

  lemma OneFlagSaves(m: Limits, sub: string)
    requires AuditedKeys(m, [sub])
    ensures sub in m && SerializedLength(m[sub := m[sub].(a := false)]) == SerializedLength(m) - FLAG_LENGTH
  {
    assert sub in [sub];
    var n := m[sub := m[sub].(a := false)];
    FlagCosts(m[sub]);
    WeightOf(m, sub);
    WeightOf(n, sub);
    assert n - {sub} == m - {sub};
    assert n.Keys == m.Keys && |n| == |n.Keys| == |m.Keys| == |m|;
  }

  /** Switching auditing off gives back the room of the flags. */
  lemma {:induction false} AuditOffSaves(m: Limits, subs: seq<string>)
    requires AuditedKeys(m, subs)
    ensures SerializedLength(WithAudit(m, subs, false)) == SerializedLength(m) - FLAG_LENGTH * |subs|
    ensures WithAudit(m, subs, false).Keys == m.Keys
    decreases |subs|
  {
    if subs != [] {
      var sub, n := subs[0], Put(m, subs[0], Get(m, subs[0]).(a := false));
      assert sub in subs;
      assert n == m[sub := m[sub].(a := false)];
      OneFlagSaves(m, sub);
      assert n.Keys == m.Keys;
      forall k | k in subs[1..] ensures k in subs && k != sub {
        var i :| 0 <= i < |subs| - 1 && subs[1..][i] == k;
        assert subs[i + 1] == k;
      }
      AuditOffSaves(n, subs[1..]);
    }
  }

  /** Limits for a new key and the withdrawal of auditing from others, on a map that fits: the
      order decides, only the withdrawal making the room for the new entry, exactly when the entry
      does not fit now and the flags withdrawn are enough to make it. */
  lemma OrderDecidesExactly(m: Limits, x: Op, y: Op)
    requires Sound(m) && m != map[] && x.SetLimits? && x.sub !in m && Entry(x.tpm, Tier(x.tier), x.period, false) != NOTHING
    requires y.SetAudit? && !y.enabled && AuditedKeys(m, y.subs)
    ensures var grown := SerializedLength(m) + 1 + |Member(x.sub, Entry(x.tpm, Tier(x.tier), x.period, false))|;
            && (Then(Merge(m, x), y).Err? <==> grown > MAX_BYTES)
            && (Then(Merge(m, y), x).Err? <==> grown - FLAG_LENGTH * |y.subs| > MAX_BYTES)
  {
    var e := Entry(x.tpm, Tier(x.tier), x.period, false);
    var n := Changed(m, y);
    AuditOffSaves(m, y.subs);
    assert n != map[] by { assert n.Keys == m.Keys; }
    assert x.sub !in n by { assert n.Keys == m.Keys; }
    FreshKeyAdds(m, x.sub, e);
    FreshKeyAdds(n, x.sub, e);
    assert Changed(m, x) == m[x.sub := e] && Changed(n, x) == n[x.sub := e];
    AuditOffShrinks(m[x.sub := e], y.subs);
  }

  predicate HexDigit(c: char) { '0' <= c <= '9' || 'a' <= c <= 'f' }

  /** The id of a key: `vk_` and twelve hexadecimal digits. */
  predicate KeyId(id: string) {
    |id| == 15 && id[..3] == "vk_" && forall i :: 3 <= i < 15 ==> HexDigit(id[i])
  }

  predicate KeyIds(ids: seq<string>) { Distinct(ids) && forall id :: id in ids ==> KeyId(id) }

  predicate Bare(c: char) { ' ' <= c <= '~' && c != '\"' && c != '\\' }

  lemma {:induction false} BareEscape(s: string)
    requires forall i :: 0 <= i < |s| ==> Bare(s[i])
    ensures |Escape(s)| == |s|
  {
    if s != "" {
      assert Bare(s[0]);
      forall i | 0 <= i < |s| - 1 ensures Bare(s[1..][i]) {
        assert s[1..][i] == s[i + 1];
      }
      BareEscape(s[1..]);
    }
  }

  lemma QuotedId(id: string)
    requires KeyId(id)
    ensures |Quote(id)| == 17
  {
    forall i | 0 <= i < 15 ensures Bare(id[i]) {
      assert i < 3 ==> id[i] == id[..3][i] == "vk_"[i];
    }
    BareEscape(id);
  }

  /** A thousand tokens a minute. */
  function Ordinary(a: bool): Entry { Entry(Some(1000), None, None, a) }

  lemma OrdinaryFields()
    ensures |Commas(Fields(Ordinary(false)))| == 8 && |Commas(Fields(Ordinary(true)))| == 14
  {
    assert |Digits(1)| == 1 && |Digits(10)| == 2 && |Digits(100)| == 3 && |Digits(1000)| == 4;
    var field := "\"t\":" + Number(1000);
    assert Fields(Ordinary(false)) == [field];
    FlagCosts(Ordinary(true));
  }

  lemma OrdinaryMember(id: string)
    requires KeyId(id)
    ensures |Member(id, Ordinary(true))| == 34 && |Member(id, Ordinary(false))| == 28
  {
    OrdinaryFields();
    QuotedId(id);
  }

  /** Ordinary keys, all audited. */
  function Crowd(ids: seq<string>): Limits { map id | id in ids :: Ordinary(true) }

  lemma CrowdGrows(ids: seq<string>, id: string)
    requires id !in ids
    ensures Crowd(ids + [id]) == Crowd(ids)[id := Ordinary(true)] && id !in Crowd(ids)
    ensures Crowd(ids) == map[] <==> ids == []
  {
    assert ids != [] ==> ids[0] in Crowd(ids);
  }

  lemma {:induction false} CrowdLength(ids: seq<string>)
    requires KeyIds(ids)
    ensures SerializedLength(Crowd(ids)) == if ids == [] then 2 else 35 * |ids| + 1
    decreases |ids|
  {
    if ids != [] {
      var (front, id) := (ids[..|ids| - 1], ids[|ids| - 1]);
      assert ids == front + [id] && id in ids && id !in front;
      CrowdLength(front);
      OrdinaryMember(id);
      CrowdGrows(front, id);
      FreshKeyAdds(Crowd(front), id, Ordinary(true));
    }
  }

  /** So it does on a map of 114 ordinary audited keys, for one more ordinary key and any four or
      more of the others: the key can be issued after their auditing is switched off, and not
      before it. */
  lemma OrderCanDecideTheCap(ids: seq<string>, newId: string, subs: seq<string>)
    requires |ids| == 114 && KeyIds(ids) && KeyId(newId) && newId !in ids
    requires |subs| >= 4 && Distinct(subs) && forall sub :: sub in subs ==> sub in ids
    ensures var m, x, y := Crowd(ids), SetLimits(newId, Some(1000), None, None), SetAudit(subs, false);
            Sound(m) && Then(Merge(m, y), x).Ok? && Then(Merge(m, x), y).Err?
  {
    CrowdLength(ids);
    OrdinaryMember(newId);
    assert ids[0] in Crowd(ids);
    OrderDecidesExactly(Crowd(ids), SetLimits(newId, Some(1000), None, None), SetAudit(subs, false));
  }

  function Id(n: nat): string
    requires n < 256
  {
    "vk_" + [Hex(n / 16), Hex(n % 16)] + "0123456789"
  }

  lemma IdIsKeyId(n: nat)
    requires n < 256
    ensures KeyId(Id(n)) && Id(n)[3] == Hex(n / 16) && Id(n)[4] == Hex(n % 16)
  {
    var rest := "0123456789";
    forall i | 5 <= i < 15 ensures HexDigit(Id(n)[i]) {
      assert Id(n)[i] == rest[i - 5];
    }
    assert Id(n)[..3] == "vk_";
  }

  lemma HexDiffers(i: nat, j: nat)
    requires i < 16 && j < 16 && Hex(i) == Hex(j)
    ensures i == j
  {
  }

  /** There are that many ids. */
  lemma ManyIds() returns (ids: seq<string>)
    ensures |ids| == 115 && KeyIds(ids)
  {
    ids := seq(115, i requires 0 <= i < 115 => Id(i));
    forall i, j | 0 <= i < j < |ids| ensures ids[i] != ids[j] {
      IdIsKeyId(i);
      IdIsKeyId(j);
      if ids[i] == ids[j] {
        HexDiffers(i / 16, j / 16);
        HexDiffers(i % 16, j % 16);
        assert false;
      }
    }
    forall id | id in ids ensures KeyId(id) {
      var i :| 0 <= i < 115 && ids[i] == id;
      IdIsKeyId(i);
    }
  }
}

/** What the two scans find: what the last line that reports anything reports. */
module SseScans {
  import opened Wrappers
  import opened SseFraming
  import opened SseRewriter
  import opened SseAccounting

  /** The object on a line: what its payload reads as. */
  predicate Holds(c: Codec, line: string, v: Json) {
    var stripped := Strip(line);
    && |stripped| >= 5 && stripped[..5] == "data:"
    && Strip(stripped[5..]) != "" && Strip(stripped[5..]) != "[DONE]"
    && c.parse(Strip(stripped[5..])) == Some(v)
  }

  /** The usage inside `response`, which Responses streams report. */
  predicate Inner(m: map<string, Json>, u: Json) {
    && "response" in m && m["response"].Obj? && "usage" in m["response"].fields
    && u == m["response"].fields["usage"] && Truthy(u)
  }

  /** A chunk reports a usage: on a Responses stream the one inside `response` if there is one, and
      otherwise, as on a chat stream, the one at the top. */
  predicate Tells(m: map<string, Json>, responsesShape: bool, u: Json) {
    || (responsesShape && Inner(m, u))
    || ("usage" in m && u == m["usage"] && Truthy(u)
        && !(responsesShape && "response" in m && m["response"].Obj? && "usage" in m["response"].fields
             && Truthy(m["response"].fields["usage"])))
  }

  ghost predicate Reports(c: Codec, line: string, responsesShape: bool, u: Json) {
    exists m :: Holds(c, line, Obj(m)) && Tells(m, responsesShape, u)
  }

  /** A line on which the scan raises. */
  ghost predicate Breaks(c: Codec, line: string) { exists v: Json :: Holds(c, line, v) && !v.Obj? }

  lemma HoldsIs(c: Codec, line: string, v: Json)
    ensures Holds(c, line, v) <==> Scanned(c, line) == Some(v)
  {
  }

  lemma StepReports(c: Codec, found: Scan, line: string, responsesShape: bool)
    requires !found.Raised?
    ensures var next := UsageStep(c, found, line, responsesShape);
            && (next.Raised? <==> Breaks(c, line))
            && (forall u :: Reports(c, line, responsesShape, u) ==> next == Found(Some(u)))
            && (!next.Raised? && (forall u :: !Reports(c, line, responsesShape, u)) ==> next == found)
  {
    match Scanned(c, line) {
      case None =>
        forall v ensures !Holds(c, line, v) { HoldsIs(c, line, v); }
      case Some(v) =>
        forall w ensures Holds(c, line, w) <==> w == v { HoldsIs(c, line, w); }
        if v.Obj? {
          var u := UsageOf(v.fields, responsesShape);
          assert Truthy(u) ==> Tells(v.fields, responsesShape, u);
          assert Truthy(u) ==> Reports(c, line, responsesShape, u);
        } else {
          assert Breaks(c, line);
        }
    }
  }

  /** The usage scan raises exactly when some payload is no object; otherwise it finds what the last
      line that reports a usage reports, and nothing if none does. */
  lemma {:induction false} UsageFound(c: Codec, lines: seq<string>, responsesShape: bool)
    ensures var r := UsageScan(c, Found(None), lines, responsesShape);
            && (r.Raised? <==> exists i :: 0 <= i < |lines| && Breaks(c, lines[i]))
            && (!r.Raised? ==> IsLast(c, lines, responsesShape, r.value))
    decreases |lines|
  {
    if lines != [] {
      var (front, l) := (lines[..|lines| - 1], lines[|lines| - 1]);
      assert lines == front + [l];
      UsageFound(c, front, responsesShape);
      UsageScanCat(c, Found(None), front, [l], responsesShape);
      assert [l][1..] == [];
      var before := UsageScan(c, Found(None), front, responsesShape);
      var r := UsageScan(c, Found(None), lines, responsesShape);
      assert r == UsageStep(c, before, l, responsesShape);
      if before.Raised? {
        var i :| 0 <= i < |front| && Breaks(c, front[i]);
        assert Breaks(c, lines[i]);
      } else {
        StepReports(c, before, l, responsesShape);
        assert forall i :: 0 <= i < |front| ==> lines[i] == front[i];
        if !r.Raised? {
          LastMoves(c, front, l, responsesShape, before.value, r.value);
        }
      }
    }
  }

  /** `u` is what the last line that reports a usage reports. */
  ghost predicate IsLast(c: Codec, lines: seq<string>, responsesShape: bool, u: Option<Json>) {
    match u
    case None => forall i, v :: 0 <= i < |lines| ==> !Reports(c, lines[i], responsesShape, v)
    case Some(w) => exists i :: 0 <= i < |lines| && IsLastAt(c, lines, responsesShape, w, i)
  }

  ghost predicate IsLastAt(c: Codec, lines: seq<string>, responsesShape: bool, u: Json, i: int)
    requires 0 <= i < |lines|
  {
    Reports(c, lines[i], responsesShape, u) && forall j, v :: i < j < |lines| ==> !Reports(c, lines[j], responsesShape, v)
  }

  lemma LastMoves(c: Codec, front: seq<string>, l: string, responsesShape: bool, a: Option<Json>, b: Option<Json>)
    requires IsLast(c, front, responsesShape, a)
    requires forall u :: Reports(c, l, responsesShape, u) ==> b == Some(u)
    requires (forall u :: !Reports(c, l, responsesShape, u)) ==> b == a
    ensures IsLast(c, front + [l], responsesShape, b)
  {
    var lines := front + [l];
    if u :| Reports(c, l, responsesShape, u) {
      assert IsLastAt(c, lines, responsesShape, u, |front|);
    } else if a.Some? {
      var i :| 0 <= i < |front| && IsLastAt(c, front, responsesShape, a.value, i);
      assert IsLastAt(c, lines, responsesShape, a.value, i);
    }
  }

  // ---- upstream's own accounting ----

  predicate ObjectAt(m: map<string, Json>, key: string) { key in m && m[key].Obj? }

  /** A chunk carries upstream's accounting, at the top or else inside `response`. */
  predicate Carries(m: map<string, Json>, u: Json) {
    || (ObjectAt(m, "copilot_usage") && u == m["copilot_usage"])
    || (!ObjectAt(m, "copilot_usage") && ObjectAt(m, "response") && ObjectAt(m["response"].fields, "copilot_usage")
        && u == m["response"].fields["copilot_usage"])
  }

  ghost predicate Accounts(c: Codec, line: string, u: Json) {
    exists m :: Holds(c, line, Obj(m)) && Carries(m, u)
  }

  lemma StepAccounts(c: Codec, found: Option<Json>, line: string)
    ensures forall u :: Accounts(c, line, u) ==> CopilotStep(c, found, line) == Some(u)
    ensures (forall u :: !Accounts(c, line, u)) ==> CopilotStep(c, found, line) == found
  {
    match Scanned(c, line) {
      case None =>
        forall v ensures !Holds(c, line, v) { HoldsIs(c, line, v); }
      case Some(v) =>
        forall w ensures Holds(c, line, w) <==> w == v { HoldsIs(c, line, w); }
        if CopilotOf(v).Some? {
          assert Carries(v.fields, CopilotOf(v).value);
          assert Accounts(c, line, CopilotOf(v).value);
        }
    }
  }

  ghost predicate AccountsLast(c: Codec, lines: seq<string>, u: Option<Json>) {
    match u
    case None => forall i, v :: 0 <= i < |lines| ==> !Accounts(c, lines[i], v)
    case Some(w) => exists i :: 0 <= i < |lines| && AccountsLastAt(c, lines, w, i)
  }

  ghost predicate AccountsLastAt(c: Codec, lines: seq<string>, u: Json, i: int)
    requires 0 <= i < |lines|
  {
    Accounts(c, lines[i], u) && forall j, v :: i < j < |lines| ==> !Accounts(c, lines[j], v)
  }

  /** The other scan finds what the last line that carries upstream's accounting carries. */
  lemma {:induction false} CopilotFound(c: Codec, lines: seq<string>)
    ensures AccountsLast(c, lines, CopilotScan(c, None, lines))
    decreases |lines|
  {
    if lines != [] {
      var (front, l) := (lines[..|lines| - 1], lines[|lines| - 1]);
      assert lines == front + [l];
      CopilotFound(c, front);
      CopilotScanCat(c, None, front, [l]);
      assert [l][1..] == [];
      var before := CopilotScan(c, None, front);
      assert CopilotScan(c, None, lines) == CopilotStep(c, before, l);
      StepAccounts(c, before, l);
      if u :| Accounts(c, l, u) {
        assert AccountsLastAt(c, lines, u, |front|);
      } else if before.Some? {
        var i :| 0 <= i < |front| && AccountsLastAt(c, front, before.value, i);
        assert AccountsLastAt(c, lines, before.value, i);
      }
    }
  }
}

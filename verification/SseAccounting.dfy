/** What billing reads out of a stream is the same before and after the rewriting. */
module SseAccounting {
  import opened Wrappers
  import opened SseFraming
  import opened SseRewriter

  // ---- the lines that come out of one line ----

  function OutLines(c: Codec, line: string): (r: seq<string>)
    ensures r != []
  {
    match Parsed(c, line)
    case Some(Obj(m)) =>
      if Glued(m) then [DataLine(c, FinishChunk(m)), "", DataLine(c, UsageChunk(m))]
      else [Standardize(c, line)]
    case _ => [Standardize(c, line)]
  }

  function AllOutLines(c: Codec, lines: seq<string>): seq<string> {
    if lines == [] then [] else OutLines(c, lines[0]) + AllOutLines(c, lines[1..])
  }

  /** A printed object is read back from its data line. */
  lemma DataLineReads(c: Codec, v: Json)
    requires Faithful(c) && v.Obj?
    ensures IsData(DataLine(c, v)) && Parsed(c, DataLine(c, v)) == Some(v) && OneLine(DataLine(c, v))
  {
    var text, line := c.print_(v), DataLine(c, v);
    assert line[5..] == " " + text;
    assert StripRight(" " + text) == " " + text;
    assert (" " + text)[1..] == text;
    assert StripLeft(text) == text;
    assert Payload(line) == text;
    assert "[DONE]"[0] == '[';
  }

  function Stamped(m: map<string, Json>): Json { Obj(m["object" := CHUNK]) }

  lemma GluedOut(c: Codec, line: string, m: map<string, Json>)
    requires Faithful(c) && Parsed(c, line) == Some(Obj(m)) && Glued(m)
    ensures var a, b := DataLine(c, FinishChunk(m)), DataLine(c, UsageChunk(m));
            && OutLines(c, line) == [a, "", b]
            && Parsed(c, a) == Some(FinishChunk(m)) && Parsed(c, b) == Some(UsageChunk(m))
            && IsData(a) && IsData(b) && OneLine(a) && OneLine(b)
            && Standardize(c, line) == Join([a, "", b])
  {
    var a, b := DataLine(c, FinishChunk(m)), DataLine(c, UsageChunk(m));
    DataLineReads(c, FinishChunk(m));
    DataLineReads(c, UsageChunk(m));
    assert [a, "", b][1..] == ["", b] && ["", b][1..] == [b];
    assert Join(["", b]) == "" + "\n" + b;
    assert a + "\n" + ("" + "\n" + b) == a + "\n\n" + b;
  }

  /** The line of a chunk that is not glued: itself, or the chunk with its `object` stamped. */
  lemma PlainOut(c: Codec, line: string, m: map<string, Json>)
    requires Faithful(c) && Parsed(c, line) == Some(Obj(m)) && !Glued(m)
    ensures var l := Standardize(c, line);
            && OutLines(c, line) == [l] && Parsed(c, l) == Some(Stamped(m)) && IsData(l)
            && (OneLine(line) ==> OneLine(l))
  {
    if Get(m, "object") == CHUNK {
      assert m["object" := CHUNK] == m;
    } else {
      DataLineReads(c, Stamped(m));
    }
  }

  lemma OutLinesAreLines(c: Codec, line: string)
    requires Faithful(c) && OneLine(line)
    ensures forall l :: l in OutLines(c, line) ==> OneLine(l)
    ensures Standardize(c, line) == Join(OutLines(c, line))
  {
    match Parsed(c, line) {
      case Some(Obj(m)) => if Glued(m) { GluedOut(c, line, m); } else { PlainOut(c, line, m); }
      case _ =>
    }
  }

  lemma {:induction false} RewrittenLines(c: Codec, lines: seq<string>)
    requires Faithful(c) && lines != [] && forall l :: l in lines ==> OneLine(l)
    ensures Lines(Join(StandardizeAll(c, lines))) == AllOutLines(c, lines)
  {
    assert lines[0] in lines;
    OutLinesAreLines(c, lines[0]);
    LinesOfJoin(OutLines(c, lines[0]));
    if |lines| == 1 {
      assert AllOutLines(c, lines) == OutLines(c, lines[0]) + [];
    } else {
      RewrittenLines(c, lines[1..]);
      LinesCat(Standardize(c, lines[0]), Join(StandardizeAll(c, lines[1..])));
      assert StandardizeAll(c, lines)[1..] == StandardizeAll(c, lines[1..]);
    }
  }

  lemma RewriteLines(c: Codec, text: string)
    requires Faithful(c)
    ensures Lines(Rewrite(c, text)) == AllOutLines(c, Lines(text))
  {
    LinesAreLines(text);
    RewrittenLines(c, Lines(text));
  }

  // ---- rewriting twice, and what it leaves ----

  lemma StampedIsFixed(c: Codec, l: string, m: map<string, Json>)
    requires Parsed(c, l) == Some(Obj(m)) && !Glued(m) && Get(m, "object") == CHUNK
    ensures OutLines(c, l) == [l] && Standardize(c, l) == l
  {
  }

  /** A line that came out of the rewriting is left alone by it, and if it is a chunk it does
      not carry usage next to choices. */
  lemma OutLinesAreFixed(c: Codec, line: string, l: string)
    requires Faithful(c) && l in OutLines(c, line)
    ensures OutLines(c, l) == [l] && Standardize(c, l) == l
    ensures Parsed(c, l).Some? && Parsed(c, l).value.Obj? ==> !Glued(Parsed(c, l).value.fields)
  {
    match Parsed(c, line) {
      case Some(Obj(m)) =>
        if Glued(m) {
          GluedOut(c, line, m);
          if l != "" {
            StampedIsFixed(c, l, Parsed(c, l).value.fields);
          }
        } else {
          PlainOut(c, line, m);
          StampedIsFixed(c, l, m["object" := CHUNK]);
        }
      case _ =>
    }
  }

  lemma {:induction false} FixedLines(c: Codec, lines: seq<string>)
    requires forall l :: l in lines ==> Standardize(c, l) == l
    ensures StandardizeAll(c, lines) == lines
  {
    if lines != [] {
      assert lines[0] in lines;
      FixedLines(c, lines[1..]);
    }
  }

  lemma {:induction false} AllOutLinesMember(c: Codec, lines: seq<string>, l: string)
    requires l in AllOutLines(c, lines)
    ensures exists line :: line in lines && l in OutLines(c, line)
  {
    if l in OutLines(c, lines[0]) {
      assert lines[0] in lines;
    } else {
      AllOutLinesMember(c, lines[1..], l);
    }
  }

  /** Rewriting a rewritten stream changes nothing, and no chunk in it carries usage next to
      non-empty choices. */
  lemma RewriteIsIdempotent(c: Codec, text: string)
    requires Faithful(c)
    ensures Rewrite(c, Rewrite(c, text)) == Rewrite(c, text)
    ensures forall l :: l in Lines(Rewrite(c, text)) && Parsed(c, l).Some? && Parsed(c, l).value.Obj?
              ==> !Glued(Parsed(c, l).value.fields)
  {
    RewriteLines(c, text);
    forall l | l in Lines(Rewrite(c, text))
      ensures Standardize(c, l) == l
      ensures Parsed(c, l).Some? && Parsed(c, l).value.Obj? ==> !Glued(Parsed(c, l).value.fields)
    {
      AllOutLinesMember(c, Lines(text), l);
      var line :| line in Lines(text) && l in OutLines(c, line);
      OutLinesAreFixed(c, line, l);
    }
    FixedLines(c, Lines(Rewrite(c, text)));
    LinesAreLines(Rewrite(c, text));
  }

  // ---- the scans ----

  /** What a scan has found so far; it raises on a payload that is not an object. */
  datatype Scan = Raised | Found(value: Option<Json>)

  /** The object the scanners see on a line; they strip the line first. */
  function Scanned(c: Codec, line: string): Option<Json> { Parsed(c, Strip(line)) }

  /** The usage a chunk reports: chat streams carry it at the top, Responses streams inside
      `response`, falling back to the top. */
  function UsageOf(m: map<string, Json>, responsesShape: bool): Json {
    if responsesShape && Get(m, "response").Obj? && Truthy(Get(Get(m, "response").fields, "usage"))
    then Get(Get(m, "response").fields, "usage")
    else Get(m, "usage")
  }

  function UsageStep(c: Codec, found: Scan, line: string, responsesShape: bool): Scan {
    if found.Raised? then Raised
    else
      match Scanned(c, line)
      case None => found
      case Some(Obj(m)) => if Truthy(UsageOf(m, responsesShape)) then Found(Some(UsageOf(m, responsesShape))) else found
      case Some(_) => Raised
  }

  /** `_parse_sse_usage` */
  function UsageScan(c: Codec, found: Scan, lines: seq<string>, responsesShape: bool): Scan
    decreases |lines|
  {
    if lines == [] then found
    else UsageScan(c, UsageStep(c, found, lines[0], responsesShape), lines[1..], responsesShape)
  }

  function CopilotOf(v: Json): Option<Json> {
    if v.Obj? && Get(v.fields, "copilot_usage").Obj? then Some(Get(v.fields, "copilot_usage"))
    else if v.Obj? && Get(v.fields, "response").Obj? && Get(Get(v.fields, "response").fields, "copilot_usage").Obj?
    then Some(Get(Get(v.fields, "response").fields, "copilot_usage"))
    else None
  }

  function CopilotStep(c: Codec, found: Option<Json>, line: string): Option<Json> {
    match Scanned(c, line)
    case None => found
    case Some(v) => if CopilotOf(v).Some? then CopilotOf(v) else found
  }

  /** `_scan_sse_copilot_usage` */
  function CopilotScan(c: Codec, found: Option<Json>, lines: seq<string>): Option<Json>
    decreases |lines|
  {
    if lines == [] then found else CopilotScan(c, CopilotStep(c, found, lines[0]), lines[1..])
  }

  method ParseSseUsage(c: Codec, text: string, responsesShape: bool) returns (usage: Scan)
    ensures usage == UsageScan(c, Found(None), Lines(text), responsesShape)
  {
    usage := Found(None);
    var lines := Lines(text);
    for i := 0 to |lines|
      invariant UsageScan(c, usage, lines[i..], responsesShape) == UsageScan(c, Found(None), lines, responsesShape)
    {
      assert lines[i..][1..] == lines[i + 1..];
      var line := Strip(lines[i]);
      if usage.Raised? || !IsData(line) { continue; }
      var payload := Strip(line[5..]);
      if payload == "" || payload == "[DONE]" { continue; }
      match c.parse(payload) {
        case None =>
        case Some(Obj(m)) =>
          var cand := Null;
          if responsesShape && Get(m, "response").Obj? { cand := Get(Get(m, "response").fields, "usage"); }
          if !Truthy(cand) { cand := Get(m, "usage"); }
          if Truthy(cand) { usage := Found(Some(cand)); }
        case Some(_) => usage := Raised;
      }
    }
    assert lines[|lines|..] == [];
  }

  method ScanSseCopilotUsage(c: Codec, text: string) returns (found: Option<Json>)
    ensures found == CopilotScan(c, None, Lines(text))
  {
    found := None;
    var lines := Lines(text);
    for i := 0 to |lines|
      invariant CopilotScan(c, found, lines[i..]) == CopilotScan(c, None, lines)
    {
      assert lines[i..][1..] == lines[i + 1..];
      var line := Strip(lines[i]);
      if !IsData(line) { continue; }
      var payload := Strip(line[5..]);
      if payload == "" || payload == "[DONE]" { continue; }
      match c.parse(payload) {
        case None =>
        case Some(v) => if CopilotOf(v).Some? { found := CopilotOf(v); }
      }
    }
    assert lines[|lines|..] == [];
  }

  // ---- the scans agree ----

  /** On a line that begins with `data:` stripping first makes no difference. */
  lemma ScannedIsParsed(c: Codec, line: string)
    requires IsData(line)
    ensures Scanned(c, line) == Parsed(c, line)
  {
    var rest := line[5..];
    assert line == DATA + rest;
    assert DATA[4] == ':';
    StripRightAfter(DATA, rest);
    var stripped := DATA + StripRight(rest);
    assert stripped[0] == 'd';
    assert Strip(line) == stripped;
    assert stripped[5..] == StripRight(rest) && stripped[..5] == DATA;
    StripRightTwice(rest);
    assert Payload(stripped) == Payload(line);
  }

  lemma {:induction false} UsageScanCat(c: Codec, found: Scan, xs: seq<string>, ys: seq<string>, rs: bool)
    ensures UsageScan(c, found, xs + ys, rs) == UsageScan(c, UsageScan(c, found, xs, rs), ys, rs)
    decreases |xs|
  {
    if xs == [] {
      assert xs + ys == ys;
    } else {
      assert (xs + ys)[1..] == xs[1..] + ys;
      UsageScanCat(c, UsageStep(c, found, xs[0], rs), xs[1..], ys, rs);
    }
  }

  lemma {:induction false} CopilotScanCat(c: Codec, found: Option<Json>, xs: seq<string>, ys: seq<string>)
    ensures CopilotScan(c, found, xs + ys) == CopilotScan(c, CopilotScan(c, found, xs), ys)
    decreases |xs|
  {
    if xs == [] {
      assert xs + ys == ys;
    } else {
      assert (xs + ys)[1..] == xs[1..] + ys;
      CopilotScanCat(c, CopilotStep(c, found, xs[0]), xs[1..], ys);
    }
  }

  /** A chunk on which splitting off the top-level usage moves it behind another usage. */
  predicate Shadowed(c: Codec, line: string) {
    Parsed(c, line).Some? && Parsed(c, line).value.Obj? &&
    var m := Parsed(c, line).value.fields;
    Glued(m) && UsageOf(m, true) != Get(m, "usage")
  }

  lemma UsageScan3(c: Codec, found: Scan, x: string, y: string, z: string, rs: bool)
    ensures UsageScan(c, found, [x, y, z], rs) ==
            UsageStep(c, UsageStep(c, UsageStep(c, found, x, rs), y, rs), z, rs)
  {
    assert [x, y, z][1..] == [y, z] && [y, z][1..] == [z] && [z][1..] == [];
    var f := UsageStep(c, found, x, rs);
    assert UsageScan(c, found, [x, y, z], rs) == UsageScan(c, f, [y, z], rs);
    assert UsageScan(c, f, [y, z], rs) == UsageScan(c, UsageStep(c, f, y, rs), [z], rs);
  }

  lemma CopilotScan3(c: Codec, found: Option<Json>, x: string, y: string, z: string)
    ensures CopilotScan(c, found, [x, y, z]) == CopilotStep(c, CopilotStep(c, CopilotStep(c, found, x), y), z)
  {
    assert [x, y, z][1..] == [y, z] && [y, z][1..] == [z] && [z][1..] == [];
    var f := CopilotStep(c, found, x);
    assert CopilotScan(c, found, [x, y, z]) == CopilotScan(c, f, [y, z]);
    assert CopilotScan(c, f, [y, z]) == CopilotScan(c, CopilotStep(c, f, y), [z]);
  }

  /** What the scanners see of a glued line before and after it is split. */
  lemma GluedScanned(c: Codec, line: string, m: map<string, Json>)
    requires Faithful(c) && Parsed(c, line) == Some(Obj(m)) && Glued(m)
    ensures Scanned(c, line) == Some(Obj(m)) && Scanned(c, "") == None
    ensures Scanned(c, DataLine(c, FinishChunk(m))) == Some(FinishChunk(m))
    ensures Scanned(c, DataLine(c, UsageChunk(m))) == Some(UsageChunk(m))
  {
    GluedOut(c, line, m);
    ScannedIsParsed(c, line);
    ScannedIsParsed(c, DataLine(c, FinishChunk(m)));
    ScannedIsParsed(c, DataLine(c, UsageChunk(m)));
  }

  lemma GluedKeepsUsage(c: Codec, found: Scan, line: string, m: map<string, Json>, rs: bool)
    requires Faithful(c) && Parsed(c, line) == Some(Obj(m)) && Glued(m)
    ensures UsageScan(c, found, OutLines(c, line), rs) == UsageStep(c, found, line, rs) <==>
            !rs || found.Raised? || !Shadowed(c, line)
  {
    var (a, b) := (DataLine(c, FinishChunk(m)), DataLine(c, UsageChunk(m)));
    GluedOut(c, line, m);
    GluedScanned(c, line, m);
    UsageScan3(c, found, a, "", b, rs);
    GluedUsages(m, rs);
    assert UsageStep(c, found, "", rs) == found && UsageStep(c, UsageStep(c, found, a, rs), "", rs) == UsageStep(c, found, a, rs);
  }

  lemma GluedUsages(m: map<string, Json>, rs: bool)
    requires Glued(m)
    ensures UsageOf(UsageChunk(m).fields, rs) == Get(m, "usage")
  {
  }

  lemma LineKeepsUsage(c: Codec, found: Scan, line: string, rs: bool)
    requires Faithful(c)
    ensures UsageScan(c, found, OutLines(c, line), rs) == UsageStep(c, found, line, rs) <==>
            !rs || found.Raised? || !Shadowed(c, line)
  {
    assert forall l: string :: [l][1..] == [];
    match Parsed(c, line) {
      case Some(Obj(m)) =>
        if Glued(m) {
          GluedKeepsUsage(c, found, line, m, rs);
        } else {
          PlainOut(c, line, m);
          ScannedIsParsed(c, line);
          ScannedIsParsed(c, Standardize(c, line));
        }
      case _ =>
    }
  }

  lemma CopilotOfParts(m: map<string, Json>)
    ensures CopilotOf(UsageChunk(m)) == None && CopilotOf(FinishChunk(m)) == CopilotOf(Obj(m))
  {
  }

  lemma GluedKeepsCopilot(c: Codec, found: Option<Json>, line: string, m: map<string, Json>)
    requires Faithful(c) && Parsed(c, line) == Some(Obj(m)) && Glued(m)
    ensures CopilotScan(c, found, OutLines(c, line)) == CopilotStep(c, found, line)
  {
    var (a, b) := (DataLine(c, FinishChunk(m)), DataLine(c, UsageChunk(m)));
    GluedOut(c, line, m);
    GluedScanned(c, line, m);
    CopilotScan3(c, found, a, "", b);
    CopilotOfParts(m);
    var v := CopilotOf(Obj(m));
    var next := if v.Some? then v else found;
    assert CopilotStep(c, found, a) == next;
    assert CopilotStep(c, next, "") == next && CopilotStep(c, next, b) == next;
  }

  lemma CopilotScan1(c: Codec, found: Option<Json>, l: string)
    ensures CopilotScan(c, found, [l]) == CopilotStep(c, found, l)
  {
    assert [l][1..] == [];
  }

  lemma PlainKeepsCopilot(c: Codec, found: Option<Json>, line: string, m: map<string, Json>)
    requires Faithful(c) && Parsed(c, line) == Some(Obj(m)) && !Glued(m)
    ensures CopilotScan(c, found, OutLines(c, line)) == CopilotStep(c, found, line)
  {
    PlainOut(c, line, m);
    ScannedIsParsed(c, line);
    ScannedIsParsed(c, Standardize(c, line));
    CopilotScan1(c, found, Standardize(c, line));
  }

  lemma LineKeepsCopilot(c: Codec, found: Option<Json>, line: string)
    requires Faithful(c)
    ensures CopilotScan(c, found, OutLines(c, line)) == CopilotStep(c, found, line)
  {
    match Parsed(c, line) {
      case Some(Obj(m)) =>
        if Glued(m) {
          GluedKeepsCopilot(c, found, line, m);
        } else {
          PlainKeepsCopilot(c, found, line, m);
        }
      case _ => CopilotScan1(c, found, line);
    }
  }

  lemma {:induction false} LinesKeepUsage(c: Codec, u: Scan, lines: seq<string>, rs: bool)
    requires Faithful(c) && (rs ==> forall l :: l in lines ==> !Shadowed(c, l))
    ensures UsageScan(c, u, AllOutLines(c, lines), rs) == UsageScan(c, u, lines, rs)
    decreases |lines|
  {
    if lines != [] {
      assert lines[0] in lines;
      LineKeepsUsage(c, u, lines[0], rs);
      UsageScanCat(c, u, OutLines(c, lines[0]), AllOutLines(c, lines[1..]), rs);
      LinesKeepUsage(c, UsageStep(c, u, lines[0], rs), lines[1..], rs);
    }
  }

  lemma {:induction false} LinesKeepCopilot(c: Codec, p: Option<Json>, lines: seq<string>)
    requires Faithful(c)
    ensures CopilotScan(c, p, AllOutLines(c, lines)) == CopilotScan(c, p, lines)
    decreases |lines|
  {
    if lines != [] {
      LineKeepsCopilot(c, p, lines[0]);
      CopilotScanCat(c, p, OutLines(c, lines[0]), AllOutLines(c, lines[1..]));
      LinesKeepCopilot(c, CopilotStep(c, p, lines[0]), lines[1..]);
    }
  }

  // ---- Responses streams, exactly ----

  /** A line that reports a usage to the scan of a Responses stream. */
  predicate Telling(c: Codec, line: string) {
    match Scanned(c, line)
    case Some(Obj(m)) => Truthy(UsageOf(m, true))
    case _ => false
  }

  /** The last line that reports a usage is shadowed. */
  predicate LastShadowed(c: Codec, lines: seq<string>) {
    lines != [] && var last := lines[|lines| - 1];
                   if Telling(c, last) then Shadowed(c, last) else LastShadowed(c, lines[..|lines| - 1])
  }

  /** A shadowed chunk as it comes: its scan finds the usage inside `response`. */
  lemma ShadowedIn(c: Codec, found: Scan, line: string, m: map<string, Json>)
    requires Faithful(c) && Shadowed(c, line) && Parsed(c, line) == Some(Obj(m)) && !found.Raised?
    ensures UsageStep(c, found, line, true) == Found(Some(UsageOf(m, true))) && Telling(c, line)
  {
    ScannedIsParsed(c, line);
  }

  /** Two chunks with an empty line between them, the second with a usage. */
  lemma SecondTells(c: Codec, found: Scan, a: string, b: string, x: map<string, Json>, y: map<string, Json>)
    requires Scanned(c, a) == Some(Obj(x)) && Scanned(c, "") == None && Scanned(c, b) == Some(Obj(y))
    requires !found.Raised? && Truthy(UsageOf(y, true))
    ensures UsageScan(c, found, [a, "", b], true) == Found(Some(UsageOf(y, true)))
  {
    UsageScan3(c, found, a, "", b, true);
    var f := UsageStep(c, found, a, true);
    assert UsageStep(c, f, "", true) == f && !f.Raised?;
  }

  /** And once it is split: its scan finds the top-level usage, whatever was found so far. */
  lemma ShadowedOut(c: Codec, found: Scan, line: string, m: map<string, Json>)
    requires Faithful(c) && Shadowed(c, line) && Parsed(c, line) == Some(Obj(m)) && !found.Raised?
    ensures UsageScan(c, found, OutLines(c, line), true) == Found(Some(Get(m, "usage")))
  {
    var (a, b) := (DataLine(c, FinishChunk(m)), DataLine(c, UsageChunk(m)));
    GluedOut(c, line, m);
    GluedScanned(c, line, m);
    GluedUsages(m, true);
    SecondTells(c, found, a, b, FinishChunk(m).fields, UsageChunk(m).fields);
  }

  lemma {:induction false} AllOutLinesSnoc(c: Codec, lines: seq<string>, l: string)
    ensures AllOutLines(c, lines + [l]) == AllOutLines(c, lines) + OutLines(c, l)
    decreases |lines|
  {
    if lines == [] {
      assert [] + [l] == [l] && [l][1..] == [];
      assert AllOutLines(c, [l]) == OutLines(c, l) + [];
    } else {
      assert (lines + [l])[1..] == lines[1..] + [l];
      AllOutLinesSnoc(c, lines[1..], l);
      Assoc(OutLines(c, lines[0]), AllOutLines(c, lines[1..]), OutLines(c, l));
    }
  }

  /** One more line, read after it is rewritten and as it was. */
  lemma OneMoreLine(c: Codec, a: Scan, b: Scan, l: string)
    requires Faithful(c) && (a.Raised? <==> b.Raised?)
    ensures var (a', b') := (UsageScan(c, a, OutLines(c, l), true), UsageStep(c, b, l, true));
            && (a'.Raised? <==> b'.Raised?)
            && (a' == b' <==> b'.Raised? || (if Telling(c, l) then !Shadowed(c, l) else a == b))
  {
    LineKeepsUsage(c, a, l, true);
    if a.Raised? {
      RaisedStays(c, OutLines(c, l));
    } else if Shadowed(c, l) {
      ShadowedOut(c, a, l, Parsed(c, l).value.fields);
      ShadowedIn(c, b, l, Parsed(c, l).value.fields);
    }
  }

  lemma {:induction false} RaisedStays(c: Codec, lines: seq<string>)
    ensures UsageScan(c, Raised, lines, true).Raised?
    decreases |lines|
  {
    if lines != [] {
      RaisedStays(c, lines[1..]);
    }
  }

  lemma UsageScanSnoc(c: Codec, found: Scan, lines: seq<string>, l: string)
    ensures UsageScan(c, found, lines + [l], true) == UsageStep(c, UsageScan(c, found, lines, true), l, true)
  {
    UsageScanCat(c, found, lines, [l], true);
    assert [l][1..] == [];
  }

  lemma {:induction false} ResponsesExactly(c: Codec, lines: seq<string>)
    requires Faithful(c)
    ensures var (a, b) := (UsageScan(c, Found(None), AllOutLines(c, lines), true), UsageScan(c, Found(None), lines, true));
            (a.Raised? <==> b.Raised?) && (a == b <==> b.Raised? || !LastShadowed(c, lines))
    decreases |lines|
  {
    if lines != [] {
      var (front, l) := (lines[..|lines| - 1], lines[|lines| - 1]);
      assert lines == front + [l];
      ResponsesExactly(c, front);
      AllOutLinesSnoc(c, front, l);
      UsageScanCat(c, Found(None), AllOutLines(c, front), OutLines(c, l), true);
      UsageScanSnoc(c, Found(None), front, l);
      OneMoreLine(c, UsageScan(c, Found(None), AllOutLines(c, front), true), UsageScan(c, Found(None), front, true), l);
    }
  }

  /** On every stream the `copilot_usage` scan, and on every chat stream the usage scan, give the
      same result before and after the rewriting. On a Responses stream the usage scan does if and
      only if it raises, or the last line that reports a usage is not one that glues it to choices
      while its `response` reports another. */
  lemma RewriteKeepsAccounts(c: Codec, text: string, responsesShape: bool)
    requires Faithful(c)
    ensures CopilotScan(c, None, Lines(Rewrite(c, text))) == CopilotScan(c, None, Lines(text))
    ensures UsageScan(c, Found(None), Lines(Rewrite(c, text)), responsesShape) ==
            UsageScan(c, Found(None), Lines(text), responsesShape) <==>
            !responsesShape || UsageScan(c, Found(None), Lines(text), true).Raised? || !LastShadowed(c, Lines(text))
  {
    RewriteLines(c, text);
    LinesKeepCopilot(c, None, Lines(text));
    if responsesShape {
      ResponsesExactly(c, Lines(text));
    } else {
      LinesKeepUsage(c, Found(None), Lines(text), false);
    }
  }

  /** A chunk with a choice, a usage of its own, and another usage in its `response`. */
  function ShadowedChunk(): map<string, Json> {
    map["choices" := Arr([Obj(map[])]), "usage" := Obj(map["total_tokens" := Num(1, 0)]),
        "response" := Obj(map["usage" := Obj(map["total_tokens" := Num(2, 0)])])]
  }

  /** A Responses stream of one shadowed line is read differently once it is rewritten. */
  lemma ShadowedChunkChangesUsage(c: Codec, line: string, m: map<string, Json>)
    requires Faithful(c) && OneLine(line) && Shadowed(c, line) && Parsed(c, line) == Some(Obj(m))
    ensures UsageScan(c, Found(None), Lines(line), true) == Found(Some(UsageOf(m, true)))
    ensures UsageScan(c, Found(None), Lines(Rewrite(c, line)), true) == Found(Some(Get(m, "usage")))
  {
    ShadowedIn(c, Found(None), line, m);
    ShadowedOut(c, Found(None), line, m);
    RewriteLines(c, line);
    LinesOfLine(line);
    assert [line][1..] == [];
    assert UsageScan(c, Found(None), [line], true) == UsageStep(c, Found(None), line, true);
    assert AllOutLines(c, [line]) == OutLines(c, line) + [] == OutLines(c, line);
  }

  /** Whatever came before, an ordinary usage afterwards makes the two readings agree. */
  lemma LaterUsageMakesUp(c: Codec, text: string, line: string)
    requires Faithful(c) && OneLine(line) && Telling(c, line) && !Shadowed(c, line)
    ensures UsageScan(c, Found(None), Lines(Rewrite(c, text + "\n" + line)), true) ==
            UsageScan(c, Found(None), Lines(text + "\n" + line), true)
  {
    LinesCat(text, line);
    LinesOfLine(line);
    var lines := Lines(text) + [line];
    assert lines[|lines| - 1] == line;
    RewriteKeepsAccounts(c, text + "\n" + line, true);
  }

  /** Printed on one line, the chunk is shadowed: two total tokens are read before the rewriting,
      and one after it. */
  lemma ShadowedChunkExists(c: Codec)
    requires Faithful(c)
    ensures var line := DataLine(c, Obj(ShadowedChunk()));
            && OneLine(line) && Shadowed(c, line)
            && UsageScan(c, Found(None), Lines(line), true) == Found(Some(Obj(map["total_tokens" := Num(2, 0)])))
            && UsageScan(c, Found(None), Lines(Rewrite(c, line)), true) == Found(Some(Obj(map["total_tokens" := Num(1, 0)])))
  {
    var line := DataLine(c, Obj(ShadowedChunk()));
    DataLineReads(c, Obj(ShadowedChunk()));
    ChunkIsShadowed(c, line);
    ShadowedChunkChangesUsage(c, line, ShadowedChunk());
  }

  lemma ChunkIsShadowed(c: Codec, line: string)
    requires Parsed(c, line) == Some(Obj(ShadowedChunk()))
    ensures Shadowed(c, line) && UsageOf(ShadowedChunk(), true) == Obj(map["total_tokens" := Num(2, 0)])
    ensures Get(ShadowedChunk(), "usage") == Obj(map["total_tokens" := Num(1, 0)])
  {
    var (one, two) := (map["total_tokens" := Num(1, 0)], map["total_tokens" := Num(2, 0)]);
    assert one["total_tokens"] != two["total_tokens"];
    assert "total_tokens" in two && two != map[];
    assert "total_tokens" in one && one != map[];
  }
}

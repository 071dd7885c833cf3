/** Nothing is lost or counted twice between the rows, the groups and the totals. */
module AggregationProofs {
  import opened Decimal
  import opened Aggregation

  /** What can be read off a bucket; `ByStatus` is the count of one failure status. */
  datatype Field = Calls | OkCalls | FailedCalls | ByStatus(code: string) | Prompt | Cached | CacheWrite | Completion | Cost | Billed

  function Read(t: Totals, f: Field): int {
    match f
    case Calls => t.calls
    case OkCalls => t.okCalls
    case FailedCalls => t.failedCalls
    case ByStatus(code) => Count(t.failedByStatus, code)
    case Prompt => t.prompt
    case Cached => t.cached
    case CacheWrite => t.cacheWrite
    case Completion => t.completion
    case Cost => t.cost
    case Billed => t.billed
  }

  /** What one row says, null and missing columns saying zero. */
  function Says(r: Row, f: Field): int {
    match f
    case Calls => 1
    case OkCalls => if r.status.Some? && r.status.value >= 400 then 0 else 1
    case FailedCalls => if r.status.Some? && r.status.value >= 400 then 1 else 0
    case ByStatus(code) => if r.status.Some? && r.status.value >= 400 && Number(r.status.value) == code then 1 else 0
    case Prompt => if r.prompt.Some? then r.prompt.value else 0
    case Cached => if r.cached.Some? then r.cached.value else 0
    case CacheWrite => if r.cacheWrite.Some? then r.cacheWrite.value else 0
    case Completion => if r.completion.Some? then r.completion.value else 0
    case Cost => if r.cost.Some? then r.cost.value else 0
    case Billed => if r.billed.Some? then r.billed.value else 0
  }

  function Sum(rows: seq<Row>, f: Field): int {
    if rows == [] then 0 else Sum(rows[..|rows| - 1], f) + Says(rows[|rows| - 1], f)
  }

  /** Each field of a fold is the sum of what its rows say. */
  lemma {:induction false} FoldIsSum(rows: seq<Row>, f: Field)
    ensures Read(Fold(rows), f) == Sum(rows, f)
  {
    if rows != [] {
      FoldIsSum(rows[..|rows| - 1], f);
    }
  }

  ghost function MapSum(m: map<string, int>): int
    decreases |m|
  {
    if m == map[] then 0
    else
      var k :| k in m;
      m[k] + MapSum(m - {k})
  }

  lemma {:induction false} MapSumOf(m: map<string, int>, k: string)
    requires k in m
    ensures MapSum(m) == m[k] + MapSum(m - {k})
    decreases |m|
  {
    var j :| j in m && MapSum(m) == m[j] + MapSum(m - {j});
    if j != k {
      MapSumOf(m - {j}, k);
      MapSumOf(m - {k}, j);
      assert m - {j} - {k} == m - {k} - {j};
    }
  }

  lemma MapSumPut(m: map<string, int>, k: string, v: int)
    ensures MapSum(m[k := v]) == MapSum(m) - Count(m, k) + v
  {
    MapSumOf(m[k := v], k);
    assert m[k := v] - {k} == m - {k};
    if k in m {
      MapSumOf(m, k);
    } else {
      assert m - {k} == m;
    }
  }

  /** Calls are the served and the failed ones, and the failed ones are those counted by status,
      under statuses of at least 400 only. */
  lemma {:induction false} CallsSplit(rows: seq<Row>)
    ensures var t := Fold(rows);
            && t.calls == |rows| == t.okCalls + t.failedCalls
            && t.failedCalls == MapSum(t.failedByStatus)
            && forall code :: code in t.failedByStatus ==> t.failedByStatus[code] >= 1 && exists n :: n >= 400 && code == Number(n)
  {
    if rows != [] {
      var (front, r) := (rows[..|rows| - 1], rows[|rows| - 1]);
      CallsSplit(front);
      if Failed(r) {
        var m := Fold(front).failedByStatus;
        MapSumPut(m, Status(r), Count(m, Status(r)) + 1);
      }
    }
  }

  // ---- what a group says ----

  /** The name a row goes under: its group, or "unknown" if it has none or an empty one. */
  function NameOf(r: Row): string {
    match r.group
    case None => "unknown"
    case Some(name) => if |name| > 0 then name else "unknown"
  }

  /** What the rows of one name say together. */
  function SumOf(rows: seq<Row>, name: string, f: Field): int {
    if rows == [] then 0
    else SumOf(rows[..|rows| - 1], name, f) + if NameOf(rows[|rows| - 1]) == name then Says(rows[|rows| - 1], f) else 0
  }

  lemma KeyIsName(r: Row)
    ensures Key(r) == NameOf(r)
  {
  }

  lemma {:induction false} SumOfRows(rows: seq<Row>, name: string, f: Field)
    ensures Sum(RowsOf(rows, Key, name), f) == SumOf(rows, name, f)
  {
    if rows != [] {
      var front, r := rows[..|rows| - 1], rows[|rows| - 1];
      SumOfRows(front, name, f);
      KeyIsName(r);
      SumSnoc(RowsOf(front, Key, name), r, f);
    }
  }

  /** A group of the rows of its name, field by field. */
  ghost predicate IsSaid(g: Group, rows: seq<Row>) {
    (forall f :: Read(g.totals, f) == SumOf(rows, g.key, f)) && exists r :: r in rows && NameOf(r) == g.key
  }

  lemma GroupSays(g: Group, rows: seq<Row>)
    requires g.totals == Fold(RowsOf(rows, Key, g.key)) && exists r :: r in rows && Key(r) == g.key
    ensures IsSaid(g, rows)
  {
    var r :| r in rows && Key(r) == g.key;
    KeyIsName(r);
    forall f ensures Read(g.totals, f) == SumOf(rows, g.key, f) {
      FoldIsSum(RowsOf(rows, Key, g.key), f);
      SumOfRows(rows, g.key, f);
    }
  }

  ghost predicate Named(gs: seq<Group>, r: Row) { exists g :: g in gs && g.key == NameOf(r) }

  lemma OneGroupSays(all: seq<Group>, rows: seq<Row>, g: Group)
    ensures AreGroups(all, rows) && g in all ==> IsSaid(g, rows)
  {
    if AreGroups(all, rows) && g in all {
      GroupSays(g, rows);
    }
  }

  lemma OneRowIsNamed(all: seq<Group>, rows: seq<Row>, r: Row)
    ensures AreGroups(all, rows) && r in rows ==> Named(all, r)
  {
    if AreGroups(all, rows) && r in rows {
      KeyIsName(r);
      var g :| g in all && g.key == Key(r);
    }
  }

  /** Field by field, each listed group says what the rows of its name say together, and when no
      group was cut off every row's name is listed. */
  lemma BreakdownSays(out: seq<Group>, rows: seq<Row>)
    ensures IsBreakdown(out, rows) ==> forall g :: g in out ==> IsSaid(g, rows)
    ensures IsBreakdown(out, rows) && |out| < 500 ==> forall r :: r in rows ==> Named(out, r)
  {
    forall all: seq<Group>, g ensures AreGroups(all, rows) && g in all ==> IsSaid(g, rows) {
      OneGroupSays(all, rows, g);
    }
    forall all: seq<Group>, r ensures AreGroups(all, rows) && r in rows ==> Named(all, r) {
      OneRowIsNamed(all, rows, r);
    }
  }

  // ---- groups against totals ----

  function SumKeys(rows: seq<Row>, key: Row -> string, ks: seq<string>, f: Field): int {
    if ks == [] then 0 else Read(Fold(RowsOf(rows, key, ks[0])), f) + SumKeys(rows, key, ks[1..], f)
  }

  /** The rows whose key is listed. */
  function Listed(rows: seq<Row>, key: Row -> string, ks: seq<string>): seq<Row> {
    if rows == [] then []
    else Listed(rows[..|rows| - 1], key, ks) + (if key(rows[|rows| - 1]) in ks then [rows[|rows| - 1]] else [])
  }

  lemma SumSnoc(rows: seq<Row>, r: Row, f: Field)
    ensures Sum(rows + [r], f) == Sum(rows, f) + Says(r, f)
    ensures Sum(rows + [], f) == Sum(rows, f)
  {
    assert (rows + [r])[..|rows|] == rows && rows + [] == rows;
  }

  lemma SumListed(rows: seq<Row>, key: Row -> string, ks: seq<string>, f: Field)
    requires rows != []
    ensures Sum(Listed(rows, key, ks), f) ==
            Sum(Listed(rows[..|rows| - 1], key, ks), f) + (if key(rows[|rows| - 1]) in ks then Says(rows[|rows| - 1], f) else 0)
  {
    SumSnoc(Listed(rows[..|rows| - 1], key, ks), rows[|rows| - 1], f);
  }

  lemma SumRowsOf(rows: seq<Row>, key: Row -> string, k: string, f: Field)
    requires rows != []
    ensures Sum(RowsOf(rows, key, k), f) ==
            Sum(RowsOf(rows[..|rows| - 1], key, k), f) + (if key(rows[|rows| - 1]) == k then Says(rows[|rows| - 1], f) else 0)
  {
    SumSnoc(RowsOf(rows[..|rows| - 1], key, k), rows[|rows| - 1], f);
  }

  /** One more key lists its own rows besides. */
  lemma {:induction false} OneMoreKey(rows: seq<Row>, key: Row -> string, k: string, ks: seq<string>, f: Field)
    requires k !in ks
    ensures Sum(Listed(rows, key, [k] + ks), f) == Sum(RowsOf(rows, key, k), f) + Sum(Listed(rows, key, ks), f)
  {
    if rows != [] {
      OneMoreKey(rows[..|rows| - 1], key, k, ks, f);
      SumListed(rows, key, [k] + ks, f);
      SumRowsOf(rows, key, k, f);
      SumListed(rows, key, ks, f);
    }
  }

  predicate Distinct(ks: seq<string>) { forall i, j :: 0 <= i < j < |ks| ==> ks[i] != ks[j] }

  lemma {:induction false} NoneListed(rows: seq<Row>, key: Row -> string)
    ensures Listed(rows, key, []) == []
  {
    if rows != [] {
      NoneListed(rows[..|rows| - 1], key);
    }
  }

  lemma {:induction false} KeysCover(rows: seq<Row>, key: Row -> string, ks: seq<string>, f: Field)
    requires Distinct(ks)
    ensures SumKeys(rows, key, ks, f) == Sum(Listed(rows, key, ks), f)
    decreases |ks|
  {
    if ks == [] {
      NoneListed(rows, key);
    } else {
      assert ks == [ks[0]] + ks[1..];
      KeysCover(rows, key, ks[1..], f);
      OneMoreKey(rows, key, ks[0], ks[1..], f);
      FoldIsSum(RowsOf(rows, key, ks[0]), f);
    }
  }

  lemma {:induction false} AllListed(rows: seq<Row>, key: Row -> string, ks: seq<string>)
    requires forall r :: r in rows ==> key(r) in ks
    ensures Listed(rows, key, ks) == rows
  {
    if rows != [] {
      LastIn(rows);
      AllListed(rows[..|rows| - 1], key, ks);
    }
  }

  function SumGroups(gs: seq<Group>, f: Field): int {
    if gs == [] then 0 else Read(gs[0].totals, f) + SumGroups(gs[1..], f)
  }

  function KeysOf(gs: seq<Group>): seq<string> { seq(|gs|, i requires 0 <= i < |gs| => gs[i].key) }

  lemma {:induction false} GroupsAreKeys(gs: seq<Group>, rows: seq<Row>, f: Field)
    requires forall g :: g in gs ==> g.totals == Fold(RowsOf(rows, Key, g.key))
    ensures SumGroups(gs, f) == SumKeys(rows, Key, KeysOf(gs), f)
  {
    if gs != [] {
      assert KeysOf(gs)[1..] == KeysOf(gs[1..]);
      GroupsAreKeys(gs[1..], rows, f);
    }
  }

  /** Field by field, the groups before the cut add up to the independent totals. */
  lemma BreakdownConserves(gs: seq<Group>, rows: seq<Row>, f: Field)
    requires AreGroups(gs, rows)
    ensures SumGroups(gs, f) == Read(Fold(rows), f)
  {
    GroupsAreKeys(gs, rows, f);
    KeysCover(rows, Key, KeysOf(gs), f);
    forall r | r in rows ensures Key(r) in KeysOf(gs) {
      KeyIsListed(gs, rows, r);
    }
    AllListed(rows, Key, KeysOf(gs));
    FoldIsSum(rows, f);
  }

  lemma KeyIsListed(gs: seq<Group>, rows: seq<Row>, r: Row)
    ensures AreGroups(gs, rows) && r in rows ==> Key(r) in KeysOf(gs)
  {
    if AreGroups(gs, rows) && r in rows {
      var g :| g in gs && g.key == Key(r);
      var i :| 0 <= i < |gs| && gs[i] == g;
      assert KeysOf(gs)[i] == Key(r);
    }
  }

  /** After the cut the listed groups add up to exactly the rows whose group is listed. */
  lemma CutConserves(gs: seq<Group>, rows: seq<Row>, n: nat, f: Field)
    requires AreGroups(gs, rows) && n <= |gs|
    ensures SumGroups(gs[..n], f) == Sum(Listed(rows, Key, KeysOf(gs[..n])), f)
  {
    assert forall g :: g in gs[..n] ==> g in gs;
    GroupsAreKeys(gs[..n], rows, f);
    KeysCover(rows, Key, KeysOf(gs[..n]), f);
  }
}

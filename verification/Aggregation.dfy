/**
  Usage rows folded into running buckets: whole-window totals and the breakdown by one
  dimension, costliest groups first and cut to a limit.
 */
module Aggregation {
  import opened Decimal
  import opened Wrappers

  /** One document's projected columns; None is JSON null or a missing column, and, for the
      status, anything that is not an integer. Money is in units of 10^-11 USD. */
  datatype Row = Row(group: Option<string>, ts: Option<string>, status: Option<int>,
                     prompt: Option<int>, cached: Option<int>, cacheWrite: Option<int>, completion: Option<int>,
                     cost: Option<int>, billed: Option<int>)

  datatype Totals = Totals(calls: int, okCalls: int, failedCalls: int, failedByStatus: map<string, int>,
                           prompt: int, cached: int, cacheWrite: int, completion: int, cost: int, billed: int)

  const BLANK := Totals(0, 0, 0, map[], 0, 0, 0, 0, 0, 0)
  const MAX_GROUPS := 500

  function OrZero(x: Option<int>): int { if x.Some? then x.value else 0 }

  predicate Failed(r: Row) { r.status.Some? && r.status.value >= 400 }

  /** Failures are counted under the status as text. */
  function Status(r: Row): string
    requires r.status.Some?
  {
    Number(r.status.value)
  }

  function Count(m: map<string, int>, k: string): int { if k in m then m[k] else 0 }

  function Add(t: Totals, r: Row): Totals {
    Totals(t.calls + 1,
           if Failed(r) then t.okCalls else t.okCalls + 1,
           if Failed(r) then t.failedCalls + 1 else t.failedCalls,
           if Failed(r) then t.failedByStatus[Status(r) := Count(t.failedByStatus, Status(r)) + 1] else t.failedByStatus,
           t.prompt + OrZero(r.prompt), t.cached + OrZero(r.cached), t.cacheWrite + OrZero(r.cacheWrite),
           t.completion + OrZero(r.completion), t.cost + OrZero(r.cost), t.billed + OrZero(r.billed))
  }

  function Fold(rows: seq<Row>): Totals {
    if rows == [] then BLANK else Add(Fold(rows[..|rows| - 1]), rows[|rows| - 1])
  }

  /** A running bucket, updated in place. */
  class Bucket {
    var t: Totals

    constructor ()
      ensures t == BLANK
    {
      t := BLANK;
    }

    /** `_accumulate` */
    method Accumulate(r: Row)
      modifies this
      ensures t == Add(old(t), r)
    {
      t := t.(calls := t.calls + 1);
      if r.status.Some? && r.status.value >= 400 {
        t := t.(failedCalls := t.failedCalls + 1);
        var key := Number(r.status.value);
        var n := if key in t.failedByStatus then t.failedByStatus[key] else 0;
        t := t.(failedByStatus := t.failedByStatus[key := n + 1]);
      } else {
        t := t.(okCalls := t.okCalls + 1);
      }
      t := t.(prompt := t.prompt + OrZero(r.prompt), cached := t.cached + OrZero(r.cached));
      t := t.(cacheWrite := t.cacheWrite + OrZero(r.cacheWrite), completion := t.completion + OrZero(r.completion));
      t := t.(cost := t.cost + OrZero(r.cost), billed := t.billed + OrZero(r.billed));
    }
  }

  /** `cost_totals` */
  method CostTotals(rows: seq<Row>) returns (totals: Totals)
    ensures totals == Fold(rows)
  {
    var bucket := new Bucket();
    for i := 0 to |rows|
      invariant bucket.t == Fold(rows[..i])
      invariant fresh(bucket)
    {
      assert rows[..i + 1][..i] == rows[..i];
      bucket.Accumulate(rows[i]);
    }
    assert rows[..|rows|] == rows;
    totals := bucket.t;
  }

  // ---- groups ----

  /** `str(value or "unknown")` */
  function Key(r: Row): string {
    if r.group.None? || r.group.value == "" then "unknown" else r.group.value
  }

  /** The rows whose key under `key` is `k`. */
  function RowsOf(rows: seq<Row>, key: Row -> string, k: string): seq<Row> {
    if rows == [] then []
    else RowsOf(rows[..|rows| - 1], key, k) + (if key(rows[|rows| - 1]) == k then [rows[|rows| - 1]] else [])
  }

  datatype Group = Group(key: string, totals: Totals)

  predicate Costlier(gs: seq<Group>) { forall i, j :: 0 <= i < j < |gs| ==> gs[i].totals.cost >= gs[j].totals.cost }

  predicate DistinctKeys(gs: seq<Group>) { forall i, j :: 0 <= i < j < |gs| ==> gs[i].key != gs[j].key }

  /** The groups of the rows: every key that occurs, once, with the fold of its rows. */
  ghost predicate AreGroups(gs: seq<Group>, rows: seq<Row>) {
    && DistinctKeys(gs)
    && (forall g :: g in gs ==> g.totals == Fold(RowsOf(rows, Key, g.key)) && exists r :: r in rows && Key(r) == g.key)
    && (forall r :: r in rows ==> exists g :: g in gs && g.key == Key(r))
  }

  /** The running dictionary: every row is added to the totals under its key. */
  function Grouped(rows: seq<Row>, key: Row -> string): map<string, Totals> {
    if rows == [] then map[]
    else
      var (m, r) := (Grouped(rows[..|rows| - 1], key), rows[|rows| - 1]);
      m[key(r) := Add(if key(r) in m then m[key(r)] else BLANK, r)]
  }

  /** The dictionary in memory: an object of its own under every key. */
  ghost predicate Holds(buckets: map<string, Bucket>, m: map<string, Totals>)
    reads buckets.Values
  {
    && buckets.Keys == m.Keys
    && (forall k :: k in buckets ==> buckets[k].t == m[k])
    && (forall j, k :: j in buckets && k in buckets && j != k ==> buckets[j] != buckets[k])
  }

  lemma LastIn(rows: seq<Row>)
    requires rows != []
    ensures rows == rows[..|rows| - 1] + [rows[|rows| - 1]]
    ensures forall r :: r in rows <==> r in rows[..|rows| - 1] || r == rows[|rows| - 1]
  {
  }

  /** Each entry is the fold of the rows under its key, and every key of a row has one. */
  lemma {:induction false} GroupedIs(rows: seq<Row>, key: Row -> string, k: string)
    ensures k in Grouped(rows, key) ==> Grouped(rows, key)[k] == Fold(RowsOf(rows, key, k)) && exists r :: r in rows && key(r) == k
    ensures k !in Grouped(rows, key) ==> RowsOf(rows, key, k) == [] && forall r :: r in rows ==> key(r) != k
  {
    if rows != [] {
      var (front, r) := (rows[..|rows| - 1], rows[|rows| - 1]);
      LastIn(rows);
      GroupedIs(front, key, k);
      FoldOneMore(RowsOf(front, key, k), r);
    }
  }

  lemma FoldOneMore(rows: seq<Row>, r: Row)
    ensures Fold(rows + [r]) == Add(Fold(rows), r) && rows + [] == rows
  {
    assert (rows + [r])[..|rows|] == rows;
  }

  /** `buckets.get(key)`, a new bucket being made on a key's first row, then `_accumulate`. */
  method AddRow(buckets: map<string, Bucket>, k: string, r: Row, ghost m: map<string, Totals>)
    returns (next: map<string, Bucket>)
    requires Holds(buckets, m)
    modifies buckets.Values
    ensures Holds(next, m[k := Add(if k in m then m[k] else BLANK, r)])
    ensures forall j :: j in next ==> fresh(next[j]) || next[j] in buckets.Values
  {
    next := buckets;
    if k !in buckets {
      var b := new Bucket();
      next := next[k := b];
    }
    next[k].Accumulate(r);
  }

  /** The loop of `cost_breakdown` and of `cost_trend` that fills the dictionary. */
  method Buckets(rows: seq<Row>, key: Row -> string) returns (buckets: map<string, Bucket>)
    ensures Holds(buckets, Grouped(rows, key))
    ensures forall k :: k in buckets ==> fresh(buckets[k])
  {
    buckets := map[];
    for i := 0 to |rows|
      invariant Holds(buckets, Grouped(rows[..i], key))
      invariant forall k :: k in buckets ==> fresh(buckets[k])
    {
      assert rows[..i + 1][..i] == rows[..i];
      buckets := AddRow(buckets, key(rows[i]), rows[i], Grouped(rows[..i], key));
    }
    assert rows[..|rows|] == rows;
  }

  /** Insertion of a group before the first cheaper one. */
  function Insert(g: Group, gs: seq<Group>): seq<Group> {
    if gs == [] || gs[0].totals.cost < g.totals.cost then [g] + gs else [gs[0]] + Insert(g, gs[1..])
  }

  lemma TailIsSorted(gs: seq<Group>)
    requires gs != [] && Costlier(gs)
    ensures Costlier(gs[1..]) && forall x :: x in gs[1..] ==> x.totals.cost <= gs[0].totals.cost
    ensures DistinctKeys(gs) ==> DistinctKeys(gs[1..]) && forall x :: x in gs[1..] ==> x.key != gs[0].key
    ensures forall x :: x in gs <==> x == gs[0] || x in gs[1..]
  {
    assert forall i :: 0 <= i < |gs| - 1 ==> gs[1..][i] == gs[i + 1];
  }

  lemma ConsIsSorted(g: Group, gs: seq<Group>)
    requires Costlier(gs) && forall x :: x in gs ==> x.totals.cost <= g.totals.cost
    ensures Costlier([g] + gs)
    ensures DistinctKeys(gs) && (forall x :: x in gs ==> x.key != g.key) ==> DistinctKeys([g] + gs)
    ensures forall x :: x in [g] + gs <==> x == g || x in gs
  {
  }

  lemma {:induction false} InsertSorts(g: Group, gs: seq<Group>)
    requires Costlier(gs)
    ensures Costlier(Insert(g, gs))
    ensures forall x :: x in Insert(g, gs) <==> x == g || x in gs
    ensures DistinctKeys(gs) && (forall x :: x in gs ==> x.key != g.key) ==> DistinctKeys(Insert(g, gs))
  {
    if gs == [] {
      ConsIsSorted(g, gs);
    } else {
      TailIsSorted(gs);
      if gs[0].totals.cost < g.totals.cost {
        ConsIsSorted(g, gs);
      } else {
        InsertSorts(g, gs[1..]);
        ConsIsSorted(gs[0], Insert(g, gs[1..]));
      }
    }
  }

  /** The entries of the dictionary, costliest first. */
  method Sorted(buckets: map<string, Bucket>, ghost m: map<string, Totals>) returns (sorted: seq<Group>)
    requires Holds(buckets, m)
    ensures Costlier(sorted) && DistinctKeys(sorted)
    ensures forall g :: g in sorted <==> g.key in m && g.totals == m[g.key]
  {
    var left := buckets.Keys;
    sorted := [];
    while left != {}
      invariant left <= m.Keys && Costlier(sorted) && DistinctKeys(sorted)
      invariant forall g :: g in sorted <==> g.key in m && g.key !in left && g.totals == m[g.key]
      decreases |left|
    {
      var k :| k in left;
      InsertSorts(Group(k, buckets[k].t), sorted);
      sorted := Insert(Group(k, buckets[k].t), sorted);
      left := left - {k};
    }
  }

  lemma SortedAreGroups(gs: seq<Group>, rows: seq<Row>)
    requires DistinctKeys(gs) && forall g :: g in gs <==> g.key in Grouped(rows, Key) && g.totals == Grouped(rows, Key)[g.key]
    ensures AreGroups(gs, rows)
  {
    forall g | g in gs ensures g.totals == Fold(RowsOf(rows, Key, g.key)) && exists r :: r in rows && Key(r) == g.key {
      GroupedIs(rows, Key, g.key);
    }
    forall r | r in rows ensures exists g :: g in gs && g.key == Key(r) {
      GroupedIs(rows, Key, Key(r));
      assert Group(Key(r), Grouped(rows, Key)[Key(r)]) in gs;
    }
  }

  lemma CutKeepsCostliest(all: seq<Group>, n: nat)
    requires Costlier(all) && n <= |all|
    ensures forall g, h :: g in all && g !in all[..n] && h in all[..n] ==> g.totals.cost <= h.totals.cost
  {
    forall i | 0 <= i < n ensures all[i] in all[..n] {
      assert all[..n][i] == all[i];
    }
    forall g, h | g in all && g !in all[..n] && h in all[..n] ensures g.totals.cost <= h.totals.cost {
      var j :| 0 <= j < |all| && all[j] == g;
      var i :| 0 <= i < n && all[i] == h;
    }
  }

  /** A breakdown: the groups of the rows, costliest first, cut to the limit. */
  ghost predicate IsBreakdown(out: seq<Group>, rows: seq<Row>) {
    exists all :: AreGroups(all, rows) && Costlier(all) && out == if |all| > MAX_GROUPS then all[..MAX_GROUPS] else all
  }

  /** Every group left out costs at most as much as every one kept. */
  ghost predicate KeepsCostliest(out: seq<Group>, rows: seq<Row>) {
    forall r, h :: r in rows && h in out && (forall g :: g in out ==> g.key != Key(r)) ==>
      Fold(RowsOf(rows, Key, Key(r))).cost <= h.totals.cost
  }

  lemma CutIsBreakdown(all: seq<Group>, out: seq<Group>, rows: seq<Row>)
    requires AreGroups(all, rows) && Costlier(all) && out == if |all| > MAX_GROUPS then all[..MAX_GROUPS] else all
    ensures IsBreakdown(out, rows) && KeepsCostliest(out, rows)
  {
    CutKeepsCostliest(all, |out|);
    forall r, h | r in rows && h in out && (forall g :: g in out ==> g.key != Key(r))
      ensures Fold(RowsOf(rows, Key, Key(r))).cost <= h.totals.cost
    {
      var g :| g in all && g.key == Key(r);
    }
  }

  /** `cost_breakdown`: at most 500 groups, each the fold of its rows, costliest first; none left
      out costs more than one kept. */
  method CostBreakdown(rows: seq<Row>) returns (out: seq<Group>)
    ensures IsBreakdown(out, rows) && KeepsCostliest(out, rows) && |out| <= 500
  {
    var buckets := Buckets(rows, Key);
    var sorted := Sorted(buckets, Grouped(rows, Key));
    SortedAreGroups(sorted, rows);
    out := if |sorted| > MAX_GROUPS then sorted[..MAX_GROUPS] else sorted;
    CutIsBreakdown(sorted, out, rows);
  }
}

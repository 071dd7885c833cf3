/**
  Money in exact arithmetic. Amounts are whole numbers of 10^-11 USD, the finest unit the
  billing code rounds to; one nano-AIU is exactly one such unit.
 */
module Billing {
  import opened Wrappers

  /** `round()`: to the nearest integer, ties to the even one. */
  function Round(x: real): int {
    var f := x.Floor;
    var rest := x - f as real;
    if rest < 0.5 then f
    else if rest > 0.5 then f + 1
    else if f % 2 == 0 then f else f + 1
  }

  lemma RoundIsNearest(x: real)
    ensures x - 0.5 <= Round(x) as real <= x + 0.5
  {
  }

  lemma RoundOfInteger(n: int)
    ensures Round(n as real) == n
  {
  }

  /** A number halfway between two integers goes to the even one. */
  lemma RoundOfTie(n: int)
    ensures Round(n as real + 0.5) == if n % 2 == 0 then n else n + 1
  {
  }

  lemma RoundIsMonotone(x: real, y: real)
    requires x <= y
    ensures Round(x) <= Round(y)
  {
    if x.Floor == y.Floor {
    } else {
      assert x.Floor + 1 <= y.Floor;
    }
  }

  /** A whole number moved by less than a half rounds back, or beyond. */
  lemma RoundOfOffset(n: int, y: real)
    ensures Round(n as real + y) >= n <==> y > -0.5 || (y == -0.5 && n % 2 == 0)
  {
    var x := n as real + y;
    assert x.Floor == n + y.Floor;
    if y >= 0.0 {
      RoundOfInteger(n);
      RoundIsMonotone(n as real, x);
    } else if y < -1.0 {
      assert x.Floor <= n - 2;
    } else {
      assert x.Floor == n - 1 && x - x.Floor as real == y + 1.0;
      assert (n - 1) % 2 == 0 <==> n % 2 != 0;
    }
  }

  datatype CostBreakdown = CostBreakdown(cost: int, billed: int)

  function RoundPair(cost: real, markup: real): CostBreakdown {
    CostBreakdown(Round(cost), Round(cost * (1.0 + markup)))
  }

  /** `cost_from_copilot_usage`: None when upstream gave no usable total; 0 is a real answer. */
  function CostFromCopilotUsage(nano: Option<real>, markup: real): Option<CostBreakdown> {
    match nano
    case None => None
    case Some(x) => Some(RoundPair(x, markup))
  }

  predicate Whole(x: real) { x == x.Floor as real }

  /** The 11-place cost of a nano total is within half a unit of it, and loses nothing exactly when
      the total is whole. With a non-negative markup the bill is never below cost for a
      non-negative total, and for a whole one exactly when it is non-negative or its markup rounds
      away. */
  lemma CostIsExact(x: real, markup: real)
    requires markup >= 0.0
    ensures var c := CostFromCopilotUsage(Some(x), markup).value;
            x - 0.5 <= c.cost as real <= x + 0.5 &&
            (c.cost as real == x <==> Whole(x)) &&
            (x >= 0.0 ==> c.billed >= c.cost) &&
            (Whole(x) ==> (c.billed >= c.cost <==>
              x >= 0.0 || x * markup > -0.5 || (x * markup == -0.5 && x.Floor % 2 == 0)))
  {
    var n, y := x.Floor, x * markup;
    Spread(x, markup);
    RoundIsNearest(x);
    if x >= 0.0 {
      Product(x, markup);
      RoundIsMonotone(x, x + y);
    }
    if Whole(x) {
      RoundOfInteger(n);
      RoundOfOffset(n, y);
    }
  }

  lemma Spread(x: real, y: real)
    ensures x * (1.0 + y) == x + x * y
  {
  }

  lemma Product(x: real, y: real)
    requires x >= 0.0 && y >= 0.0
    ensures x * y >= 0.0
  {
  }

  // ---- sums ----

  function Sum(xs: seq<int>): int {
    if xs == [] then 0 else xs[0] + Sum(xs[1..])
  }

  function Marked(nanos: seq<real>, markup: real): (r: seq<real>)
    ensures |r| == |nanos|
  {
    if nanos == [] then [] else [nanos[0] * (1.0 + markup)] + Marked(nanos[1..], markup)
  }

  function Rounded(xs: seq<real>): (r: seq<int>)
    ensures |r| == |xs|
  {
    if xs == [] then [] else [Round(xs[0])] + Rounded(xs[1..])
  }

  ghost function RealSum(xs: seq<real>): real {
    if xs == [] then 0.0 else xs[0] + RealSum(xs[1..])
  }

  /** The bills of a list of nano totals, each rounded when its row is written. */
  function Bills(nanos: seq<real>, markup: real): (r: seq<int>)
    ensures |r| == |nanos|
    ensures forall i :: 0 <= i < |nanos| ==> r[i] == RoundPair(nanos[i], markup).billed
  {
    MarkedAt(nanos, markup);
    RoundedAt(Marked(nanos, markup));
    Rounded(Marked(nanos, markup))
  }

  lemma {:induction false} MarkedAt(nanos: seq<real>, markup: real)
    ensures forall i :: 0 <= i < |nanos| ==> Marked(nanos, markup)[i] == nanos[i] * (1.0 + markup)
  {
    if nanos != [] {
      MarkedAt(nanos[1..], markup);
    }
  }

  lemma {:induction false} RoundedAt(xs: seq<real>)
    ensures forall i :: 0 <= i < |xs| ==> Rounded(xs)[i] == Round(xs[i])
  {
    if xs != [] {
      RoundedAt(xs[1..]);
    }
  }

  lemma {:induction false} RoundedDrift(xs: seq<real>)
    ensures RealSum(xs) - |xs| as real / 2.0 <= Sum(Rounded(xs)) as real <= RealSum(xs) + |xs| as real / 2.0
  {
    if xs != [] {
      RoundedDrift(xs[1..]);
      RoundIsNearest(xs[0]);
      assert Rounded(xs)[1..] == Rounded(xs[1..]);
    }
  }

  lemma {:induction false} MarkedSum(nanos: seq<real>, markup: real)
    ensures RealSum(Marked(nanos, markup)) == RealSum(nanos) * (1.0 + markup)
  {
    if nanos != [] {
      MarkedSum(nanos[1..], markup);
      assert Marked(nanos, markup)[1..] == Marked(nanos[1..], markup);
      Distribute(nanos[0], RealSum(nanos[1..]), 1.0 + markup);
    }
  }

  /** Rounding each bill separately drifts by at most half a unit a row. */
  lemma BilledDrift(nanos: seq<real>, markup: real)
    ensures var exact := RealSum(nanos) * (1.0 + markup);
            exact - |nanos| as real / 2.0 <= Sum(Bills(nanos, markup)) as real <= exact + |nanos| as real / 2.0
  {
    RoundedDrift(Marked(nanos, markup));
    MarkedSum(nanos, markup);
  }

  lemma Distribute(a: real, b: real, k: real)
    ensures (a + b) * k == a * k + b * k
  {
  }

  // ---- the summary of a tenant's rows ----

  /** A stored row; `None` is a missing or null column. */
  datatype Row = Row(promptTok: Option<int>, completionTok: Option<int>, cost: Option<int>, billed: Option<int>)

  /** Costs of the summary are rounded to 4 places: whole multiples of 10^-4 USD. */
  datatype Summary = Summary(promptTok: int, completionTok: int, cost4: int, billed4: int)

  const UNITS_PER_4_PLACES := 10_000_000

  function OrZero(x: Option<int>): int {
    match x
    case None => 0
    case Some(v) => v
  }

  function Column(rows: seq<Row>, f: Row -> Option<int>): (c: seq<int>)
    ensures |c| == |rows|
  {
    if rows == [] then [] else [OrZero(f(rows[0]))] + Column(rows[1..], f)
  }

  function PromptColumn(): Row -> Option<int> { (r: Row) => r.promptTok }
  function CompletionColumn(): Row -> Option<int> { (r: Row) => r.completionTok }
  function CostColumn(): Row -> Option<int> { (r: Row) => r.cost }
  function BilledColumn(): Row -> Option<int> { (r: Row) => r.billed }

  lemma {:induction false} ColumnStep(rows: seq<Row>, i: nat, f: Row -> Option<int>)
    requires i < |rows|
    ensures Sum(Column(rows[..i + 1], f)) == Sum(Column(rows[..i], f)) + OrZero(f(rows[i]))
  {
    if i == 0 {
      assert rows[..1] == [rows[0]] && [rows[0]][1..] == [];
    } else {
      assert rows[..i + 1][1..] == rows[1..][..i] && rows[..i][1..] == rows[1..][..i - 1];
      ColumnStep(rows[1..], i - 1, f);
      var (a, b) := (Column(rows[..i + 1], f), Column(rows[..i], f));
      assert a[1..] == Column(rows[1..][..i], f) && b[1..] == Column(rows[1..][..i - 1], f);
    }
  }

  function ToPlaces4(units: int): int { Round(units as real / UNITS_PER_4_PLACES as real) }

  /** The columns of a row that a summary adds up. */
  datatype Summed = PromptTok | CompletionTok | CostUsd | BilledUsd

  /** What a row has in a column, nothing counting zero. */
  function Has(r: Row, c: Summed): int {
    match c
    case PromptTok => if r.promptTok.Some? then r.promptTok.value else 0
    case CompletionTok => if r.completionTok.Some? then r.completionTok.value else 0
    case CostUsd => if r.cost.Some? then r.cost.value else 0
    case BilledUsd => if r.billed.Some? then r.billed.value else 0
  }

  function Total(rows: seq<Row>, c: Summed): int {
    if rows == [] then 0 else Has(rows[0], c) + Total(rows[1..], c)
  }

  lemma {:induction false} ColumnsAreTotals(rows: seq<Row>)
    ensures Sum(Column(rows, PromptColumn())) == Total(rows, PromptTok)
    ensures Sum(Column(rows, CompletionColumn())) == Total(rows, CompletionTok)
    ensures Sum(Column(rows, CostColumn())) == Total(rows, CostUsd)
    ensures Sum(Column(rows, BilledColumn())) == Total(rows, BilledUsd)
  {
    if rows != [] {
      ColumnsAreTotals(rows[1..]);
      OneColumn(rows, PromptColumn());
      OneColumn(rows, CompletionColumn());
      OneColumn(rows, CostColumn());
      OneColumn(rows, BilledColumn());
    }
  }

  lemma OneColumn(rows: seq<Row>, f: Row -> Option<int>)
    requires rows != []
    ensures Sum(Column(rows, f)) == OrZero(f(rows[0])) + Sum(Column(rows[1..], f))
  {
    assert Column(rows, f)[1..] == Column(rows[1..], f);
  }

  /** A sum of units of 10^-11 USD shown in whole multiples of 10^-4 USD, to the nearest. */
  predicate IsRounded4(shown: int, units: int) {
    units - 5_000_000 <= shown * 10_000_000 <= units + 5_000_000
  }

  lemma PlacesAreNearest(units: int)
    ensures IsRounded4(ToPlaces4(units), units)
  {
    var x := units as real / UNITS_PER_4_PLACES as real;
    RoundIsNearest(x);
    assert x * 10_000_000.0 == units as real;
  }

  /** `_summarize` */
  method Summarize(rows: seq<Row>) returns (s: Summary)
    ensures s.promptTok == Sum(Column(rows, PromptColumn()))
    ensures s.completionTok == Sum(Column(rows, CompletionColumn()))
    ensures s.cost4 == ToPlaces4(Sum(Column(rows, CostColumn())))
    ensures s.billed4 == ToPlaces4(Sum(Column(rows, BilledColumn())))
    ensures s.promptTok == Total(rows, PromptTok) && s.completionTok == Total(rows, CompletionTok)
    ensures IsRounded4(s.cost4, Total(rows, CostUsd)) && IsRounded4(s.billed4, Total(rows, BilledUsd))
  {
    var prompt, completion, cost, billed := 0, 0, 0, 0;
    for i := 0 to |rows|
      invariant prompt == Sum(Column(rows[..i], PromptColumn()))
      invariant completion == Sum(Column(rows[..i], CompletionColumn()))
      invariant cost == Sum(Column(rows[..i], CostColumn()))
      invariant billed == Sum(Column(rows[..i], BilledColumn()))
    {
      ColumnStep(rows, i, PromptColumn());
      ColumnStep(rows, i, CompletionColumn());
      ColumnStep(rows, i, CostColumn());
      ColumnStep(rows, i, BilledColumn());
      prompt := prompt + OrZero(rows[i].promptTok);
      completion := completion + OrZero(rows[i].completionTok);
      cost := cost + OrZero(rows[i].cost);
      billed := billed + OrZero(rows[i].billed);
    }
    assert rows[..|rows|] == rows;
    s := Summary(prompt, completion, ToPlaces4(cost), ToPlaces4(billed));
    ColumnsAreTotals(rows);
    PlacesAreNearest(cost);
    PlacesAreNearest(billed);
  }

  /** What a summary shows as billed for rows priced at one markup is within half a unit a row,
      plus 0.00005 USD, of the marked-up exact cost. */
  lemma SummaryDrift(nanos: seq<real>, markup: real)
    ensures var exact := RealSum(nanos) * (1.0 + markup);
            var shown := ToPlaces4(Sum(Bills(nanos, markup))) as real * UNITS_PER_4_PLACES as real;
            exact - |nanos| as real / 2.0 - 5_000_000.0 <= shown <= exact + |nanos| as real / 2.0 + 5_000_000.0
  {
    BilledDrift(nanos, markup);
    RoundIsNearest(Sum(Bills(nanos, markup)) as real / UNITS_PER_4_PLACES as real);
  }

  lemma {:induction false} BilledTotal(rows: seq<Row>, bills: seq<int>)
    requires |rows| == |bills| && forall i :: 0 <= i < |rows| ==> rows[i].billed == Some(bills[i])
    ensures Total(rows, BilledUsd) == Sum(bills)
    decreases |rows|
  {
    if rows != [] {
      BilledTotal(rows[1..], bills[1..]);
    }
  }

  /** So the summary of rows that were billed at one markup is as far off at most. */
  lemma SummaryIsNearBill(rows: seq<Row>, nanos: seq<real>, markup: real, billed4: int)
    requires |rows| == |nanos| && forall i :: 0 <= i < |rows| ==> rows[i].billed == Some(Bills(nanos, markup)[i])
    requires IsRounded4(billed4, Total(rows, BilledUsd))
    ensures var exact := RealSum(nanos) * (1.0 + markup);
            exact - |rows| as real / 2.0 - 5_000_000.0 <= billed4 as real * 10_000_000.0
              <= exact + |rows| as real / 2.0 + 5_000_000.0
  {
    BilledTotal(rows, Bills(nanos, markup));
    BilledDrift(nanos, markup);
  }

  // ---- token counts ----

  /** One entry of `token_details`; `None` counts are booleans, strings and the like. */
  datatype TokenEntry = NotAnObject | TokenEntry(kind: string, count: Option<int>)

  datatype Tokens = Tokens(prompt: int, completion: int, cached: int, cacheWrite: int)

  function AddEntry(t: Tokens, e: TokenEntry): Tokens {
    if e.NotAnObject? || e.count.None? then t
    else if e.kind == "input" then t.(prompt := t.prompt + e.count.value)
    else if e.kind == "output" then t.(completion := t.completion + e.count.value)
    else if e.kind == "cache_read" then t.(cached := t.cached + e.count.value)
    else if e.kind == "cache_write" then t.(cacheWrite := t.cacheWrite + e.count.value)
    else t
  }

  function AddEntries(t: Tokens, details: seq<TokenEntry>): Tokens
    decreases |details|
  {
    if details == [] then t else AddEntries(AddEntry(t, details[0]), details[1..])
  }

  function TokensFrom(details: seq<TokenEntry>): Tokens { AddEntries(Tokens(0, 0, 0, 0), details) }

  method TokensFromCopilotUsage(details: seq<TokenEntry>) returns (t: Tokens)
    ensures t == TokensFrom(details)
  {
    t := Tokens(0, 0, 0, 0);
    for i := 0 to |details|
      invariant AddEntries(t, details[i..]) == TokensFrom(details)
    {
      assert details[i..][1..] == details[i + 1..];
      t := AddEntry(t, details[i]);
    }
  }

  /** The counts of one kind; None for an entry that is not of it or carries no count. */
  function CountsOf(details: seq<TokenEntry>, kind: string): int {
    if details == [] then 0
    else (if details[0].TokenEntry? && details[0].kind == kind && details[0].count.Some? then details[0].count.value else 0)
         + CountsOf(details[1..], kind)
  }

  /** Each field is the sum of the counts of its kind, whatever order they come in. */
  lemma {:induction false} TokensAreSums(t: Tokens, details: seq<TokenEntry>)
    ensures AddEntries(t, details) ==
            Tokens(t.prompt + CountsOf(details, "input"), t.completion + CountsOf(details, "output"),
                   t.cached + CountsOf(details, "cache_read"), t.cacheWrite + CountsOf(details, "cache_write"))
    decreases |details|
  {
    if details != [] {
      TokensAreSums(AddEntry(t, details[0]), details[1..]);
    }
  }
}

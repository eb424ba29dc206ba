/**
 * The expense breakdown: EXPENSE amounts summed per category into a
 * dictionary, then turned into chart rows sorted largest first.
 *
 * The dictionary is a JavaScript object, whose entries come back from
 * `Object.entries` in insertion order; it is modelled as an association list
 * that keeps that order.
 */
module Analytics {
  import opened Types
  import opened Constants
  import opened Sorting
  import opened App

  datatype Entry = Entry(category: Category, total: real)

  /** The accumulator dictionary `Record<string, number>`, in insertion order. */
  type Totals = seq<Entry>

  function Keys(d: Totals): seq<Category>
  {
    if d == [] then [] else [d[0].category] + Keys(d[1..])
  }

  /** `acc[c] || 0`: the value under `c`, or 0 when there is none. */
  function Lookup(d: Totals, c: Category): (r: real)
    ensures c !in Keys(d) ==> r == 0.0
  {
    if d == [] then 0.0
    else if d[0].category == c then d[0].total
    else Lookup(d[1..], c)
  }

  function SumTotals(d: Totals): real
  {
    if d == [] then 0.0 else d[0].total + SumTotals(d[1..])
  }

  /**
   * `acc[c] = (acc[c] || 0) + amount`: raise the entry under `c`, or add a
   * new entry at the end when `c` is not yet a key.
   */
  function Accumulate(d: Totals, c: Category, amount: real): (r: Totals)
    ensures |r| == |d| + (if c in Keys(d) then 0 else 1)
  {
    if d == [] then [Entry(c, 0.0 + amount)]
    else if d[0].category == c then [Entry(c, d[0].total + amount)] + d[1..]
    else [d[0]] + Accumulate(d[1..], c, amount)
  }

  /** Only the value under `c` changes, and it grows by `amount`. */
  lemma {:induction false} AccumulateLookup(d: Totals, c: Category, amount: real, k: Category)
    ensures Lookup(Accumulate(d, c, amount), k) == Lookup(d, k) + (if k == c then amount else 0.0)
  {
    if d != [] && d[0].category != c {
      AccumulateLookup(d[1..], c, amount, k);
    }
  }

  lemma DistinctCons(x: Category, s: seq<Category>)
    ensures Distinct([x] + s) <==> x !in s && Distinct(s)
  {
    var t := [x] + s;
    if x !in s && Distinct(s) {
      forall i, j | 0 <= i < j < |t| ensures t[i] != t[j] {
        assert t[j] == s[j - 1];
        if i > 0 { assert t[i] == s[i - 1]; }
      }
    }
    if Distinct(t) {
      forall i, j | 0 <= i < j < |s| ensures s[i] != s[j] {
        assert s[i] == t[i + 1] && s[j] == t[j + 1];
      }
      forall j | 0 <= j < |s| ensures s[j] != x {
        assert t[0] != t[j + 1];
      }
    }
  }

  /** The keys afterwards are the keys before, plus `c`. */
  lemma {:induction false} AccumulateKeys(d: Totals, c: Category, amount: real)
    ensures forall k :: k in Keys(Accumulate(d, c, amount)) <==> k in Keys(d) || k == c
    ensures Distinct(Keys(d)) ==> Distinct(Keys(Accumulate(d, c, amount)))
  {
    if d != [] && d[0].category != c {
      AccumulateKeys(d[1..], c, amount);
      var rest := Accumulate(d[1..], c, amount);
      assert Accumulate(d, c, amount) == [d[0]] + rest;
      assert Keys([d[0]] + rest) == [d[0].category] + Keys(rest);
      assert Keys(d) == [d[0].category] + Keys(d[1..]);
      DistinctCons(d[0].category, Keys(d[1..]));
      DistinctCons(d[0].category, Keys(rest));
    } else if d != [] {
      assert Keys([Entry(c, d[0].total + amount)] + d[1..]) == [c] + Keys(d[1..]);
    }
  }

  lemma {:induction false} AccumulateSum(d: Totals, c: Category, amount: real)
    ensures SumTotals(Accumulate(d, c, amount)) == SumTotals(d) + amount
  {
    if d != [] && d[0].category != c {
      AccumulateSum(d[1..], c, amount);
    } else if d != [] {
      assert ([Entry(c, d[0].total + amount)] + d[1..])[1..] == d[1..];
    }
  }

  /**
   * The `reduce` over the filtered list, starting from accumulator `d`: the
   * values' sum grows by the folded amounts, and keys stay repeat-free.
   */
  function Fold(d: Totals, s: seq<Transaction>): (r: Totals)
    ensures SumTotals(r) == SumTotals(d) + Total(s)
    ensures Distinct(Keys(d)) ==> Distinct(Keys(r))
    decreases |s|
  {
    if s == [] then d
    else
      AccumulateSum(d, s[0].category, s[0].amount);
      AccumulateKeys(d, s[0].category, s[0].amount);
      Fold(Accumulate(d, s[0].category, s[0].amount), s[1..])
  }

  /**
   * `expenseData`: the fold over the EXPENSE transactions from `{}`. The
   * value under each category is that category's EXPENSE sum, a category is
   * a key iff some EXPENSE transaction has it (INCOME adds none), each key
   * occurs once, and the values add up to the EXPENSE total.
   */
  function ExpensesByCategory(txs: seq<Transaction>): (d: Totals)
    ensures forall c :: Lookup(d, c) == CategoryExpense(txs, c)
    ensures forall c :: c in Keys(d) <==> exists t :: t in txs && t.kind == EXPENSE && t.category == c
    ensures Distinct(Keys(d))
    ensures SumTotals(d) == Total(OfType(txs, EXPENSE))
  {
    FoldFacts(OfType(txs, EXPENSE));
    Fold([], OfType(txs, EXPENSE))
  }

  /** The elements of `s` in category `c`. */
  function OfCategory(s: seq<Transaction>, c: Category): seq<Transaction>
  {
    if s == [] then []
    else (if s[0].category == c then [s[0]] else []) + OfCategory(s[1..], c)
  }

  /** Reference definition: the sum of EXPENSE amounts in category `c`. */
  function CategoryExpense(txs: seq<Transaction>, c: Category): real
  {
    Total(OfCategory(OfType(txs, EXPENSE), c))
  }

  /** The `expenseData` computation as its loop runs, accumulator updated in place. */
  method BuildExpenseData(txs: seq<Transaction>) returns (acc: Totals)
    ensures acc == ExpensesByCategory(txs)
  {
    var expenses := OfType(txs, EXPENSE);
    acc := [];
    var i := 0;
    while i < |expenses|
      invariant 0 <= i <= |expenses|
      invariant Fold(acc, expenses[i..]) == Fold([], expenses)
    {
      assert expenses[i..][1..] == expenses[i + 1..];
      acc := Accumulate(acc, expenses[i].category, expenses[i].amount);
      i := i + 1;
    }
  }

  lemma {:induction false} FoldLookup(d: Totals, s: seq<Transaction>, c: Category)
    ensures Lookup(Fold(d, s), c) == Lookup(d, c) + Total(OfCategory(s, c))
    decreases |s|
  {
    if s != [] {
      AccumulateLookup(d, s[0].category, s[0].amount, c);
      FoldLookup(Accumulate(d, s[0].category, s[0].amount), s[1..], c);
      TotalAppend(if s[0].category == c then [s[0]] else [], OfCategory(s[1..], c));
    }
  }

  lemma {:induction false} FoldKeys(d: Totals, s: seq<Transaction>, c: Category)
    ensures c in Keys(Fold(d, s)) <==> c in Keys(d) || exists t :: t in s && t.category == c
    decreases |s|
  {
    if s != [] {
      var d' := Accumulate(d, s[0].category, s[0].amount);
      AccumulateKeys(d, s[0].category, s[0].amount);
      assert c in Keys(d') <==> c in Keys(d) || c == s[0].category;
      FoldKeys(d', s[1..], c);
      assert s == [s[0]] + s[1..];
      assert (exists t :: t in s && t.category == c) <==>
        s[0].category == c || exists t :: t in s[1..] && t.category == c;
    }
  }

  /** Lookup and keys of a fold from the empty dictionary, for every category. */
  lemma FoldFacts(s: seq<Transaction>)
    ensures forall c :: Lookup(Fold([], s), c) == Total(OfCategory(s, c))
    ensures forall c :: c in Keys(Fold([], s)) <==> exists t :: t in s && t.category == c
  {
    forall c ensures Lookup(Fold([], s), c) == Total(OfCategory(s, c)) {
      FoldLookup([], s, c);
    }
    forall c ensures c in Keys(Fold([], s)) <==> exists t :: t in s && t.category == c {
      FoldKeys([], s, c);
    }
  }

  /** The values add up to the summary's total expense. */
  lemma ExpenseSumIsTotalExpense(txs: seq<Transaction>)
    ensures SumTotals(ExpensesByCategory(txs)) == Summary(txs).totalExpense
  {
  }

  datatype ChartRow = ChartRow(name: Category, value: real)

  function RowValue(r: ChartRow): real
  {
    r.value
  }

  /** `Object.entries(expenseData).map(([name, value]) => ({name, value}))`. */
  function EntryRows(d: Totals): (rows: seq<ChartRow>)
    ensures |rows| == |d|
    ensures forall i :: 0 <= i < |d| ==> rows[i] == ChartRow(d[i].category, d[i].total)
  {
    if d == [] then [] else [ChartRow(d[0].category, d[0].total)] + EntryRows(d[1..])
  }

  /**
   * `chartData`: the rows, as a permutation, sorted by value, largest first
   * (ties in key order: ChartStable).
   */
  function ChartData(d: Totals): (rows: seq<ChartRow>)
    ensures multiset(rows) == multiset(EntryRows(d)) && |rows| == |d|
    ensures NonIncreasing(rows, RowValue)
  {
    SortDesc(EntryRows(d), RowValue)
  }

  lemma {:induction false} KeysAt(d: Totals, i: nat)
    requires i < |d|
    ensures |Keys(d)| == |d| && Keys(d)[i] == d[i].category
  {
    if i > 0 {
      KeysAt(d[1..], i - 1);
    } else if |d| > 1 {
      KeysAt(d[1..], 0);
    }
  }

  lemma {:induction false} DistinctLookup(d: Totals, i: nat)
    requires i < |d| && Distinct(Keys(d))
    ensures Lookup(d, d[i].category) == d[i].total
  {
    if i > 0 {
      KeysAt(d, 0);
      KeysAt(d, i);
      assert Keys(d)[0] != Keys(d)[i];
      assert Keys(d[1..]) == Keys(d)[1..];
      assert Distinct(Keys(d[1..]));
      DistinctLookup(d[1..], i - 1);
    }
  }

  /**
   * `chartData` has one row per key of the expense dictionary, carrying that
   * key's value, and no other rows.
   */
  lemma ChartRowsAreEntries(txs: seq<Transaction>)
    ensures |ChartData(ExpensesByCategory(txs))| == |ExpensesByCategory(txs)|
    ensures forall r :: r in ChartData(ExpensesByCategory(txs)) ==>
      r.name in Keys(ExpensesByCategory(txs)) && r.value == Lookup(ExpensesByCategory(txs), r.name)
    ensures forall c :: c in Keys(ExpensesByCategory(txs)) ==>
      ChartRow(c, Lookup(ExpensesByCategory(txs), c)) in ChartData(ExpensesByCategory(txs))
  {
    var d := ExpensesByCategory(txs);
    var rows := ChartData(d);
    forall r | r in rows ensures r.name in Keys(d) && r.value == Lookup(d, r.name) {
      assert r in multiset(EntryRows(d));
      var i :| 0 <= i < |EntryRows(d)| && EntryRows(d)[i] == r;
      KeysAt(d, i);
      DistinctLookup(d, i);
    }
    forall c | c in Keys(d) ensures ChartRow(c, Lookup(d, c)) in rows {
      KeysAt(d, 0);
      var i :| 0 <= i < |Keys(d)| && Keys(d)[i] == c;
      KeysAt(d, i);
      DistinctLookup(d, i);
      assert EntryRows(d)[i] == ChartRow(c, Lookup(d, c));
      assert ChartRow(c, Lookup(d, c)) in multiset(EntryRows(d));
    }
  }

  /** Rows with equal values stay in the order their keys were first met. */
  lemma ChartStable(d: Totals, v: real)
    ensures WithKey(ChartData(d), RowValue, v) == WithKey(EntryRows(d), RowValue, v)
  {
    SortDescStable(EntryRows(d), RowValue, v);
  }

  /** `chartData` is empty iff there is no EXPENSE transaction. */
  lemma ChartEmptyIff(txs: seq<Transaction>)
    ensures ChartData(ExpensesByCategory(txs)) == [] <==> forall t :: t in txs ==> t.kind != EXPENSE
  {
    var e := OfType(txs, EXPENSE);
    OfTypeEmpty(txs, EXPENSE);
    if e != [] {
      assert e[0] in e;
      assert e[0].category in Keys(ExpensesByCategory(txs));
    }
  }

  datatype AnalyticsView = Placeholder | PieChart(rows: seq<ChartRow>, colors: seq<string>)

  /** The colour of each chart cell: `CATEGORY_COLORS[entry.name] || '#94a3b8'`. */
  function CellColors(rows: seq<ChartRow>): (colors: seq<string>)
    ensures |colors| == |rows|
    ensures forall i :: 0 <= i < |rows| ==> colors[i] == ColorFor(rows[i].name)
  {
    if rows == [] then [] else [ColorFor(rows[0].name)] + CellColors(rows[1..])
  }

  /** What the Analytics panel shows: the placeholder when there is nothing to chart. */
  function AnalyticsViewOf(txs: seq<Transaction>): (v: AnalyticsView)
    ensures v == Placeholder <==> forall t :: t in txs ==> t.kind != EXPENSE
    ensures v.PieChart? ==> v.rows == ChartData(ExpensesByCategory(txs))
  {
    var rows := ChartData(ExpensesByCategory(txs));
    ChartEmptyIff(txs);
    if |rows| == 0 then Placeholder else PieChart(rows, CellColors(rows))
  }

  /** The end-to-end example: an expense of 50 on Food, then an income of 1000. */
  lemma ExampleBreakdown()
    ensures var txs := [
      Transaction("b", INCOME, Salary, 1000.0, USD, 2, "Salary"),
      Transaction("a", EXPENSE, Food, 50.0, USD, 1, "Food")];
      Summary(txs) == SummaryData(1000.0, 50.0, 950.0, "$") &&
      ExpensesByCategory(txs) == [Entry(Food, 50.0)]
  {
  }
}

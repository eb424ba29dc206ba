/**
 * The transaction store (newest first) and the summary derived from it.
 */
module App {
  import opened Types
  import opened Constants

  /** `transactions.filter(t => t.type === kind)`. */
  function OfType(s: seq<Transaction>, kind: TransactionType): (r: seq<Transaction>)
    ensures forall t :: t in r <==> t in s && t.kind == kind
    ensures |r| <= |s|
  {
    if s == [] then []
    else (if s[0].kind == kind then [s[0]] else []) + OfType(s[1..], kind)
  }

  /** The sum of the amounts in `s`: the reference definition of a total. */
  function Total(s: seq<Transaction>): real
  {
    if s == [] then 0.0 else s[0].amount + Total(s[1..])
  }

  /**
   * `s.reduce((sum, t) => sum + t.amount, acc)`: a left fold, which comes to
   * `acc` plus the reference sum.
   */
  function Reduce(s: seq<Transaction>, acc: real): (r: real)
    ensures r == acc + Total(s)
  {
    if s == [] then acc else Reduce(s[1..], acc + s[0].amount)
  }

  lemma {:induction false} TotalAppend(a: seq<Transaction>, b: seq<Transaction>)
    ensures Total(a + b) == Total(a) + Total(b)
  {
    if a == [] {
      assert a + b == b;
    } else {
      assert (a + b)[1..] == a[1..] + b;
      TotalAppend(a[1..], b);
    }
  }

  /** The filter-then-reduce total of one kind, as the summary computes it. */
  function TypeTotal(s: seq<Transaction>, kind: TransactionType): (r: real)
    ensures r == Total(OfType(s, kind))
  {
    Reduce(OfType(s, kind), 0.0)
  }

  /** The `summary` memo. */
  function Summary(s: seq<Transaction>): (r: SummaryData)
    ensures r.totalIncome == Total(OfType(s, INCOME))
    ensures r.totalExpense == Total(OfType(s, EXPENSE))
    ensures r.netSavings == r.totalIncome - r.totalExpense
    ensures |s| == 0 ==> r.currencySymbol == "$"
    ensures |s| > 0 ==> s[0].currency in CurrencySymbols && r.currencySymbol == CurrencySymbols[s[0].currency]
  {
    var income := TypeTotal(s, INCOME);
    var expense := TypeTotal(s, EXPENSE);
    var latestCurrency := if |s| > 0 then s[0].currency else USD;
    SummaryData(income, expense, income - expense, SymbolFor(latestCurrency))
  }

  /** A total of a kind that does not occur is zero. */
  lemma {:induction false} AbsentKindTotalsZero(s: seq<Transaction>, kind: TransactionType)
    requires forall t :: t in s ==> t.kind != kind
    ensures Total(OfType(s, kind)) == 0.0
  {
    if s != [] {
      assert s[0] in s;
      AbsentKindTotalsZero(s[1..], kind);
    }
  }

  /** The filter is empty iff no transaction has the type. */
  lemma {:induction false} OfTypeEmpty(s: seq<Transaction>, kind: TransactionType)
    ensures OfType(s, kind) == [] <==> forall t :: t in s ==> t.kind != kind
  {
    if OfType(s, kind) != [] {
      assert OfType(s, kind)[0] in OfType(s, kind);
    }
  }

  /** Every transaction is counted in exactly one of the two totals. */
  lemma {:induction false} TotalsPartition(s: seq<Transaction>)
    ensures Summary(s).totalIncome + Summary(s).totalExpense == Total(s)
  {
    if s != [] {
      TotalsPartition(s[1..]);
      OfTypeCons(s[0], s[1..], INCOME);
      OfTypeCons(s[0], s[1..], EXPENSE);
      assert [s[0]] + s[1..] == s;
    }
  }

  /** Prepending one transaction adds its amount to the total of its own kind. */
  lemma OfTypeCons(t: Transaction, s: seq<Transaction>, kind: TransactionType)
    ensures Total(OfType([t] + s, kind)) == Total(OfType(s, kind)) + (if t.kind == kind then t.amount else 0.0)
  {
    assert ([t] + s)[1..] == s;
    TotalAppend(if t.kind == kind then [t] else [], OfType(s, kind));
  }

  /** No transactions: both totals and the net are zero, and the symbol is "$". */
  lemma EmptySummary()
    ensures Summary([]) == SummaryData(0.0, 0.0, 0.0, "$")
  {
  }

  /**
   * Prepending `t` raises the total of its own kind by its amount, leaves the
   * other total alone and makes the symbol follow its currency.
   */
  lemma SummaryAfterAdd(t: Transaction, s: seq<Transaction>)
    ensures Summary([t] + s).totalIncome == Summary(s).totalIncome + (if t.kind == INCOME then t.amount else 0.0)
    ensures Summary([t] + s).totalExpense == Summary(s).totalExpense + (if t.kind == EXPENSE then t.amount else 0.0)
    ensures Summary([t] + s).currencySymbol == CurrencySymbols[t.currency]
  {
    OfTypeCons(t, s, INCOME);
    OfTypeCons(t, s, EXPENSE);
  }

  /** `{...newTx, id}`: the form's fields, unchanged, under the new id. */
  function WithId(n: NewTransaction, id: string): (t: Transaction)
    ensures t.id == id
    ensures t.kind == n.kind && t.category == n.category && t.amount == n.amount
    ensures t.currency == n.currency && t.date == n.date && t.description == n.description
  {
    Transaction(id, n.kind, n.category, n.amount, n.currency, n.date, n.description)
  }

  /** `prev.filter(t => t.id !== id)`. */
  function WithoutId(s: seq<Transaction>, id: string): (r: seq<Transaction>)
    ensures forall t :: t in r <==> t in s && t.id != id
    ensures |r| <= |s|
  {
    if s == [] then []
    else (if s[0].id != id then [s[0]] else []) + WithoutId(s[1..], id)
  }

  /** Deleting an id that no transaction carries changes nothing. */
  lemma {:induction false} DeleteAbsent(s: seq<Transaction>, id: string)
    requires forall t :: t in s ==> t.id != id
    ensures WithoutId(s, id) == s
  {
    if s != [] {
      assert s[0] in s;
      DeleteAbsent(s[1..], id);
      assert s == [s[0]] + s[1..];
    }
  }

  /** Deleting the same id twice is deleting it once. */
  lemma DeleteIdempotent(s: seq<Transaction>, id: string)
    ensures WithoutId(WithoutId(s, id), id) == WithoutId(s, id)
  {
    DeleteAbsent(WithoutId(s, id), id);
  }

  /** Deletion works piecewise, so the survivors keep their relative order. */
  lemma {:induction false} DeleteDistributes(a: seq<Transaction>, b: seq<Transaction>, id: string)
    ensures WithoutId(a + b, id) == WithoutId(a, id) + WithoutId(b, id)
  {
    if a == [] {
      assert a + b == b;
    } else {
      assert (a + b)[1..] == a[1..] + b;
      DeleteDistributes(a[1..], b, id);
    }
  }

  /** Deleting a freshly added transaction by its id undoes the add. */
  lemma DeleteUndoesAdd(n: NewTransaction, id: string, s: seq<Transaction>)
    requires forall t :: t in s ==> t.id != id
    ensures WithoutId([WithId(n, id)] + s, id) == s
  {
    DeleteAbsent(s, id);
    assert ([WithId(n, id)] + s)[1..] == s;
  }

  /**
   * The store: the `transactions` state of the application, replaced as a
   * whole by add, delete and reset.
   */
  class TransactionStore {
    var transactions: seq<Transaction>

    /** Start from the saved list, or from the empty list when nothing is saved. */
    constructor (saved: Option<seq<Transaction>>)
      ensures transactions == (if saved.Some? then saved.value else [])
    {
      transactions := if saved.Some? then saved.value else [];
    }

    /** `addTransaction`: attach the id and put the transaction first. */
    method Add(n: NewTransaction, id: string)
      modifies this
      ensures transactions == [WithId(n, id)] + old(transactions)
      ensures |transactions| == |old(transactions)| + 1 && transactions[1..] == old(transactions)
    {
      transactions := [WithId(n, id)] + transactions;
    }

    /** `deleteTransaction`: keep every transaction whose id differs. */
    method Delete(id: string)
      modifies this
      ensures transactions == WithoutId(old(transactions), id)
    {
      transactions := WithoutId(transactions, id);
    }

    /** The Reset Data button, once the user confirms. */
    method Reset()
      modifies this
      ensures transactions == []
      ensures Summary(transactions) == SummaryData(0.0, 0.0, 0.0, "$")
    {
      transactions := [];
      EmptySummary();
    }
  }
}

/**
 * The transaction list: a copy of the transactions sorted by date, newest
 * first, one row per transaction.
 */
module TransactionList {
  import opened Types
  import opened Constants
  import opened Sorting
  import opened App

  /** The sort key `new Date(t.date).getTime()`. */
  function DateKey(t: Transaction): real
  {
    t.date as real
  }

  /**
   * `[...transactions].sort((a, b) => date(b) - date(a))`: the same
   * transactions, newest date first. Being a value, the input is untouched.
   */
  function SortedByDate(txs: seq<Transaction>): (r: seq<Transaction>)
    ensures multiset(r) == multiset(txs)
    ensures NonIncreasing(r, DateKey)
  {
    SortDesc(txs, DateKey)
  }

  /** Transactions of the same date keep their newest-first list order. */
  lemma SortedByDateStable(txs: seq<Transaction>, date: real)
    ensures WithKey(SortedByDate(txs), DateKey, date) == WithKey(txs, DateKey, date)
  {
    SortDescStable(txs, DateKey, date);
  }

  datatype Row = Row(
    colour: string,
    sign: char,
    symbol: string,
    description: string,
    amount: real,
    category: Category,
    date: int,
    deleteId: string)

  /** One row: colour badge, sign, symbol, amount, and the delete button's id. */
  function RowFor(t: Transaction): (r: Row)
    ensures r.sign == '+' <==> t.kind == INCOME
    ensures r.sign == '-' <==> t.kind == EXPENSE
    ensures t.currency in CurrencySymbols && r.symbol == CurrencySymbols[t.currency]
    ensures r.colour == (if t.category in CategoryColors then CategoryColors[t.category] else FallbackColor)
    ensures r.deleteId == t.id
  {
    SymbolTableTotal(t.currency);
    Row(
      ColorFor(t.category),
      if t.kind == INCOME then '+' else '-',
      CurrencySymbols[t.currency],
      t.description,
      t.amount,
      t.category,
      t.date,
      t.id)
  }

  function RowsFor(s: seq<Transaction>): (rows: seq<Row>)
    ensures |rows| == |s|
    ensures forall i :: 0 <= i < |s| ==> rows[i] == RowFor(s[i])
  {
    if s == [] then [] else [RowFor(s[0])] + RowsFor(s[1..])
  }

  datatype ListBody = NoTransactions | Rows(rows: seq<Row>)

  datatype ListView = ListView(headerCount: nat, body: ListBody)

  /** The rendered list: the "N Total" header and either the placeholder or the rows. */
  function ListViewOf(txs: seq<Transaction>): (v: ListView)
    ensures v.headerCount == |txs|
    ensures v.body == NoTransactions <==> txs == []
    ensures v.body.Rows? ==> v.body.rows == RowsFor(SortedByDate(txs)) && |v.body.rows| == |txs|
  {
    var sorted := SortedByDate(txs);
    if |sorted| == 0 then ListView(|txs|, NoTransactions)
    else ListView(|txs|, Rows(RowsFor(sorted)))
  }

  /**
   * Every row stands for one transaction of the list, and its delete button
   * removes exactly that transaction.
   */
  lemma DeleteFromRow(txs: seq<Transaction>, i: nat)
    requires ListViewOf(txs).body.Rows? && i < |ListViewOf(txs).body.rows|
    ensures var id := ListViewOf(txs).body.rows[i].deleteId;
      (exists t :: t in txs && t.id == id) &&
      (forall t :: t in WithoutId(txs, id) ==> t.id != id) &&
      |WithoutId(txs, id)| < |txs|
  {
    var sorted := SortedByDate(txs);
    var t := sorted[i];
    assert t in multiset(sorted);
    assert t in txs;
    var id := t.id;
    assert ListViewOf(txs).body.rows[i] == RowFor(t);
    WithoutIdShrinks(txs, t);
  }

  lemma {:induction false} WithoutIdShrinks(s: seq<Transaction>, t: Transaction)
    requires t in s
    ensures |WithoutId(s, t.id)| < |s|
  {
    if s[0] != t {
      WithoutIdShrinks(s[1..], t);
    } else {
      assert |WithoutId(s[1..], t.id)| <= |s[1..]|;
    }
  }
}

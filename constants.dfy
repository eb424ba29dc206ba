/**
 * The fixed tables: category lists, currency list, currency symbols and
 * category colours, with the fallbacks their lookups use.
 */
module Constants {
  import opened Types

  predicate Distinct<T(==)>(s: seq<T>)
  {
    forall i, j :: 0 <= i < j < |s| ==> s[i] != s[j]
  }

  const Categories: seq<Category> := [
    Housing, Transportation, Food, Utilities, Insurance, Healthcare,
    Savings, Personal, Entertainment, Salary, Bonus, Investment, Other
  ]

  const IncomeCategories: seq<Category> := [Salary, Bonus, Investment, Other]

  const ExpenseCategories: seq<Category> := [
    Housing, Transportation, Food, Utilities, Insurance, Healthcare,
    Personal, Entertainment, Other
  ]

  datatype CurrencyInfo = CurrencyInfo(code: CurrencyCode, name: string, symbol: string)

  const Currencies: seq<CurrencyInfo> := [
    CurrencyInfo(USD, "US Dollar", "$"),
    CurrencyInfo(NGN, "Nigerian Naira", "\U{20A6}"),
    CurrencyInfo(EUR, "Euro", "\U{20AC}"),
    CurrencyInfo(GBP, "British Pound", "\U{00A3}"),
    CurrencyInfo(JPY, "Japanese Yen", "\U{00A5}")
  ]

  const CurrencySymbols: map<CurrencyCode, string> := map[
    USD := "$",
    NGN := "\U{20A6}",
    EUR := "\U{20AC}",
    GBP := "\U{00A3}",
    JPY := "\U{00A5}"
  ]

  const CategoryColors: map<Category, string> := map[
    Housing := "#6366f1",
    Transportation := "#f59e0b",
    Food := "#10b981",
    Utilities := "#06b6d4",
    Insurance := "#8b5cf6",
    Healthcare := "#ef4444",
    Personal := "#ec4899",
    Entertainment := "#f97316",
    Other := "#94a3b8"
  ]

  /** The colour used when a category has no entry of its own. */
  const FallbackColor: string := "#94a3b8"

  /**
   * `CURRENCY_SYMBOLS[code] || '$'`: the table entry, or "$" when the
   * lookup misses or yields the empty string. The table is total and has no
   * empty entry, so the fallback is never taken for a well-typed code.
   */
  function SymbolFor(code: CurrencyCode): (s: string)
    ensures code in CurrencySymbols && s == CurrencySymbols[code]
    ensures |s| == 1
  {
    SymbolTableTotal(code);
    if code in CurrencySymbols && CurrencySymbols[code] != "" then CurrencySymbols[code] else "$"
  }

  /** `CATEGORY_COLORS[category] || '#94a3b8'`. */
  function ColorFor(c: Category): (s: string)
    ensures c in CategoryColors ==> s == CategoryColors[c]
    ensures c !in CategoryColors ==> s == FallbackColor
  {
    if c in CategoryColors && CategoryColors[c] != "" then CategoryColors[c] else FallbackColor
  }

  /** Every category value is listed once in the full category list. */
  lemma CategoriesComplete(c: Category)
    ensures c in Categories
    ensures Distinct(Categories) && |Categories| == 13
  {
  }

  /** Both offered lists draw only from the full list, without repeats. */
  lemma OfferedListsAreSubsets(c: Category)
    ensures c in IncomeCategories ==> c in Categories
    ensures c in ExpenseCategories ==> c in Categories
    ensures Distinct(IncomeCategories) && Distinct(ExpenseCategories)
  {
  }

  /** The income and expense lists overlap in exactly one category, Other. */
  lemma OfferedListsShareOnlyOther(c: Category)
    ensures c in IncomeCategories && c in ExpenseCategories <==> c == Other
  {
  }

  /** Savings is a category but is offered on neither side of the form. */
  lemma SavingsNeverOffered()
    ensures Savings in Categories
    ensures Savings !in IncomeCategories && Savings !in ExpenseCategories
  {
  }

  /** The symbol table covers every currency code and is never blank. */
  lemma SymbolTableTotal(code: CurrencyCode)
    ensures code in CurrencySymbols && CurrencySymbols[code] != ""
  {
  }

  /**
   * The currency list agrees with the symbol table, names each code exactly
   * once, and leaves none out.
   */
  lemma CurrencyListAgrees(code: CurrencyCode)
    ensures forall i :: 0 <= i < |Currencies| ==> Currencies[i].symbol == CurrencySymbols[Currencies[i].code]
    ensures forall i, j :: 0 <= i < j < |Currencies| ==> Currencies[i].code != Currencies[j].code
    ensures exists i :: 0 <= i < |Currencies| && Currencies[i].code == code
  {
    var i := match code case USD => 0 case NGN => 1 case EUR => 2 case GBP => 3 case JPY => 4;
    assert Currencies[i].code == code;
  }

  /**
   * A colour lookup misses exactly for Salary, Bonus, Investment and Savings;
   * because Other's own colour equals the fallback, the fallback colour is
   * shown for exactly those four and Other.
   */
  lemma ColorFallbackCases(c: Category)
    ensures c !in CategoryColors <==> c in {Salary, Bonus, Investment, Savings}
    ensures ColorFor(c) == FallbackColor <==> c in {Salary, Bonus, Investment, Savings, Other}
  {
  }
}

/**
 * The value types of SmartSpend: transactions, their closed enumerations,
 * the derived summary and the advisory tips.
 */
module Types {

  datatype Option<+T> = None | Some(value: T)

  /** The two kinds of transaction; the sign of an amount is implied by it. */
  datatype TransactionType = INCOME | EXPENSE

  /** The closed set of supported currency codes. */
  datatype CurrencyCode = NGN | USD | EUR | GBP | JPY

  /** The closed set of thirteen category names. */
  datatype Category =
    | Housing | Transportation | Food | Utilities | Insurance | Healthcare
    | Savings | Personal | Entertainment | Salary | Bonus | Investment | Other

  /**
   * A stored transaction. `date` is the time value of the entered calendar
   * date (what `new Date(date).getTime()` yields), used only as a sort key.
   * `amount` is unconstrained here: positivity is enforced only by the form.
   */
  datatype Transaction = Transaction(
    id: string,
    kind: TransactionType,
    category: Category,
    amount: real,
    currency: CurrencyCode,
    date: int,
    description: string)

  /** A transaction as the form hands it over, before an id is attached. */
  datatype NewTransaction = NewTransaction(
    kind: TransactionType,
    category: Category,
    currency: CurrencyCode,
    amount: real,
    description: string,
    date: int)

  datatype SummaryData = SummaryData(
    totalIncome: real,
    totalExpense: real,
    netSavings: real,
    currencySymbol: string)

  datatype Impact = High | Medium | Low

  datatype SavingsTip = SavingsTip(title: string, content: string, impact: Impact)

  /** The string value of a TransactionType member, as it is rendered. */
  function TypeName(k: TransactionType): (s: string)
    ensures s == "INCOME" <==> k == INCOME
    ensures s == "EXPENSE" <==> k == EXPENSE
  {
    match k
    case INCOME => "INCOME"
    case EXPENSE => "EXPENSE"
  }

  /**
   * The category's name, as used for display, descriptions and JSON keys.
   * No name is empty, so `description || category` never yields "".
   */
  function CategoryName(c: Category): (s: string)
    ensures |s| > 0
  {
    match c
    case Housing => "Housing"
    case Transportation => "Transportation"
    case Food => "Food"
    case Utilities => "Utilities"
    case Insurance => "Insurance"
    case Healthcare => "Healthcare"
    case Savings => "Savings"
    case Personal => "Personal"
    case Entertainment => "Entertainment"
    case Salary => "Salary"
    case Bonus => "Bonus"
    case Investment => "Investment"
    case Other => "Other"
  }

  function ImpactName(i: Impact): string
  {
    match i
    case High => "High"
    case Medium => "Medium"
    case Low => "Low"
  }

  /** Distinct categories have distinct names, so names can serve as keys. */
  lemma CategoryNamesDistinct(c1: Category, c2: Category)
    requires c1 != c2
    ensures CategoryName(c1) != CategoryName(c2)
  {
  }

}

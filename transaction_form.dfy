/**
 * The new-transaction form: six pieces of state, the type toggle, the
 * category choice and the submit guard.
 *
 * `parseFloat` is the parameter `parseAmount`; the browser's number input
 * only ever hands over a numeric string or "".
 */
module TransactionForm {
  import opened Types
  import opened Constants

  /** `categories`: the list the category select offers for a type. */
  function OfferedCategories(kind: TransactionType): (cs: seq<Category>)
    ensures kind == INCOME ==> cs == IncomeCategories
    ensures kind == EXPENSE ==> cs == ExpenseCategories
  {
    if kind == INCOME then IncomeCategories else ExpenseCategories
  }

  /** The categories each toggle selects are offered for the type it selects. */
  lemma ToggleDefaultsOffered()
    ensures Food in OfferedCategories(EXPENSE)
    ensures Salary in OfferedCategories(INCOME)
    ensures Food !in OfferedCategories(INCOME) && Salary !in OfferedCategories(EXPENSE)
  {
  }

  /**
   * The submit guard `!amount || parseFloat(amount) <= 0`: only a non-empty
   * amount that parses to a positive number gets through.
   */
  predicate Rejects(amount: string, parsed: real): (rejected: bool)
    ensures !rejected <==> |amount| > 0 && parsed > 0.0
  {
    amount == "" || parsed <= 0.0
  }

  class FormState {
    var kind: TransactionType
    var category: Category
    var currency: CurrencyCode
    var amount: string
    var description: string
    var date: int

    /** The selected category is one the select currently offers. */
    predicate Valid()
      reads this
    {
      category in OfferedCategories(kind)
    }

    /** A fresh form: an expense of category Food in USD, dated today. */
    constructor (today: int)
      ensures Valid()
      ensures kind == EXPENSE && category == Food && currency == USD
      ensures amount == "" && description == "" && date == today
    {
      kind := EXPENSE;
      category := Food;
      currency := USD;
      amount := "";
      description := "";
      date := today;
    }

    /** The Expense toggle: type EXPENSE and category reset to Food. */
    method ChooseExpense()
      modifies this
      ensures Valid()
      ensures kind == EXPENSE && category == Food
      ensures currency == old(currency) && amount == old(amount)
      ensures description == old(description) && date == old(date)
    {
      kind := EXPENSE;
      category := Food;
    }

    /** The Income toggle: type INCOME and category reset to Salary. */
    method ChooseIncome()
      modifies this
      ensures Valid()
      ensures kind == INCOME && category == Salary
      ensures currency == old(currency) && amount == old(amount)
      ensures description == old(description) && date == old(date)
    {
      kind := INCOME;
      category := Salary;
    }

    /** The category select; it only offers the current type's list. */
    method ChooseCategory(c: Category)
      requires c in OfferedCategories(kind)
      modifies this
      ensures Valid()
      ensures category == c
      ensures kind == old(kind) && currency == old(currency) && amount == old(amount)
      ensures description == old(description) && date == old(date)
    {
      category := c;
    }

    method ChooseCurrency(c: CurrencyCode)
      modifies this
      ensures currency == c
      ensures kind == old(kind) && category == old(category) && amount == old(amount)
      ensures description == old(description) && date == old(date)
    {
      currency := c;
    }

    method EnterAmount(text: string)
      modifies this
      ensures amount == text
      ensures kind == old(kind) && category == old(category) && currency == old(currency)
      ensures description == old(description) && date == old(date)
    {
      amount := text;
    }

    method EnterDescription(text: string)
      modifies this
      ensures description == text
      ensures kind == old(kind) && category == old(category) && currency == old(currency)
      ensures amount == old(amount) && date == old(date)
    {
      description := text;
    }

    method ChooseDate(d: int)
      modifies this
      ensures date == d
      ensures kind == old(kind) && category == old(category) && currency == old(currency)
      ensures amount == old(amount) && description == old(description)
    {
      date := d;
    }

    /**
     * `handleSubmit`: when the guard rejects, nothing is handed over and
     * nothing changes; otherwise the payload is handed over once (`Some`)
     * and only the amount and description are cleared.
     */
    method Submit(parseAmount: string -> real) returns (payload: Option<NewTransaction>)
      requires Valid()
      modifies this
      ensures Valid()
      ensures Rejects(old(amount), parseAmount(old(amount))) ==> payload == None && unchanged(this)
      ensures !Rejects(old(amount), parseAmount(old(amount))) ==>
        payload == Some(NewTransaction(
          old(kind), old(category), old(currency), parseAmount(old(amount)),
          if old(description) == "" then CategoryName(old(category)) else old(description),
          old(date)))
      ensures !Rejects(old(amount), parseAmount(old(amount))) ==>
        amount == "" && description == "" &&
        kind == old(kind) && category == old(category) && currency == old(currency) && date == old(date)
      ensures payload.Some? ==>
        payload.value.amount > 0.0 && payload.value.description != "" &&
        payload.value.category in OfferedCategories(payload.value.kind)
    {
      if amount == "" || parseAmount(amount) <= 0.0 {
        return None;
      }
      payload := Some(NewTransaction(
        kind, category, currency, parseAmount(amount),
        if description == "" then CategoryName(category) else description,
        date));
      amount := "";
      description := "";
    }
  }
}

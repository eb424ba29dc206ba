# SmartSpend, modelled in Dafny

SmartSpend is a small personal-finance tracker. It keeps a list of income and
expense transactions, newest first, and derives several things from it:

- a summary with total income, total expense, net savings and a currency symbol;
- a per-category expense breakdown, drawn as a pie chart;
- a transaction list sorted by date;
- a panel of savings tips, which it asks a generative-text service for.

This project models that logic and proves what the code promises about it.

The model has one Dafny module per source file:

| module | file | models |
|---|---|---|
| `Types` | `types.dfy` | the closed enumerations and records |
| `Constants` | `constants.dfy` | the category lists, the currency list and the two lookup tables, with the fallbacks their lookups use |
| `App` | `app.dfy` | the store as a class with a `seq` field changed by `Add`, `Delete` and `Reset`, and the `summary` as a function, proved against a head-recursive reference sum `Total` |
| `Analytics` | `analytics.dfy` | the dictionary fold, as a loop (`BuildExpenseData`) specified by a function (`ExpensesByCategory`), and the chart rows |
| `Sorting` | `sorting.dfy` | a stable descending insertion sort, used by the chart and by the transaction list |
| `GeminiService` | `gemini_service.dfy` | the prompt, the request and the choice of result |
| `TransactionForm` | `transaction_form.dfy` | the form's six pieces of state as a class |
| `SavingsTips` | `savings_tips.dfy` | the advisor panel's state, its fetch rule and its four views |
| `TransactionList` | `transaction_list.dfy` | the sorted copy and the per-row rules |

The model makes these representation choices:

- Amounts are `real`. A date is an `int`: the time value that the list sorts by.
- A JavaScript object used as a dictionary is an association list. New keys are added at the end, so `Object.entries` order is kept.
- The parts of the program that Dafny cannot see are parameters:
  - the generative-text service is `service: Request -> ServiceReply`;
  - `JSON.parse` of its text is `parse`, which returns `None` where the parse throws;
  - number-to-text conversion is `numStr`;
  - `parseFloat` is `parseAmount`.

The proofs establish the following:

- The two summary totals are filter-then-sum, and together they account for every transaction.
- After an add, an undo or a reset, the summary is known exactly.
- Deleting is order-preserving, idempotent, and a no-op for an absent id.
- The breakdown holds, for each category, the sum of its expenses. Its keys are exactly the categories that have an expense, each appears once, and the values add up to the summary's total expense.
- The chart rows are a permutation of the dictionary's entries, sorted largest first, with ties kept in key order.
- The advisor panel takes the service's answer verbatim. It takes the fallback tip on any failure, and it shows the error text only after an empty answer.
- The form never hands over a non-positive amount or a category it does not offer.

One property is stated because the code does not obviously have it. The fetch rule looks only at the list's length. Take a panel that had seen one transaction and still shows tips. If the list is emptied and one different transaction is added back, the panel does not fetch, and the old tips stay on screen (`SavingsTips.RefillToSameLengthKeepsTips`).

The expense breakdown is computed twice in the source, by identical code in components/Analytics.tsx:13-18 and services/geminiService.ts:8-13. Both are modelled by the one function `Analytics.ExpensesByCategory`. So the prompt's breakdown agrees with the chart by construction, and `GeminiService.RequestFor` states that agreement.

The code's `|| '$'` and `|| '#94a3b8'` fallbacks are modelled as they are written. For the symbol table, a lemma shows that the fallback can never be reached with a well-typed currency code (`Constants.SymbolTableTotal`).

## Model

| member | source | states |
|---|---|---|
| Types.TypeName | types.ts:2-5 | the enum's string values: "INCOME" exactly for INCOME, "EXPENSE" exactly for EXPENSE |
| Types.CategoryNamesDistinct | types.ts:9-22 | the thirteen category names are pairwise different, so names can serve as dictionary keys |
| Types.CategoryName | types.ts:9-22 | every category has a non-empty name, so `description \|\| category` (components/TransactionForm.tsx:27) never yields "" |
| Constants.SymbolFor | constants.tsx:34-40 | `CURRENCY_SYMBOLS[code] \|\| '$'` returns the table's entry for every code, a single character |
| Constants.ColorFor | constants.tsx:42-52 | the category's colour when the table has it, else the fallback '#94a3b8' |
| Constants.CategoriesComplete | constants.tsx:5-19 | every category value is in `CATEGORIES`, which has 13 entries without repeats |
| Constants.OfferedListsAreSubsets | constants.tsx:5-24 | the income and expense lists are repeat-free sublists of `CATEGORIES` |
| Constants.OfferedListsShareOnlyOther | constants.tsx:21-24 | a category is on both offered lists iff it is Other |
| Constants.SavingsNeverOffered | constants.tsx:12-24 | Savings is a category that neither offered list contains |
| Constants.SymbolTableTotal | constants.tsx:34-40 | the symbol table has a non-empty entry for each of the five codes |
| Constants.CurrencyListAgrees | constants.tsx:26-40 | every `CURRENCIES` entry's symbol is the table's symbol for its code; each code is listed exactly once |
| Constants.ColorFallbackCases | constants.tsx:42-52 | the colour table misses exactly Salary, Bonus, Investment and Savings; the fallback colour is shown for those four and Other |
| App.OfType | App.tsx:25 | the filter keeps exactly the transactions of the given type |
| App.Reduce | App.tsx:26 | the left-fold `reduce` from `acc` comes to `acc` plus the reference sum |
| App.TotalAppend | App.tsx:24-29 | the sum over a concatenation is the sum of the parts' sums |
| App.TypeTotal | App.tsx:24-29 | the filter-then-reduce total of one type is the reference sum of that type's amounts |
| App.Summary | App.tsx:23-41 | income and expense are the sums of each type's amounts; net is their difference; the symbol is the head's currency symbol, or "$" for the empty list |
| App.AbsentKindTotalsZero | App.tsx:24-29 | a type with no transactions totals 0 |
| App.OfTypeEmpty | App.tsx:25 | the filter is empty iff no transaction has the type |
| App.TotalsPartition | App.tsx:23-41 | total income plus total expense is the sum of all amounts |
| App.WithId | App.tsx:44-47 | the new transaction carries the given id and every field of the form's payload unchanged |
| App.OfTypeCons | App.tsx:24-29 | prepending a transaction adds its amount to its own type's total only |
| App.EmptySummary | App.tsx:32-40 | the empty list's summary is (0, 0, 0, "$") |
| App.SummaryAfterAdd | App.tsx:23-48 | after an add, the new transaction's type total rises by its amount, the other total is unchanged, and the symbol follows its currency |
| App.WithoutId | App.tsx:52 | the filter keeps exactly the transactions whose id differs |
| App.DeleteAbsent | App.tsx:51-53 | deleting an id nobody carries leaves the list unchanged |
| App.DeleteIdempotent | App.tsx:51-53 | deleting the same id twice is the same as deleting it once |
| App.DeleteDistributes | App.tsx:51-53 | deletion works piecewise over a concatenation, so survivors keep their order |
| App.DeleteUndoesAdd | App.tsx:43-53 | deleting a freshly added transaction's id (unused before) restores the list |
| App.TransactionStore.constructor | App.tsx:14-17 | the store starts from the saved list, or empty when nothing is saved |
| App.TransactionStore.Add | App.tsx:43-49 | the new list is the transaction with its id, followed by the old list unchanged |
| App.TransactionStore.Delete | App.tsx:51-53 | the new list is the old one without the id's transactions |
| App.TransactionStore.Reset | App.tsx:74 | the list becomes empty and the summary becomes (0, 0, 0, "$") |
| Analytics.Accumulate | components/Analytics.tsx:16 | `acc[c] = (acc[c] \|\| 0) + amount` adds an entry exactly when `c` is not yet a key |
| Analytics.AccumulateLookup | components/Analytics.tsx:16 | only the value under `c` changes, and it grows by the amount |
| Analytics.DistinctCons | components/Analytics.tsx:13-18 | a key list with a new head is repeat-free iff the head is new and the rest is repeat-free |
| Analytics.Lookup | components/Analytics.tsx:16 | `acc[c] \|\| 0` reads 0 for a category that is not a key |
| Analytics.AccumulateKeys | components/Analytics.tsx:16 | the keys afterwards are the old keys plus `c`, still without repeats |
| Analytics.AccumulateSum | components/Analytics.tsx:16 | the values' sum grows by the amount |
| Analytics.BuildExpenseData | components/Analytics.tsx:13-18 | the in-place `reduce` loop yields exactly the fold over the EXPENSE transactions |
| Analytics.FoldLookup | components/Analytics.tsx:13-18 | after the fold, the value under `c` is the old value plus the sum of the category's amounts |
| Analytics.FoldKeys | components/Analytics.tsx:13-18 | after the fold, `c` is a key iff it was one or some folded transaction has category `c` |
| Analytics.FoldFacts | components/Analytics.tsx:13-18 | from the empty dictionary, every category's value is its transactions' sum and its key is present iff some folded transaction has it |
| Analytics.Fold | components/Analytics.tsx:15-18 | the `reduce` from accumulator `d` adds the folded amounts to the values' sum and keeps the keys repeat-free |
| Analytics.ExpensesByCategory | components/Analytics.tsx:13-18 | `expenseData`: each category's value is the sum of its EXPENSE amounts (the independent `CategoryExpense`); a category is a key iff some EXPENSE transaction has it, so INCOME adds none; keys occur once; the values add up to the EXPENSE total. The same function models the identical fold at services/geminiService.ts:8-13 |
| Analytics.ExpenseSumIsTotalExpense | components/Analytics.tsx:13-18 | the values add up to the summary's total expense (App.tsx:27-29) |
| Analytics.EntryRows | components/Analytics.tsx:20-22 | one row per dictionary entry, in entry order, carrying its name and value |
| Analytics.KeysAt | components/Analytics.tsx:20 | the i-th key is the i-th entry's category |
| Analytics.DistinctLookup | components/Analytics.tsx:20-22 | with repeat-free keys, looking up an entry's key gives that entry's value |
| Analytics.ChartRowsAreEntries | components/Analytics.tsx:20-23 | `chartData` has one row per key, carrying that key's value, and no other rows |
| Analytics.ChartStable | components/Analytics.tsx:23 | rows with equal values keep the dictionary's key order |
| Analytics.ChartData | components/Analytics.tsx:20-23 | `chartData` is a permutation of the entry rows, with one row per entry, ordered by value, largest first |
| Analytics.ChartEmptyIff | components/Analytics.tsx:25 | `chartData` is empty iff there is no EXPENSE transaction |
| Analytics.CellColors | components/Analytics.tsx:49-50 | each chart cell's colour is its category's colour with the '#94a3b8' fallback |
| Analytics.AnalyticsViewOf | components/Analytics.tsx:25-32 | the placeholder is shown iff there is no EXPENSE transaction; otherwise the chart shows `chartData` |
| Analytics.ExampleBreakdown | components/Analytics.tsx:13-18 | one income of 1000 and one Food expense of 50 give summary (1000, 50, 950, "$") and breakdown {Food: 50} |
| Sorting.Insert | components/Analytics.tsx:23 | inserting makes the sequence one longer |
| Sorting.InsertPermutes | components/Analytics.tsx:23 | inserting adds exactly the one element |
| Sorting.ConsOrdered | components/Analytics.tsx:23 | an element whose key bounds a sorted list can lead it |
| Sorting.InsertKeepsOrder | components/Analytics.tsx:23 | inserting into a largest-first list keeps it largest first |
| Sorting.WithKeyCons | components/Analytics.tsx:23 | the elements with key `k` of a list with a new head, in order |
| Sorting.InsertStable | components/Analytics.tsx:23 | an inserted element goes ahead of every element that shares its key |
| Sorting.SortDesc | components/Analytics.tsx:23 | the sort's result is a permutation of its input, ordered largest key first; the same sort serves components/TransactionList.tsx:12 |
| Sorting.SortDescStable | components/Analytics.tsx:23 | elements with equal keys keep their input order (a stable `Array.prototype.sort`) |
| GeminiService.TipSchema | services/geminiService.ts:43-53 | the schema requires title, content and impact, and the allowed impact values are exactly the impact names |
| GeminiService.FallbackTip | services/geminiService.ts:59-66 | the fallback tip has the fixed title "Maintain Consistency", the fixed content, and impact "Medium" |
| GeminiService.ResponseBody | services/geminiService.ts:58 | `response.text \|\| "[]"` is "[]" iff the text is absent, empty or "[]" |
| GeminiService.SelectTips | services/geminiService.ts:37-66 | a failed call gives the single fallback tip; absent or empty text gives []; otherwise the parsed array, or the fallback when the parse throws |
| GeminiService.EmptyTipsIff | services/geminiService.ts:58-66 | the result is empty iff the service answered and its text, or "[]" in its place, parsed to [] |
| GeminiService.ParsedTipsVerbatim | services/geminiService.ts:58 | a successful parse is returned unfiltered |
| GeminiService.RecentEntries | services/geminiService.ts:20 | the first min(5, n) transactions, in list order |
| GeminiService.RenderEntry | services/geminiService.ts:21 | an entry begins `TYPE: description` and ends with ")" |
| GeminiService.RenderAll | services/geminiService.ts:20-21 | each recent entry renders as `TYPE: description (symbolamount - category)` |
| GeminiService.Join | services/geminiService.ts:22 | joining no parts gives "", otherwise the result begins with the first part |
| GeminiService.JoinAppend | services/geminiService.ts:22 | joining two non-empty runs puts one separator between their joins |
| GeminiService.RecentLine | services/geminiService.ts:20-22 | the recent line is empty for no transactions, otherwise it begins with the newest transaction's entry |
| GeminiService.RecentAfterAdd | services/geminiService.ts:20 | after an add, the recent five are the new transaction and up to four older ones |
| GeminiService.RecentLineAfterAdd | services/geminiService.ts:20-22 | after an add, the recent line is the new entry, then "; " and the older four's line when there are any |
| GeminiService.JsonMembers | services/geminiService.ts:28 | `JSON.stringify` writes one `"name":value` member per dictionary entry, in entry order |
| GeminiService.ExpenseJson | services/geminiService.ts:28 | the breakdown's JSON text is braced, and is "{}" for an empty dictionary |
| GeminiService.Prompt | services/geminiService.ts:24-35 | the prompt opens by naming the active currency and ends with the fixed request for three savings tips |
| GeminiService.RequestFor | services/geminiService.ts:8-56 | the request names the model and the JSON response type, carries the declared schema, and its prompt reports the summary's total income, the Analytics breakdown of the same transactions and the recent line |
| GeminiService.TipsFor | services/geminiService.ts:37-66 | the tips `getSavingsTips` resolves to; a failed call gives the single fallback tip |
| GeminiService.GetSavingsTips | services/geminiService.ts:7-66 | the step-by-step computation resolves to the tips the service's reply selects; a failed call yields the fallback tip |
| TransactionForm.OfferedCategories | components/TransactionForm.tsx:36 | the income list for INCOME, the expense list for EXPENSE |
| TransactionForm.ToggleDefaultsOffered | components/TransactionForm.tsx:45-56 | Food is offered for EXPENSE and Salary for INCOME, and neither is offered for the other type |
| TransactionForm.Rejects | components/TransactionForm.tsx:20 | a submit gets through iff the amount text is non-empty and parses to a positive number |
| TransactionForm.FormState.constructor | components/TransactionForm.tsx:11-16 | a fresh form: EXPENSE, Food, USD, empty amount and description, today's date, with an offered category |
| TransactionForm.FormState.ChooseExpense | components/TransactionForm.tsx:45 | type EXPENSE and category Food; the other fields are unchanged; the category stays offered |
| TransactionForm.FormState.ChooseIncome | components/TransactionForm.tsx:56 | type INCOME and category Salary; the other fields are unchanged; the category stays offered |
| TransactionForm.FormState.ChooseCategory | components/TransactionForm.tsx:102-108 | the select sets one of the offered categories and nothing else |
| TransactionForm.FormState.ChooseCurrency | components/TransactionForm.tsx:72 | sets the currency and nothing else |
| TransactionForm.FormState.EnterAmount | components/TransactionForm.tsx:91 | sets the amount text and nothing else |
| TransactionForm.FormState.EnterDescription | components/TransactionForm.tsx:129 | sets the description and nothing else |
| TransactionForm.FormState.ChooseDate | components/TransactionForm.tsx:118 | sets the date and nothing else |
| TransactionForm.FormState.Submit | components/TransactionForm.tsx:18-34 | an empty amount or a parsed amount <= 0 hands over nothing and changes nothing; otherwise the current fields are handed over once, with the category as the default description, and only amount and description are cleared; a payload always has a positive amount and an offered category |
| SavingsTips.ViewFor | components/SavingsTips.tsx:62-96 | placeholder iff no transactions; otherwise spinner iff loading; otherwise tip list iff tips exist; otherwise the error text |
| SavingsTips.AnalyzeDisabled | components/SavingsTips.tsx:49 | the button is enabled iff there are transactions and nothing is loading, which is exactly when an empty tip list would show the error text |
| SavingsTips.ShouldFetch | components/SavingsTips.tsx:26-29 | no fetch for an empty list; a fetch when the length differs from the last one seen; at the same length, a fetch iff no tips are shown |
| SavingsTips.RefillToSameLengthKeepsTips | components/SavingsTips.tsx:24-34 | a panel that had seen one transaction and still shows tips does not fetch when the list is emptied or when one transaction is added back |
| SavingsTips.ErrorViewOnlyAfterEmptyAnswer | components/SavingsTips.tsx:16-22 | after a fetch, the error text is shown iff the service answered and its text parsed to [] |
| SavingsTips.TipsPanel.constructor | components/SavingsTips.tsx:12-14 | no tips, not loading, and the ref holds the current length |
| SavingsTips.TipsPanel.BeginFetch | components/SavingsTips.tsx:18 | loading is set and the spinner is shown for any non-empty list |
| SavingsTips.TipsPanel.FinishFetch | components/SavingsTips.tsx:20-21 | the tips are replaced and loading is cleared |
| SavingsTips.TipsPanel.FetchTips | components/SavingsTips.tsx:16-22 | no change at all for an empty list; otherwise the tips become the service's result, loading ends, and the ref is untouched |
| SavingsTips.TipsPanel.PressAnalyze | components/SavingsTips.tsx:47-49 | a press fetches iff the button is enabled; a disabled press changes nothing |
| SavingsTips.TipsPanel.CountChanged | components/SavingsTips.tsx:24-34 | a fetch happens iff the list is non-empty and either its length differs from the ref or no tips are shown; a fetch sets the ref to the length and the tips to the service's result; otherwise nothing changes |
| SavingsTips.InitialLoad | components/SavingsTips.tsx:29-32 | mounting with transactions present fetches once and stores the length |
| TransactionList.SortedByDate | components/TransactionList.tsx:12 | the sorted copy is a permutation of the input, newest date first |
| TransactionList.SortedByDateStable | components/TransactionList.tsx:12 | transactions of the same date keep their list order |
| TransactionList.RowFor | components/TransactionList.tsx:28-47 | the sign is '+' exactly for INCOME and '-' exactly for EXPENSE; the symbol is the currency's; the colour has the '#94a3b8' fallback; delete passes the row's id |
| TransactionList.RowsFor | components/TransactionList.tsx:27-55 | one row per transaction, in order |
| TransactionList.ListViewOf | components/TransactionList.tsx:18-55 | the header count is the list's length; the placeholder is shown iff the list is empty; otherwise the rows are exactly one row per transaction of the date-sorted copy, in that order |
| TransactionList.DeleteFromRow | components/TransactionList.tsx:47 | a row's delete button names a transaction of the list, and deleting that id removes it and shrinks the list |
| TransactionList.WithoutIdShrinks | components/TransactionList.tsx:47 | deleting the id of a listed transaction shortens the list |

## Left out

- Persistence in `localStorage` and its JSON encoding are I/O. The store's constructor takes the decoded saved list as an `Option`, and a malformed blob is not modelled.
- Id generation with `Math.random` is randomness, so the id is a parameter of `Add`. Uniqueness is not claimed.
- The generative-text client and its network call are foreign code, so the service is a parameter returning a `ServiceReply`. A rejected call is `CallFailed`, and `console.error` is omitted.
- `JSON.parse` of the reply is a parameter too. The only thing assumed of it is that it parses "[]" to the empty list.
- SelectTips, ParsedTipsVerbatim: a parse result here is always a well-formed array of tips, so replies that `JSON.parse` turns into `null`, an object, or a tip with an impact outside High/Medium/Low are not modelled. The source returns such values unchecked, and the model's "returned verbatim" covers only well-formed arrays.
- JavaScript numbers are IEEE doubles; the model uses exact `real` arithmetic. `parseFloat` is a parameter, so `NaN` never arises.
- Rendering a number as text (`${amount}`, `JSON.stringify`) is the parameter `numStr`. `toFixed` and `toLocaleString` are display formatting and are not modelled.
- Dates are the integer time value that the list sorts by. `new Date` parsing and `toLocaleDateString` are not modelled.
- Untyped stored data, for example a transaction saved without a currency, is out of scope. For typed data, the `t.currency || 'USD'` default in the list is unreachable, and `SymbolTableTotal` shows the same for the summary's `|| '$'`.
- `Object.entries` on a plain object iterates in insertion order for category names. The object's prototype keys are not modelled.
- Overlapping fetches are concurrency. Each fetch is one `BeginFetch`, call, `FinishFetch` sequence, and no other step runs in between.
- `components/Dashboard.tsx` holds only display formatting and a rounded savings rate, and it is not part of this model.
- JSX markup, styling, the chart library's rendering, the tooltip formatter and the `confirm()` dialog are UI. Reset is modelled as if the user confirmed.

# Budget tracker core in Dafny

This project models the bookkeeping core of a browser-based personal budget
tracker. It has four parts.

- **The single-page ledger (`app.js`).** The user records transactions, one
  per row, each with a name, an amount, a date, a category, a type and notes.
  An income amount is stored positive and an expense amount negative. Budgets
  carry a category, a limit, a period and a `spent` figure. `spent` is
  recomputed from the expenses of that category after every change. The page
  also shows a summary (income, expenses, balance), a filtered and sorted
  transaction list, budget progress bars coloured by how much of the limit is
  used, and statistics. The statistics are year-to-date totals, twelve monthly
  trend buckets and an average expense per category. Data can be exported to
  a document, imported back from one, and cleared.
  Modules: `Ledger` (ledger.dfy) and `LedgerStats` (ledger_stats.dfy).
- **The array-backed ledger (`js/app.js`).** A simpler page keeps
  transactions in an array. It infers the type from the category, validates
  the form, filters into a copy (and sorts the stored array in place when the
  filter is "all"), and converts amounts between five
  currencies with fixed rates. Module `ArrayLedger` (array_ledger.dfy).
- **`BudgetDatabase` (`js/database.js`).** Two IndexedDB object stores,
  `transactions` and `budgets`. Each has an auto-incrementing key and is
  scoped to the user named in `sessionStorage`. Every call checks the session.
  Updates and deletes check that the record belongs to the caller.
  `setBudget` is meant to update the caller's budget for a category or add
  one; as written it always adds (see Findings).
  Module `Database` (database.dfy).
- **`BudgetDatabase` (`js/db.js`).** The same stores with an `async` API.
  Budgets are written with `put`, and there are filters by date range and by
  category. Module `Db` (db.dfy).

Shared pieces:
- `StoreRecords` (store_records.dfy): the record shapes both databases store,
  the session check and the `{...stored, ...patch}` merge.
- `ObjectStore` (object_store.dfy): an object store as a map from keys to
  records. `getAll` returns the values in ascending key order. The key
  generator is bumped by an explicit key.
- `Calendar` (calendar.dfy): dates as (year, month, day).
- `Seqs` (seqs.dfy): `filter`, a left-to-right `reduce` sum and a stable sort.
- `Wrappers` (wrappers.dfy): `Option` and `Result`.

The state each page or class mutates is a Dafny `class`:
- `Ledger.BudgetApp` holds the page's `transactions`, `budgets` and
  `currency` globals.
- `ArrayLedger.Ledger` holds the `transactions` array.
- `Database.BudgetDatabase` and `Db.BudgetDatabase` hold the two stores, their
  key generators and the session.

Each method states the new state in terms of pure functions, and the
properties are proved as lemmas about those functions.

The js/database.js queries read the `userId` index with `getAll(userId)`.
An index lists records by index key and then by primary key, so for one user
this is the store's records in key order, filtered to that user; both classes
model their queries that way.

Promise callbacks become `Result` values. A rejected or thrown call is `Err`
with the reason, and nothing is stored.

Wall-clock readings are parameters: `Date.now()` ids and time stamps, and
`new Date()` "today". Each call runs to completion before the next one
begins.

## Model

| member | source | states |
|---|---|---|
| StoreRecords.LoggedIn | js/database.js:68-69 | a call runs as a user exactly when the session value is present and non-empty, and then as that user |
| StoreRecords.Merge | js/db.js:103-107 | the patched record keeps the key it was read under. Every other field the patch carries, time stamp included, replaces the stored one, and every field it does not carry keeps its stored value |
| StoreRecords.MergeIdempotent | js/db.js:103-107 | applying the same patch twice equals applying it once; an empty patch leaves the record unchanged |
| StoreRecords.OwnedTransactionsMembers | js/db.js:78-79 | the caller's transaction list holds exactly the stored records whose owner is the caller |
| StoreRecords.OwnedBudgetsMembers | js/db.js:168-169 | the caller's budget list holds exactly the stored budgets whose owner is the caller |
| StoreRecords.OwnedTransactionsAscending | js/db.js:76-79 | in a store whose records carry their own keys, the caller's transaction list has strictly increasing ids: each record once, in key order |
| StoreRecords.OwnedBudgetsAscending | js/db.js:166-169 | in a store whose budgets carry their own keys, the caller's budget list has strictly increasing ids: each budget once, in key order |
| ObjectStore.GetAllAscending | js/db.js:76 | `getAll()` on a store whose records carry their own keys lists them by strictly increasing key |
| Database.SummaryOf | js/database.js:222-249 | balance is income minus expenses; income plus expenses is the sum of all the caller's amounts, because every non-income type counts as an expense; an empty list gives zeros |
| Database.SummaryAppend | js/database.js:232-240 | the summary of two lists together is the field-wise sum of their summaries |
| Database.Stamped | js/database.js:75-80 | the written record keeps the caller's fields, is owned by the caller, is dated today when it has no date, and carries the time stamp |
| Database.AmountChangeKeepsOnePerCategory | js/database.js:270-274 | changing the amount of a stored budget keeps the store consistent: every key is below the generator, every record's id is its key, and each user has at most one budget per category |
| Database.NewBudgetKeepsOnePerCategory | js/database.js:276-286 | adding a budget under the next key, for a user and category with no budget yet, keeps the store consistent, with the generator one higher |
| Database.SavedBudget | js/database.js:262-286 | the corrected save: the stored budget under the returned key has the caller, category and amount. An existing budget keeps its key and the generator is unchanged. Otherwise the key is fresh and the generator goes up by one. The store stays consistent either way |
| Database.BudgetFor | js/database.js:262-265 | the lookup `setBudget` intends: it finds a budget of the caller with that category whenever one exists, and none otherwise |
| Database.BudgetDatabase.constructor | js/database.js:37-60 | both stores start empty and both key generators start at 1 |
| Database.BudgetDatabase.AddTransaction | js/database.js:66-95 | logged out: nothing changes. Logged in: the input is stored under the generator's next key, which was free, and the generator moves one past it. The record is owned by the caller, dated today when it has no date, stamped with the time, and the key is returned |
| Database.BudgetDatabase.GetTransactions | js/database.js:98-120 | rejects when logged out. Otherwise it returns the caller's records: exactly the stored ones the caller owns, each once, in key order |
| Database.BudgetDatabase.UpdateTransaction | js/database.js:123-172 | logged out is Unauthenticated; a missing key is NotFound; another user's record is Forbidden. Otherwise the patch is merged under the same key and the id is returned; nothing changes on an error |
| Database.BudgetDatabase.DeleteTransaction | js/database.js:175-219 | the same three errors; otherwise exactly that key is removed from the store |
| Database.Accumulate | js/database.js:232-242 | the loop over the records gives exactly the summary of the records |
| Database.BudgetDatabase.GetTransactionSummary | js/database.js:222-249 | rejects when logged out; otherwise it returns the summary of exactly the caller's records |
| Database.BudgetDatabase.SetBudget | js/database.js:252-299 | the corrected lookup: an existing budget of the caller for the category gets the new amount under its own key, and the generator is unchanged. Otherwise a new budget is added under the generator's next key, which was free, and the generator moves one past it. At most one budget per user and category holds afterwards |
| Database.BudgetDatabase.GetBudgets | js/database.js:302-324 | rejects when logged out. Otherwise it returns exactly the caller's budgets, each once, in key order |
| Database.CategoryIndexGet | js/database.js:262-265 | the `category` index lookup as written: it finds a budget only when the key it is given equals a stored category string |
| Database.SetBudgetAsWritten | js/database.js:262-286 | as written, the lookup never finds a budget, so every call adds a new budget under a fresh key |
| Database.SetBudgetAsWrittenDuplicates | js/database.js:262-286 | two calls for the same user and category, as written, leave two budgets for that category |
| Database.MergeAsWritten | js/database.js:152-157 | as written, an id carried in the patch replaces the stored key, so the put targets that id; the other fields merge as in the corrected merge |
| Database.PatchIdOverwritesAnotherUsersRecord | js/database.js:146-157 | a user who owns record 1 can overwrite another user's record 2 by sending a patch with id 2 |
| Db.SummaryAppend | js/db.js:177-187 | the totals of two lists together are the sums of their totals; records of any other type move neither total |
| Db.SummaryOf | js/db.js:179-186 | the income total adds up the amounts of the "income" records, and the expense total adds up the amounts of the "expense" records. An empty list gives zeros |
| Db.Stamped | js/db.js:57-61 | the written record keeps the caller's fields, is owned by the caller and is dated today when it has no date; it carries no time stamp |
| Db.UntypedSumsToZero | js/db.js:180-184 | records whose type is neither "income" nor "expense" contribute nothing to either total |
| Db.SummaryCountsTypedRecords | js/db.js:177-187 | every "income" or "expense" amount is counted in exactly one total, and no other amount is counted |
| Db.BudgetDatabase.constructor | js/db.js:29-43 | both stores start empty and both key generators start at 1 |
| Db.BudgetDatabase.AddTransaction | js/db.js:49-66 | throws when logged out. Otherwise the input is stored under the generator's next key, which was free, and the generator moves one past it. The record is owned by the caller and dated today when it has no date, and the key is returned |
| Db.BudgetDatabase.GetTransactions | js/db.js:69-84 | throws when logged out. Otherwise it returns exactly the caller's records, each once, in key order |
| Db.BudgetDatabase.UpdateTransaction | js/db.js:87-113 | throws when logged out, when the record is missing or when it is another user's. Otherwise the patch is merged with the id forced to the key it was read under |
| Db.BudgetDatabase.DeleteTransaction | js/db.js:116-137 | the same errors; otherwise exactly that key is removed |
| Db.BudgetDatabase.SetBudget | js/db.js:140-156 | throws when logged out. Otherwise the budget is `put` and owned by the caller. With an id, it goes under that id and the generator moves past the id if it was not already. Without one, it goes under the generator's next key, which was free, and the generator moves one past it. The key is returned |
| Db.BudgetDatabase.GetBudgets | js/db.js:159-174 | throws when logged out. Otherwise it returns exactly the caller's budgets, each once, in key order |
| Db.BudgetDatabase.GetTransactionsSummary | js/db.js:177-187 | the income and expense totals of exactly the caller's records |
| Db.BudgetDatabase.GetTransactionsByDateRange | js/db.js:190-196 | the caller's record list filtered to the dates in the range, both ends included: exactly those records, each once, in key order |
| Db.BudgetDatabase.GetTransactionsByCategory | js/db.js:199-202 | the caller's record list filtered to that category: exactly those records, each once, in key order |
| Ledger.StoredAmount | app.js:576 | the stored amount has the entered magnitude; it is non-negative for income and non-positive for every other type |
| Ledger.DeleteKeepsOthers | app.js:897 | deleting by id removes every transaction with that id and keeps every other one, with its multiplicity and in order |
| Ledger.DeleteBudgetKeepsOthers | app.js:1085 | deleting a budget by id removes exactly the budgets with that id |
| Ledger.SummaryOf | app.js:913-930 | income and expenses are never negative; balance is income minus expenses and equals the sum of all stored amounts; an empty ledger gives zeros |
| Ledger.SummaryParts | app.js:915-923 | positive amounts minus the magnitudes of negative amounts is the sum of all amounts |
| Ledger.SummaryAppend | app.js:915-923 | the summary of two lists together is the field-wise sum of their summaries |
| Ledger.SummaryOfOne | app.js:913-930 | a single positive amount counts as income, a single negative amount counts as an expense of its magnitude, and the balance is the amount |
| Ledger.SummaryAfterAdd | app.js:573-584 | adding an income of amount a raises income and balance by abs(a). Adding any other type raises expenses by abs(a) and lowers balance by abs(a) |
| Ledger.FindBudget | app.js:951 | `findIndex`: the first budget with the category, and none exactly when no budget has it |
| Ledger.Upserted | app.js:951-968 | the first budget of the category gets the new amount and period, keeping its id and spent. Without one, a new budget with spent 0 is appended. Every other budget is unchanged, later budgets of the same category included. Unique categories stay unique |
| Ledger.UpsertTwice | app.js:951-968 | saving the same category twice is the same as saving the second one only (last write wins) |
| Ledger.CategorySpent | app.js:1060-1068 | the spent figure of a category is never negative |
| Ledger.Recomputed | app.js:1054-1076 | only `spent` changes. The first budget of each category gets the sum of the magnitudes of that category's negative amounts, whether or not categories repeat. A later budget with the same category gets 0 |
| Ledger.RecomputeIdempotent | app.js:1054-1076 | recomputing twice gives the same budgets as recomputing once |
| Ledger.RecomputeIgnoresIncome | app.js:1062-1067 | adding an income never changes any budget's spent figure |
| Ledger.RecomputeIgnoresSpent | app.js:1056-1058 | the spent figures held before a recomputation do not affect its result |
| Ledger.DeleteNeverRaisesSpent | app.js:891-911 | deleting lowers a category's spent figure by exactly the expenses removed from that category, so it never raises it |
| Ledger.Percentage | app.js:1007-1008 | overspent shows 100. Otherwise it is spent/limit × 100, at most 100 for a positive limit and non-negative for non-negative inputs. It is undefined only for a zero limit with nothing spent |
| Ledger.ProgressColorMonotone | app.js:1007-1016 | a higher percentage never gives a less severe colour |
| Ledger.OverspentIsRed | app.js:1007-1016 | an overspent budget is red; a budget with nothing spent and a positive limit is green |
| Ledger.ProgressColor | app.js:1010-1016 | red exactly at 85 percent or more, yellow exactly from 70 up to 85, and green below 70 or when the percentage is undefined |
| Ledger.CategoryLabel | app.js:788-811 | a known category value shows its label; any other value shows itself |
| Ledger.CategoryLabelIdempotent | app.js:788-811 | labelling a label changes nothing |
| Ledger.CategoryLabelsDistinct | app.js:788-811 | two different known categories have different labels |
| Ledger.Shown | app.js:692-699 | "all" keeps every transaction; another filter keeps exactly the transactions of that type, each as often as stored |
| Ledger.SortKey | app.js:702-715 | ordering by the key agrees with the comparator of each sort option, with newest first for any other option |
| Ledger.Visible | app.js:688-715 | the list shown is a permutation of the transactions of the selected type, sorted by the selected key (newest first by default) |
| Ledger.VisibleMembers | app.js:688-715 | a transaction is shown exactly when it is stored and its type matches the filter, or the filter is "all" |
| Ledger.VisibleStable | app.js:696-715 | transactions with equal sort keys keep their stored order |
| Ledger.VisibleNewestFirst | app.js:696-715 | under the default sort, no shown transaction is dated before a later one |
| Ledger.BudgetApp.constructor | app.js:205-215 | the page starts with no transactions, no budgets and US dollars |
| Ledger.BudgetApp.Exported | app.js:1100-1104 | the exported document holds the transactions and budgets and a currency; it passes the import check, and its currency is a known one when the state is valid |
| Ledger.BudgetApp.UpdateBudgetProgress | app.js:1054-1076 | the budgets become their recomputed spent figures; transactions and currency are unchanged |
| Ledger.BudgetApp.ResetSpent | app.js:1056-1058 | every budget keeps its place and all its fields except spent, which becomes 0 |
| Ledger.BudgetApp.ChargeExpenses | app.js:1060-1069 | starting from zero spent figures, the pass over the transactions leaves exactly the recomputed budgets |
| Ledger.BudgetApp.ChargeOne | app.js:1062-1067 | an expense adds its magnitude to the first budget of its category; an income or an unbudgeted category changes nothing |
| Ledger.BudgetApp.AddTransaction | app.js:558-598 | the new transaction, with its signed amount, goes to the front of the list, and budgets are recomputed from the new list |
| Ledger.BudgetApp.DeleteTransaction | app.js:891-911 | when confirmed, every transaction with the id is removed and budgets are recomputed; when not confirmed, nothing changes |
| Ledger.BudgetApp.AddBudget | app.js:943-983 | the budget is saved by category (update or append), then every spent figure is recomputed |
| Ledger.BudgetApp.DeleteBudget | app.js:1079-1097 | when confirmed, exactly the budgets with the id are removed; otherwise nothing changes |
| Ledger.BudgetApp.ImportData | app.js:1123-1178 | the import is rejected exactly when the transactions or budgets array is missing. Data is replaced only when the document is valid and the user confirms; the currency is taken only when it is a known symbol. Importing an export of the current state changes nothing |
| Ledger.BudgetApp.ConfirmClearData | app.js:1181-1200 | when confirmed, transactions and budgets are empty; otherwise nothing changes; the currency is kept |
| LedgerStats.MonthsBetweenPast | app.js:24-26 | for a date on or before today the month distance is non-negative; it is zero exactly in the same year and month |
| LedgerStats.MonthsBetween | app.js:24-26 | the month distance is zero exactly in the same year and month, and positive exactly when the first date falls in an earlier month |
| LedgerStats.InYearToDateByYear | app.js:35-41 | a transaction counts toward the year-to-date totals exactly when its year is the current year or later |
| LedgerStats.TrendSlotAsWritten | app.js:54-61 | as written, the index is 11 minus the month distance, and it is used whenever the distance is below 12, including negative distances |
| LedgerStats.FutureDateOverflowsTrend | app.js:54-61 | as written, a transaction dated after this month gets an index of 12 or more, past the twelve buckets |
| LedgerStats.NextMonthIsIndexTwelve | app.js:54-61 | on 15 June 2025, a transaction dated 1 July 2025 gets index 12 as written |
| LedgerStats.TrendSlot | app.js:54-61 | the corrected index: a bucket exactly for distances 0 to 11, always below 12 |
| LedgerStats.TrendSlotAgrees | app.js:54-61 | for dates not in the future, the corrected index is the index as written |
| LedgerStats.LabelTotalAtLeastCount | app.js:44-51 | a category's expense total is at least its expense count, and the count is non-negative |
| LedgerStats.UncountedLabelHasNoTotal | app.js:44-51 | a category with no expenses counted has no expense total |
| LedgerStats.AverageAtLeastOne | app.js:65-67 | a total of at least the count, over a positive count, averages to at least 1 |
| LedgerStats.AveragesMatch | app.js:65-67 | there is an average for exactly the categories with at least one expense; it is their total over their count and is at least 1 |
| LedgerStats.Averages | app.js:65-67 | there is an average for exactly the tallied categories, and each one times its count gives its total |
| LedgerStats.AddToBucket | app.js:54-61 | the buckets change exactly as one transaction's contribution says |
| LedgerStats.TransactionStats | app.js:14-71 | the year-to-date income and expenses are the sums of the matching magnitudes. Each of the twelve buckets holds the sums of its month. The averages are as `AveragesMatch` states |
| ArrayLedger.Contains | js/app.js:72-73 | `includes`: true exactly when the part occurs at some position of the string |
| ArrayLedger.InferKind | js/app.js:72-74 | the type is "income" or "expense"; it is "income" exactly when the category contains "income" or is one of the income categories |
| ArrayLedger.InferKindExamples | js/app.js:72-74 | "other-income" and "salary" are income; "food" and the empty category are expenses |
| ArrayLedger.Complete | js/app.js:76-79 | a form is rejected exactly when the name, amount, date or category is empty |
| ArrayLedger.DeleteKeepsOthers | js/app.js:317 | deleting by id removes exactly the transactions with that id, keeping the rest with their multiplicity |
| ArrayLedger.TypeViewsSplit | js/app.js:117-119 | every stored transaction is "income" or "expense" (the ledger's invariant, kept by every method), so the "income" view and the "expense" view together hold each stored transaction exactly as often as the store does |
| ArrayLedger.Ordered | js/app.js:126-139 | a known sort option gives a sorted permutation; an unknown one leaves the order unchanged |
| ArrayLedger.OrderedStable | js/app.js:126-139 | transactions with equal sort keys keep their order |
| ArrayLedger.SortKey | js/app.js:126-139 | there is a key exactly for the four sort options, and ordering by it agrees with that option's comparator |
| ArrayLedger.FinancialSummary | js/app.js:186-196 | balance is income minus expenses and equals the sum of income amounts minus other amounts. Income plus expenses is the sum of all amounts. An empty list gives zeros |
| ArrayLedger.SummaryParts | js/app.js:186-196 | income amounts plus other amounts make up every amount |
| ArrayLedger.FinancialSummaryAppend | js/app.js:186-196 | the summary of two lists together is the field-wise sum of their summaries |
| ArrayLedger.RatesPositive | js/app.js:5-11 | every exchange rate is positive |
| ArrayLedger.ConvertAmount | js/app.js:36-39 | there is a result exactly when both currencies are known; from US dollars it is amount × rate |
| ArrayLedger.ConvertIdentity | js/app.js:36-39 | converting to the same currency gives the amount back |
| ArrayLedger.ConvertRoundTrip | js/app.js:36-39 | converting there and back gives the amount back |
| ArrayLedger.Ledger.constructor | js/app.js:60 | the ledger starts empty |
| ArrayLedger.Ledger.Submit | js/app.js:76-92 | a form is accepted exactly when it is complete. Then one transaction with the inferred type is appended at the end; otherwise nothing changes. The handler then calls `refreshTransactions` (js/app.js:95), which is ArrayLedger.Ledger.Refresh |
| ArrayLedger.Ledger.Refresh | js/app.js:113-140 | the store keeps its multiset. "all" sorts the store in place and shows it; any other filter shows a sorted copy of the matching transactions. Shown transactions are exactly the matching ones |
| ArrayLedger.Ledger.DeleteTransaction | js/app.js:316-320 | exactly the transactions with the id are removed, and the others keep their order. The handler then calls `refreshTransactions` (js/app.js:318), which is ArrayLedger.Ledger.Refresh; under the "all" filter that re-sorts the store in place |
| ArrayLedger.Ledger.ClearData | js/app.js:405-412 | when confirmed, the store is empty; otherwise nothing changes |

## Left out

- Rendering: the DOM, charts, toasts, theme switching and modal dialogs. They display state and never change the modelled state.
- IndexedDB opening, version upgrades and promise plumbing. The stores are maps, and calls run one at a time. Interleaved transactions are not modelled.
- StoreRecords.Merge: a patch carries only the fields a record has. Any other property in `updatedData` would be copied onto the stored record, and that is not modelled.
- Db.BudgetDatabase.UpdateTransaction: for a missing key, the source reads `.userId` of `undefined` inside a request callback, so the returned promise never settles. The model returns `Err(MissingRecord)` instead. Db.BudgetDatabase.DeleteTransaction does the same.
- Time: `Date.now()` ids and time stamps and `new Date()` "today" are parameters. Dates are (year, month, day) triples without time zones. A date string parsed as UTC but read with local-time `getMonth` can shift by a day, and that is not modelled.
- Amounts: they are whole numbers of the smallest currency unit. `parseFloat`, `NaN`, `toFixed` and floating-point rounding are not modelled, including the `parseFloat` in the js/database.js summary.
- ArrayLedger.ConvertAmount: uses exact real arithmetic, so its round trip holds exactly; the source's floating-point conversion does not.
- Ledger.CategoryLabel: keys inherited from the JavaScript object prototype (such as "constructor") are not treated as known. The currency-symbol lookup in ImportData is treated the same way.
- Ledger.BudgetApp.ImportData: only checks that the two arrays are present, as the source does. The elements are taken as well-formed records. Reading the file (FileReader, JSON parsing) is not modelled.
- Export formats (JSON download, PDF, spreadsheet) are not modelled. `Ledger.BudgetApp.Exported` is the document they carry.
- localStorage persistence (`saveTransactions`, `saveBudgets`, `loadFromLocalStorage`) is not modelled. Neither are the currency selector and `formatAmount`.
- The chart aggregation of `updateCharts` in js/app.js is not modelled; only the statistics of `getTransactionStats` in app.js are.
- login.js, js/transactions.js and js/db-adapter.js are not part of this model.

## Findings

| source | as written | input that shows it | evidently intended | confidence | as-written member | corrected member |
|---|---|---|---|---|---|---|
| js/database.js:262-265 | `setBudget` looks up the `category` index with the key `[userId, category]`. The index is on the plain category string, so the lookup never finds a budget and every call adds a new one | two `setBudget("food", …)` calls by one user leave two "food" budgets | update the caller's existing budget for the category | high (not executed) | Database.SetBudgetAsWritten | Database.BudgetDatabase.SetBudget |
| app.js:54-55 | the trend index is `11 - monthsBetween(date, now)`, guarded only by `monthsBetween < 12`, so a transaction dated in a later month gets index 12 or more and the bucket is `undefined` | on 15 June 2025, a transaction dated 1 July 2025 gets index 12 | count only dates from the last twelve months, indices 0 to 11 | high (not executed) | LedgerStats.FutureDateOverflowsTrend | LedgerStats.TrendSlot |
| js/database.js:152-157 | the update spreads the patch over the stored record, so an `id` in the patch replaces the key the ownership check was made on, and `put` writes to that id | user alice owns record 1 and sends a patch with id 2 for record 1; bob's record 2 is overwritten | keep the key the record was read and checked under, as js/db.js:103-107 does | medium (not executed) | Database.PatchIdOverwritesAnotherUsersRecord | Database.BudgetDatabase.UpdateTransaction |

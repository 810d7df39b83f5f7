# Personal finance tracker — a Dafny model of its data layer

The tracker keeps a list of transactions (description, amount, date,
category) and one monthly budget per category. Two stores hold this data:

- one talks to the `/api/transactions` and `/api/budgets` routes;
- the other keeps a seeded list in memory.

Every chart, summary card and editor on the dashboard derives its figures
from that data with the same few aggregations:

- restrict to a month or a year;
- group by category id;
- sum;
- pick the largest group;
- join with the budgets;
- list the years that occur, newest first.

This project models the following in Dafny and proves what each one promises:

- those aggregations;
- the two stores;
- the small stateful pieces of the components (the form, the transaction table, the budget editor);
- the two HTTP routes.

Modelling choices:

- **Amounts** are mathematical reals, not IEEE doubles.
- **Dates** are a year, a zero-based month and a day. This is what `getFullYear()`/`getMonth()` return, and what the selectors compare.
- **Missing category.** A transaction without a category has category `""`.
- **Grouping.** Grouping and lookup keep two behaviours of the source apart:
  - `Raw`: the store's own `getCategorySpending` compares the category exactly;
  - `Resolved`: the dashboard, the insights card and both charts first replace a missing category by `"other"`.
- **Everything outside the program is a parameter**:
  - the current time;
  - every server reply (a fetched list, an `ok` flag per request, a created record);
  - whether the database is reached;
  - the id it assigns;
  - the reading of typed text as a number (`parse`) and of a posted date string (`toDate`);
  - the display of a number as text (`show`).
- **Source disagreements.** The source's two versions sometimes differ:
  - `lib/hooks/use-transactions.js` and `lib/hooks/use-transactions.tsx` are modelled as two modules, `RemoteProvider` and `LocalProvider`;
  - the model follows the code of each.

Modules, one per core file:

| module | what it models |
|---|---|
| `Model` | the category registry, the default budgets, the records |
| `Aggregates` | filters, sums, grouping, top category, spending rows, year lists |
| `Patches` | the pure list updates the stores apply |
| `RemoteProvider` | the server-backed store |
| `LocalProvider` | the in-memory store |
| `SpendingInsights` | the insights card |
| `DashboardSummary` | the summary cards |
| `BudgetComparison` | the budget chart |
| `CategoryPie` | the pie chart |
| `MonthlyExpenses` | the monthly bar chart |
| `BudgetManagement` | the budget editor |
| `TransactionForm` | the transaction form |
| `TransactionList` | the transaction table |
| `BudgetsRoute` | `app/api/budgets/route.js` |
| `TransactionsRoute` | `app/api/transactions/route.js` |

## Model

| member | source | states |
|---|---|---|
| Model.CategoryIds | lib/hooks/use-transactions.js:6-17 | one id per registry entry, in registry order |
| Model.RegistryShape | lib/hooks/use-transactions.js:6-17 | the registry has ten entries with distinct, non-empty ids and non-empty names, and its last entry is "other" |
| Model.CategoryIdsDistinct | lib/hooks/use-transactions.js:6-17 | no two registry entries share an id |
| Model.RegistryNamesDistinct | lib/hooks/use-transactions.js:6-17 | no two registry entries share a display name |
| Model.EntryLengths | lib/hooks/use-transactions.js:6-17 | every entry has a non-empty id and name and a seven-character colour |
| Model.FindCategory | components/transaction-list.jsx:63-69 | `find` by id gives an entry with that id exactly when the id is registered, else nothing |
| Model.DefaultBudgetsValues | lib/hooks/use-transactions.js:20-32 | the default budgets cover the registry in order, one each, with the listed amounts |
| Aggregates.SumNonNegative | components/dashboard-summary.jsx:13 | the total of non-negative amounts is non-negative |
| Aggregates.SumPermutation | components/monthly-expenses-chart.jsx:29-34 | a total does not depend on the order of the transactions |
| Aggregates.InPeriod | lib/hooks/use-transactions.js:224-227 | the month filter keeps exactly the transactions dated in that month and year |
| Aggregates.InPeriodPermutation | lib/hooks/use-transactions.js:224-227 | filtering a reordering gives a reordering of the filtered list |
| Aggregates.PeriodSumAtMostTotal | components/dashboard-summary.jsx:13-21 | with non-negative amounts, a month's spending is at most the all-time total |
| Aggregates.WithKeyMembers | lib/hooks/use-transactions.js:231 | a transaction is in the filter exactly when it is in the list and has that category |
| Aggregates.SumWithKeyUnique | lib/hooks/use-transactions.js:230-232 | a category with one transaction sums to that transaction's amount |
| Aggregates.WithKeyAbsent | lib/hooks/use-transactions.js:231 | a category no transaction has gives an empty filter |
| Aggregates.GroupByCategory | components/dashboard-summary.jsx:24-31 | the `forEach` leaves, for each category in first-seen order, exactly the sum of its amounts, and lists no other category |
| Aggregates.TotalOfGrouped | components/budget-comparison-chart.jsx:44 | reading a category from the totals gives its sum, and 0 for a category that does not occur |
| Aggregates.AbsentCategoryTotal | components/budget-comparison-chart.jsx:44 | a category with no transactions reads as 0 |
| Aggregates.CategoryTotalsAddUp | components/dashboard-summary.jsx:24-31 | the category totals add up to the total of all transactions |
| Aggregates.TopCategory | components/dashboard-summary.jsx:34-42 | the scan finds no category, and 0, exactly when no total is positive; otherwise a listed category whose positive total no other total exceeds |
| Aggregates.TopCategoryOf | components/spending-insights.jsx:36-54 | grouping then scanning gives no winner when no category total is positive, else the first category, in first-seen order, with the largest total |
| Aggregates.IsTopUnique | components/dashboard-summary.jsx:34-42 | the first-largest entry is unique |
| Aggregates.TopAtMostSum | components/dashboard-summary.jsx:34-42 | with non-negative amounts the top category's total is at most the total of all transactions |
| Aggregates.TopName | components/dashboard-summary.jsx:44 | the shown name is the registry name of the top id, and "None" when there is none or it is not registered |
| Aggregates.FirstBudgetIndex | lib/hooks/use-transactions.js:234 | `find` returns the first budget with that category, or past the end when there is none |
| Aggregates.BudgetForAbsent | lib/hooks/use-transactions.js:234 | a category without a budget has budget 0 |
| Aggregates.BudgetForUnique | lib/hooks/use-transactions.js:234 | when one budget has the category, its amount is the budget |
| Aggregates.DefaultBudgetFor | lib/hooks/use-transactions.js:20-32 | each registry category's default budget is the listed amount |
| Aggregates.Percentage | lib/hooks/use-transactions.js:241 | spending over a positive budget, times 100, and 0 when the budget is 0 |
| Aggregates.SpendingRows | lib/hooks/use-transactions.js:229-243 | one row per given category, in the given order, each the row built for that category |
| Aggregates.CategorySpending | lib/hooks/use-transactions.js:223-244 | one row per registry category: its exact-match spending in the month, its first budget (0 if none), the remainder, and the percentage (0 for no budget) |
| Aggregates.CategorySpendingSingleRow | lib/hooks/use-transactions.js:229-242 | a category with one transaction in the month gets exactly that amount as spending, and the matching remainder and percentage |
| Aggregates.CategorySpendingSnoc | lib/hooks/use-transactions.js:224-232 | adding a transaction raises only its own category's spending, when it falls in the month |
| Aggregates.PeriodSpendingSnoc | lib/hooks/use-transactions.js:224-232 | a category's month sum grows by a new transaction's amount exactly when that transaction is in the month and carries the category |
| Aggregates.UnknownCategoryCountsNowhere | lib/hooks/use-transactions.js:231 | a transaction with an unregistered category, or none, is in no row's spending |
| Aggregates.CategorySpendingAddsUp | lib/hooks/use-transactions.js:223-244 | the rows' spending adds up to the month's spending over transactions with a registered category |
| Aggregates.DistinctYears | components/budget-comparison-chart.jsx:19-20 | the year list holds each year of a transaction once, strictly descending |
| Aggregates.AvailableYears | components/budget-comparison-chart.jsx:18-21 | a year is offered exactly when some transaction is dated in it, newest first, without repeats; with no transactions only the current year |
| Aggregates.AvailableYearsPermutation | components/category-pie-chart.jsx:18-21 | the offered years do not depend on the order of the transactions |
| Patches.Merge | lib/hooks/use-transactions.tsx:128 | a patch changes exactly the fields it gives and keeps the rest, the id included |
| Patches.Prepend | lib/hooks/use-transactions.js:132 | the new record comes first, followed by the old list unchanged |
| Patches.UpdateWhere | lib/hooks/use-transactions.js:156-166 | the list keeps its length and order, the record with the id is merged, and every other record is unchanged |
| Patches.UpdateKeepsIds | lib/hooks/use-transactions.js:156-166 | an update never changes the list of ids |
| Patches.UpdateLeavesOthers | lib/hooks/use-transactions.js:156-166 | records with other ids are untouched |
| Patches.UpdateIdempotent | lib/hooks/use-transactions.js:156-166 | applying the same patch twice is the same as applying it once |
| Patches.EmptyPatchIsIdentity | lib/hooks/use-transactions.tsx:126-130 | a patch that gives no field leaves the list unchanged |
| Patches.DeleteMembers | lib/hooks/use-transactions.js:188 | after a delete, a record is in the list exactly when it was before and has another id |
| Patches.DeleteCount | lib/hooks/use-transactions.js:188 | a delete removes exactly the records with that id and keeps the rest in order |
| Patches.DeleteConcat | lib/hooks/use-transactions.js:188 | deleting from two joined lists is deleting from each |
| Patches.DeleteAbsent | lib/hooks/use-transactions.js:188 | deleting an id that no record has leaves the list unchanged |
| Patches.DeleteIdempotent | lib/hooks/use-transactions.js:188 | deleting twice is deleting once |
| Patches.AddThenDelete | lib/hooks/use-transactions.tsx:122-134 | adding a record with a fresh id and then deleting it restores the list |
| Patches.SetBudgetAmount | lib/hooks/use-transactions.js:212 | the budget list keeps its length and categories; only that category's amounts change |
| Patches.SetBudgetKeepsCategories | lib/hooks/use-transactions.js:212 | setting a budget never changes which categories have budgets |
| Patches.SetBudgetLookup | lib/hooks/use-transactions.js:212 | after setting a budgeted category, looking it up gives the new amount |
| Patches.SetBudgetNeverInserts | lib/hooks/use-transactions.js:212 | setting an unbudgeted category changes nothing |
| Patches.SetBudgetLeavesOthers | lib/hooks/use-transactions.js:212 | other categories' budgets read the same as before |
| RemoteProvider.LoadedBudgets | lib/hooks/use-transactions.js:82-97 | an empty server list becomes the ten default budgets, and any other list is taken as given |
| RemoteProvider.FirstLoadBudgets | lib/hooks/use-transactions.js:82-94 | on the first load every registry category gets its default budget |
| RemoteProvider.TransactionsProvider.constructor | lib/hooks/use-transactions.js:37-41 | the store starts empty, loading, with no error and nothing being edited |
| RemoteProvider.TransactionsProvider.FetchTransactions | lib/hooks/use-transactions.js:44-69 | a reply replaces the transactions and clears the error; a failure keeps them and sets the load error; loading ends either way |
| RemoteProvider.TransactionsProvider.FetchBudgets | lib/hooks/use-transactions.js:72-104 | a reply replaces the budgets (the defaults for an empty reply); a failure keeps them and sets the error |
| RemoteProvider.TransactionsProvider.AddTransaction | lib/hooks/use-transactions.js:117-140 | a created record is put first and true is returned; a failure keeps the list, sets the add error and returns false |
| RemoteProvider.TransactionsProvider.UpdateTransaction | lib/hooks/use-transactions.js:143-174 | on success the records with the id are merged with the patch; on failure the list is kept and the error set |
| RemoteProvider.TransactionsProvider.DeleteTransaction | lib/hooks/use-transactions.js:177-196 | on success the records with the id are removed; on failure the list is kept and the error set |
| RemoteProvider.TransactionsProvider.UpdateBudget | lib/hooks/use-transactions.js:199-220 | on success that category's budget amount is set and nothing is inserted; on failure the budgets are kept and the error set |
| RemoteProvider.TransactionsProvider.SetEditingTransaction | lib/hooks/use-transactions.js:39 | only the transaction being edited changes |
| RemoteProvider.TransactionsProvider.GetCategorySpending | lib/hooks/use-transactions.js:223-244 | one row per registry category, with that category's exact-match spending in the month and its budget, over the store's current data |
| LocalProvider.TransactionsProvider.constructor | lib/hooks/use-transactions.tsx:76-78 | the store starts with the seeded transactions and budgets and nothing being edited |
| LocalProvider.TransactionsProvider.AddTransaction | lib/hooks/use-transactions.tsx:122-124 | the record is put first; the budgets are unchanged |
| LocalProvider.TransactionsProvider.UpdateTransaction | lib/hooks/use-transactions.tsx:126-130 | the records with the id are merged with the patch, and the rest stay as they were |
| LocalProvider.TransactionsProvider.DeleteTransaction | lib/hooks/use-transactions.tsx:132-134 | the records with the id are removed |
| LocalProvider.TransactionsProvider.UpdateBudget | lib/hooks/use-transactions.tsx:136-138 | only that category's budget amount changes |
| LocalProvider.TransactionsProvider.SetEditingTransaction | lib/hooks/use-transactions.tsx:78 | only the transaction being edited changes |
| LocalProvider.TransactionsProvider.GetCategorySpending | lib/hooks/use-transactions.tsx:141-162 | one row per registry category, with that category's exact-match spending in the month and its budget, over the store's current data |
| LocalProvider.SeedIdsDistinct | lib/hooks/use-transactions.tsx:20-56 | the seeded transactions have distinct ids |
| LocalProvider.SeedCategories | lib/hooks/use-transactions.tsx:20-56 | the five seeded transactions are all in April 2023, each in its listed category |
| LocalProvider.SeedGroceries | lib/hooks/use-transactions.tsx:141-162 | for April 2023 the seed gives groceries 85.75 spent of 400, with 314.25 left, at 21.4375 percent |
| LocalProvider.SeedHousing | lib/hooks/use-transactions.tsx:141-162 | for April 2023 the seed gives housing 1200 spent of 1500, with 300 left, at 80 percent |
| LocalProvider.SeedAddThenDelete | lib/hooks/use-transactions.tsx:122-134 | adding a record with a new id to the seed and deleting it restores the seed |
| SpendingInsights.PreviousMonth | components/spending-insights.jsx:17-18 | January goes back to December of the previous year; any other month goes back one month in the same year |
| SpendingInsights.PreviousMonthUnique | components/spending-insights.jsx:17-18 | a month is the previous month exactly when it lies one month before the current one |
| SpendingInsights.PercentChange | components/spending-insights.jsx:57-58 | the relative change from the previous month's spending, and 100 when there was none |
| SpendingInsights.PercentChangeSign | components/spending-insights.jsx:57-58 | for a positive previous total, the change is positive exactly when spending rose |
| SpendingInsights.NoPreviousSpendingIsIncrease | components/spending-insights.jsx:57-58 | with nothing spent last month the card shows an increase of 100 |
| SpendingInsights.Share | components/spending-insights.jsx:85 | the top category's share of the month, and 0 for an empty month |
| SpendingInsights.ShareBounded | components/spending-insights.jsx:85 | for a month with non-negative amounts, the top category's share lies between 0 and 100 |
| SpendingInsights.ShareOfPart | components/spending-insights.jsx:85 | a part of a non-negative whole has a share between 0 and 100 |
| SpendingInsights.ComputeInsights | components/spending-insights.jsx:11-87 | the card's totals are this and last month's sums, the top category is the first largest in this month, the change and share follow from those, and it is an increase exactly when the change is positive |
| DashboardSummary.ComputeSummary | components/dashboard-summary.jsx:11-55 | the total, count, month total and top category are the sums and the first-largest category of the given data |
| DashboardSummary.EmptySummary | components/dashboard-summary.jsx:34-44 | with no transactions everything is 0 and the top category is "None" |
| DashboardSummary.UnknownWinnerShowsNone | components/dashboard-summary.jsx:44 | an unregistered top category shows as "None" |
| DashboardSummary.SummaryBounds | components/dashboard-summary.jsx:13-21 | with non-negative amounts, the month and the top category are at most the total |
| BudgetComparison.ChartData | components/budget-comparison-chart.jsx:24-53 | the bars are the registry categories, in order, whose budget or month spending (a missing category counted as "other") is positive, each with name, budget, spending and difference |
| BudgetComparison.RowsFromAgree | components/budget-comparison-chart.jsx:32-52 | reading the grouped totals gives the same bars as summing each category directly |
| BudgetComparison.ComparisonMembers | components/budget-comparison-chart.jsx:42-52 | a row is listed exactly when it is some listed category's row and its budget or spending is positive |
| BudgetComparison.ComparisonConcat | components/budget-comparison-chart.jsx:42 | the bars of two joined category lists are the bars of each |
| BudgetComparison.AllBudgetedShown | components/budget-comparison-chart.jsx:52 | when every category has a positive budget, every category gets a bar |
| BudgetComparison.DefaultBudgetsShowAll | components/budget-comparison-chart.jsx:42-52 | with the default budgets all ten categories have bars |
| BudgetComparison.UnlistedCategoryIgnored | components/budget-comparison-chart.jsx:42-44 | spending under an unregistered category appears in no bar |
| BudgetComparison.UnknownCategoryIgnored | components/budget-comparison-chart.jsx:42-44 | adding a transaction with an unregistered category leaves the chart unchanged |
| BudgetComparison.MissingCategoryCountsAsOther | components/budget-comparison-chart.jsx:34 | a transaction without a category counts toward "other" |
| CategoryPie.SlicesFromAgree | components/category-pie-chart.jsx:43-47 | reading the grouped totals gives the same slices as summing each category directly |
| CategoryPie.PieData | components/category-pie-chart.jsx:24-48 | the slices are the registry categories, in order, with positive month spending (a missing category counted as "other"), each with its name, that spending and its colour |
| CategoryPie.SlicesMembers | components/category-pie-chart.jsx:43-47 | a slice is listed exactly when it is some listed category's slice and its value is positive |
| CategoryPie.NoTransactionsNoSlices | components/category-pie-chart.jsx:26-43 | with nothing in the month the pie is empty |
| CategoryPie.SlicesConcat | components/category-pie-chart.jsx:43 | the slices of two joined category lists are the slices of each |
| CategoryPie.SlicesTotal | components/category-pie-chart.jsx:43-47 | with non-negative amounts, the slices add up to the listed categories' totals taken one by one |
| CategoryPie.SlicesCoverKeys | components/category-pie-chart.jsx:43-47 | with distinct ids and non-negative amounts, the slices add up to the month's spending in those categories |
| CategoryPie.SlicesCoverAll | components/category-pie-chart.jsx:32-47 | when every transaction falls into a listed category, the slices add up to the month's total |
| CategoryPie.PieTotal | components/category-pie-chart.jsx:26-47 | the pie adds up to the month's spending in registered categories |
| CategoryPie.PieCoversMonth | components/category-pie-chart.jsx:32-47 | when every month transaction resolves to a registered category, the pie adds up to the whole month |
| MonthlyExpenses.InYear | components/monthly-expenses-chart.jsx:30 | the year filter keeps exactly the transactions of that year, in order |
| MonthlyExpenses.SortByIndexFacts | components/monthly-expenses-chart.jsx:37 | the buckets come out in month order, the same buckets as before |
| MonthlyExpenses.SortedIsFixed | components/monthly-expenses-chart.jsx:37 | buckets already in month order are left as they are |
| MonthlyExpenses.SeriesSnoc | components/monthly-expenses-chart.jsx:29-34 | one more transaction adds its amount to its own month's bucket when it is in the year, and changes nothing otherwise |
| MonthlyExpenses.MonthlySeries | components/monthly-expenses-chart.jsx:21-38 | the chart has twelve buckets in month order, and each holds that month's spending in the year |
| MonthlyExpenses.SeriesInOrder | components/monthly-expenses-chart.jsx:22-27 | there are twelve buckets, bucket m being month m with its name, so the series is in month order |
| MonthlyExpenses.EmptySeries | components/monthly-expenses-chart.jsx:23-27 | with nothing in the year all twelve buckets are 0 |
| MonthlyExpenses.OtherYearIgnored | components/monthly-expenses-chart.jsx:30 | a transaction from another year changes no bucket |
| MonthlyExpenses.SeriesPermutation | components/monthly-expenses-chart.jsx:29-34 | the buckets do not depend on the order of the transactions |
| MonthlyExpenses.SeriesTotal | components/monthly-expenses-chart.jsx:29-34 | the twelve buckets add up to the year's total |
| BudgetManagement.PutLookup | components/budget-management.jsx:62-67 | after a change, that category reads the new text and every other one reads as before |
| BudgetManagement.InitialValuesLookup | components/budget-management.jsx:53-56 | each category's text is its last budget's amount as shown, none for a category without a budget, and no category appears twice |
| BudgetManagement.LastBudget | components/budget-management.jsx:54-56 | the last budget with the category, or none exactly when no budget has it |
| BudgetManagement.UpdatesMembers | components/budget-management.jsx:29 | the saved entries are exactly the entered values whose text is non-empty and a number, each with its parsed amount |
| BudgetManagement.UpdatesDistinct | components/budget-management.jsx:29 | no category is saved twice in one round |
| BudgetManagement.AnyRefusedMeans | components/budget-management.jsx:32-34 | the round reports a failure exactly when some save was refused |
| BudgetManagement.AppliedKeepsCategories | components/budget-management.jsx:32-34 | saving never changes which categories have budgets |
| BudgetManagement.AppliedLeavesOthers | components/budget-management.jsx:32-34 | a category not saved, or refused, keeps its budget |
| BudgetManagement.AppliedSets | components/budget-management.jsx:32-34 | an accepted save of a budgeted category leaves it at the parsed amount |
| BudgetManagement.SaveEffect | components/budget-management.jsx:29-34 | after the round, a category with no saved entry keeps its budget, and a budgeted category whose save was accepted has the saved amount |
| BudgetManagement.Progress | components/budget-management.jsx:107 | the bar's fill is the percentage, capped at 100 |
| BudgetManagement.PercentageOver | components/budget-management.jsx:108-110 | a row is over budget exactly when it has spent more than its positive budget |
| BudgetManagement.OverBudgetRow | components/budget-management.jsx:110-113 | a registry row is over budget exactly when it spent more than a positive budget, and any overage it shows is positive |
| BudgetManagement.Display | components/budget-management.jsx:82 | one displayed row per spending row, in the same order |
| BudgetManagement.BudgetEditor.constructor | components/budget-management.jsx:13-15 | the editor starts not editing, not submitting, with no entered values |
| BudgetManagement.BudgetEditor.BudgetChange | components/budget-management.jsx:62-67 | only that category's entered text changes |
| BudgetManagement.BudgetEditor.StartEditing | components/budget-management.jsx:52-58 | entering edit mode fills the inputs from the current budgets |
| BudgetManagement.BudgetEditor.SaveBudgets | components/budget-management.jsx:24-50 | the numeric entries are saved one after another, each accepted save setting its category's amount; an error is reported exactly when some save was refused; the editor ends not editing and not submitting |
| BudgetManagement.BudgetEditor.EditToggle | components/budget-management.jsx:23-60 | in edit mode the toggle saves as SaveBudgets does and leaves edit mode; otherwise it enters edit mode with the current amounts |
| BudgetManagement.BudgetEditor.View | components/budget-management.jsx:21 | one row per registry category, in registry order, with an input exactly while editing |
| TransactionForm.ValidIffNoErrors | components/transaction-form.jsx:41-60 | a form is valid exactly when `validateForm` sets no message for it |
| TransactionForm.EmptyFormMessages | components/transaction-form.jsx:41-60 | a fresh or reset form draws the description and amount messages and no date message |
| TransactionForm.EmptyFormInvalid | components/transaction-form.jsx:41-60 | a fresh or reset form does not pass validation |
| TransactionForm.NonBlank | components/transaction-form.jsx:44 | a description with any non-space character is not blank |
| TransactionForm.FullPatch | components/transaction-form.jsx:84-89 | the sent data gives every field, with the amount parsed and positive |
| TransactionForm.NewRecord | components/transaction-form.jsx:84-89 | the created record has the server's id, a positive amount and a non-blank description |
| TransactionForm.TransactionFormState.constructor | components/transaction-form.jsx:20-27 | the form starts empty, dated today, category "other", with no errors |
| TransactionForm.TransactionFormState.Prefill | components/transaction-form.jsx:30-39 | a transaction being edited is copied into the fields, with a missing category shown as "other" |
| TransactionForm.TransactionFormState.Validate | components/transaction-form.jsx:41-60 | the messages are those `validateForm` sets for the form, and it is valid exactly when there is none |
| TransactionForm.TransactionFormState.Submit | components/transaction-form.jsx:75-132 | the messages are those of the submitted form, so cleared for a valid one; an invalid form sends nothing; a valid one updates the record being edited or adds a new one, and resets the form only on success |
| TransactionForm.TransactionFormState.Cancel | components/transaction-form.jsx:134-142 | editing ends and the form is reset, and the store's data is untouched |
| TransactionForm.TransactionFormState.InputChange | components/transaction-form.jsx:62-65 | only the named text field changes |
| TransactionForm.TransactionFormState.DateChange | components/transaction-form.jsx:67-69 | only the date changes |
| TransactionForm.TransactionFormState.CategoryChange | components/transaction-form.jsx:71-73 | only the category changes |
| TransactionForm.PrefillValid | components/transaction-form.jsx:30-39 | a prefilled record with a description and a positive amount passes validation when `parse` reads `show` back |
| TransactionForm.ResubmitUnchanged | components/transaction-form.jsx:84-89 | saving an untouched prefilled form rewrites the record with its own values |
| TransactionList.CategoryName | components/transaction-list.jsx:63-65 | an unregistered id shows as "Other" |
| TransactionList.CategoryColor | components/transaction-list.jsx:67-69 | an unregistered id shows in the fallback grey |
| TransactionList.KnownCategoryShown | components/transaction-list.jsx:63-69 | a registered id shows its own name and colour |
| TransactionList.UnknownShownAsOther | components/transaction-list.jsx:63-69 | an unregistered id looks exactly like the "other" category |
| TransactionList.AtMostOneDialog | components/transaction-list.jsx:147 | with distinct ids, at most one row's dialog is open |
| TransactionList.ViewOf | components/transaction-list.jsx:71-107 | an error shows first, then loading, then the empty message, then one row per transaction in order |
| TransactionList.ErrorWins | components/transaction-list.jsx:71 | a failed load hides the table whatever else holds |
| TransactionList.TableOneDialog | components/transaction-list.jsx:146-147 | with distinct ids, the shown table has at most one open dialog |
| TransactionList.RefreshedView | components/transaction-list.jsx:107 | after a successful refresh the table shows the reply, or the empty message |
| TransactionList.TransactionListState.constructor | components/transaction-list.jsx:26-28 | no row is pending deletion and the table is not refreshing |
| TransactionList.TransactionListState.RequestDelete | components/transaction-list.jsx:153 | the trash button marks its row as pending deletion |
| TransactionList.TransactionListState.DialogOpenChange | components/transaction-list.jsx:148-150 | closing the dialog forgets the pending row; opening it changes nothing |
| TransactionList.TransactionListState.HandleDelete | components/transaction-list.jsx:30-45 | the store deletes the row or reports the failure, and the dialog closes either way |
| TransactionList.TransactionListState.HandleEdit | components/transaction-list.jsx:47-51 | the row becomes the transaction being edited |
| TransactionList.TransactionListState.HandleRefresh | components/transaction-list.jsx:53-61 | the store reloads its transactions and the spinner stops |
| BudgetsRoute.FirstWith | app/api/budgets/route.js:33 | `findOne` finds the first record with the category, or none |
| BudgetsRoute.UpsertLeavesOthers | app/api/budgets/route.js:37-45 | a post never changes the records of other categories, nor their order |
| BudgetsRoute.UpsertOwnCategory | app/api/budgets/route.js:33-69 | without a record for the category the new record is its only one; otherwise its first record gets the amount and time, and the rest stay |
| BudgetsRoute.UpsertKeepsUnique | app/api/budgets/route.js:33-61 | posts keep at most one record per category |
| BudgetsRoute.PostTwice | app/api/budgets/route.js:33-61 | posting twice for one category leaves exactly one record for it, with the second amount, and the other categories untouched |
| BudgetsRoute.PostAnswer | app/api/budgets/route.js:47-69 | the answered record is the first with the category: the old record with the new amount and time, keeping its id and creation time, or the new record |
| BudgetsRoute.BudgetCollection.constructor | app/api/budgets/route.js:5-17 | the collection holds the given records |
| BudgetsRoute.BudgetCollection.Get | app/api/budgets/route.js:5-17 | every stored budget, or 500 when the database cannot be reached |
| BudgetsRoute.BudgetCollection.Post | app/api/budgets/route.js:20-75 | missing fields answer 400; otherwise the category's first record is updated (answered 200) or a new one inserted (answered 201); failures answer 500 and store nothing |
| TransactionsRoute.NewDocument | app/api/transactions/route.js:32-37 | the stored document carries every posted field, the converted date, the new id and both timestamps |
| TransactionsRoute.SortByDateFacts | app/api/transactions/route.js:10 | the listing is newest first and holds exactly the stored documents |
| TransactionsRoute.SortedIsFixed | app/api/transactions/route.js:10 | a listing already newest first comes back unchanged |
| TransactionsRoute.PostedIsListed | app/api/transactions/route.js:39 | a posted document is in the next listing, and nothing else was added |
| TransactionsRoute.TransactionCollection.constructor | app/api/transactions/route.js:5-17 | the collection holds the given documents |
| TransactionsRoute.TransactionCollection.Get | app/api/transactions/route.js:5-17 | every stored document, newest first, or 500 when the database cannot be reached |
| TransactionsRoute.TransactionCollection.Post | app/api/transactions/route.js:20-52 | missing fields answer 400; otherwise one document is appended and answered with 201; failures answer 500 and store nothing |

## Left out

- Floating point: amounts are reals, so rounding in sums, percentages and `toFixed` formatting is not modelled.
- Date parsing and time zones are not modelled:
  - `new Date("2023-04-01")` is read as midnight UTC, and west of UTC `getMonth()` gives March for it;
  - the seed's dates are taken as the April dates they spell;
  - an invalid date is not modelled.
- Time of day: dates have no time. Two transactions on the same day keep their stored order in the `GET` listing, where the database would order them by time or leave the order open.
- The first budget load posts each default budget to the server (lib/hooks/use-transactions.js:84-92). Those requests are not modelled; only the store's resulting state is.
- The `localStorage` load and save of the in-memory store (lib/hooks/use-transactions.tsx:81-120) are not modelled: they are I/O.
- The by-id route:
  - app/api/transactions/[id]/route.js is not part of this model;
  - the remote store's update and delete take the server's answer as a parameter.
- Asynchrony: concurrent requests, races and the order in which promises settle are not modelled. Each request is one step.
- The initial `useEffect` load is the two fetch methods called in order, not a member of its own.
- Key order: `Object.entries` lists integer-like keys first in JavaScript. The grouping keeps first-seen order, which agrees for the registry's ids but not for a numeric category id.
- Rendering is not modelled:
  - JSX, recharts, month names, locale strings, toasts, `console.error` and `scrollIntoView`;
  - disabled buttons while a request is pending, so presses during a save are not ruled out.
- The selectors compare years and months as strings. The model compares them as numbers, which agrees for the values the selectors offer.
- Number parsing:
  - `Number`, `parseFloat` and `isNaN` are read through one `parse` parameter;
  - so the model does not capture text that one of them reads as a number and another does not. An example is `"0x10"`, which `isNaN` accepts and `parseFloat` reads as 0.
- A posted amount of the wrong JSON type (a string, say) is not modelled: amounts are numbers or absent.
- "Now": `new Date()` called twice in one handler is modelled as a single time.
- The `catch` branches of the form and the budget editor are never taken, because the store reports failures by its return value. Thrown exceptions are not modelled.
- Patches.Merge: a patch date that is present but null is not modelled; a date is either given or absent.
- Patches.DeleteWhere: its own ensures gives only the length bound. What a delete keeps and removes is stated by Patches.DeleteMembers and Patches.DeleteCount.
- Aggregates.BudgetForAbsent: the `?.amount || 0` fallback also turns a stored amount of NaN into 0. NaN does not exist among reals, so that case is not modelled.
- Extra fields in a posted transaction body (`...data`) are not modelled: a document carries the four modelled fields.

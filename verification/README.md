# Personal finance tracker — a Dafny model

This project models the logic of a small personal-finance tracker. The tracker has a React client (`my-app`) and an Express/Mongoose server (`server`).

The **server** stores transactions and monthly budgets:
- A new transaction gets a sign rule: expense categories are stored negative and all others positive.
- Transactions are listed newest first, and can be deleted and updated.
- A budget is upserted by its (category, month, year) key.
- One month's budgets can be fetched; a bad query gets 400.

The **client** keeps a transaction list with add and delete handlers and shows:
- the balance, income and expense cards;
- a chart of totals per month and a chart of expenses per category;
- a spending-insights panel and a budget overview, which compare this month's spending with the budgets;
- a budget editor and a transaction form.

Each source file becomes one Dafny module, in the source's own form:
- Code that computes values becomes datatypes, functions and lemmas.
- Code that updates state becomes classes with `modifies` clauses and loops with invariants.
- The server's collections are in-memory stores.
- The network, the database and the clock become parameters.

Shared modules:
- `Wrappers`: `Option`.
- `Js`: JavaScript values and numbers. This covers `Number(...)` on strings, `x || 0`, truthiness and `Math.abs`.
- `Domain`: dates, transactions, `Math.abs`, and removal by id.
- `Records`: a JavaScript `Record<string, number>`, kept as an ordered list of entries because `Object.values` follows insertion order.
- `Categories`: the offered categories and their colour badges.

Amounts are `real`. NaN appears where the code applies `Number` to request or form values (strings, and also missing or null JSON fields), and in the as-written progress `Ratio` of the budget overview, where a zero budget gives 0/0. Sums over reals are exact, so the order in which a `reduce` adds its terms does not change the result; `Records.SumValues` adds from the front and the other sums from the back. Floating-point rounding is listed under "## Left out".

Where the documented behaviour of the system and the code disagree, the model follows the code:
- Deleting an unknown transaction id answers 204, not "not found" (`TransactionController.TransactionStore.DeleteTransaction`).
- A budget's month, year and amount are not range-checked (`BudgetController.NoRangeCheck`).

## Model

| member | source | states |
|---|---|---|
| Js.OrZero | my-app/src/components/BudgetSetter.tsx:25 | the logical-or fallback to 0 follows JavaScript truthiness: a falsy number gives 0 and any other number gives itself |
| Js.Falsy | server/controllers/budgetController.ts:47 | definition of `!v`: undefined, null, false, NaN, 0 and the empty string are falsy (no contract; used by Js.OrZero and GetBudgets) |
| Js.StringToNumber | server/controllers/budgetController.ts:9-11 | definition of `Number(s)` on a string (no contract; characterised by Js.NatRoundTrip) |
| Js.ToNumber | server/controllers/budgetController.ts:44-45 | definition of `Number(v)` on any request value (no contract; used by BudgetController.Validate and GetBudgets) |
| Js.NatToStringDigits | server/controllers/budgetController.ts:44-45 | the decimal rendering of a natural number consists of digits only, and its digit value is that number |
| Js.NatRoundTrip | server/controllers/budgetController.ts:44-45 | `Number` of the decimal rendering of n is n, and of "-" followed by it is -n: a month or year sent as a query string comes back as the same number |
| Categories.CategoryColor | my-app/src/utils/categoryUtils.ts:1-13 | a category gets a colour other than the grey default exactly when it is one of the offered categories, and then it gets its table entry |
| Categories.CategoriesShape | my-app/src/utils/categoryUtils.ts:15-24 | there are eight pairwise distinct categories and the first is "Income" |
| Domain.Abs | server/controllers/transactionController.ts:15-16 | `Math.abs` is non-negative and equals x or -x |
| Domain.MonthIndex | my-app/src/components/MonthlyBarChart.tsx:15-16 | `getMonth()` lies in 0..11 |
| Domain.RemoveId | my-app/src/App.tsx:29 | the filtered list is no longer than before |
| Domain.RemoveIdMembers | my-app/src/App.tsx:29 | the filtered list holds exactly the records whose id differs |
| Domain.RemoveIdAppend | my-app/src/App.tsx:29 | filtering a concatenation filters each part |
| Domain.FindId | server/controllers/transactionController.ts:39 | the record found by id has that id; when none is found, no record has it |
| Domain.RemoveIdKeepsUnique | server/controllers/transactionController.ts:34 | removal by id keeps ids unique |
| Domain.RemoveAbsentId | server/controllers/transactionController.ts:34-35 | removing an id no record has changes nothing |
| Domain.CutOut | server/controllers/transactionController.ts:34 | removing the id of a record whose neighbours keep theirs leaves exactly the neighbours, in order |
| Domain.RemoveUniqueId | server/controllers/transactionController.ts:34 | with unique ids, removing the id of record k drops exactly that record and keeps the order of the rest |
| Records.Lookup | my-app/src/components/SpendingInsights.tsx:20 | definition of the lookup `budgets[cat]` with the logical-or fallback to 0, also at BudgetComparisonChart.tsx:23 and BudgetSetter.tsx:36 and 58 (no contract; see Records.SumValuesAsLookups and BudgetSetter.PostedTotalIsLookups) |
| Records.Get | my-app/src/components/SpendingInsights.tsx:20 | `r[k]` is defined exactly when the key is present, and then it is that key's entry |
| Records.Set | my-app/src/components/BudgetSetter.tsx:25 | after `{...r, [k]: v}` the key holds v and every other key is unchanged |
| Records.SetMembers | my-app/src/components/BudgetSetter.tsx:25 | the update invents no entry other than the one for k |
| Records.SetKeepsUnique | my-app/src/components/BudgetSetter.tsx:25 | the update keeps the keys unique |
| Records.SumAfterSet | my-app/src/components/BudgetSetter.tsx:73 | setting one key changes the sum of the values by exactly the change of that key's value |
| TransactionController.FinalAmount | server/controllers/transactionController.ts:13-16 | an expense category gives a non-positive amount, any other a non-negative one, and the magnitude is kept |
| TransactionController.FinalAmountIdempotent | server/controllers/transactionController.ts:13-16 | applying the sign rule twice is applying it once |
| TransactionController.OfferedCategoriesOutsideExpenseSet | server/controllers/transactionController.ts:13 | the offered categories outside the expense set are Income, Housing, Transport and Healthcare, stored as the magnitude of the amount; "Travel" is in the expense set but never offered |
| TransactionController.RequestFinalAmount | server/controllers/transactionController.ts:11-16 | on the raw request value the result is a number exactly when `Number(amount)` is, and then it is the sign rule applied to it |
| TransactionController.ApplyPatch | server/controllers/transactionController.ts:39 | an update never changes the record's id |
| TransactionController.UpdateBypassesSignRule | server/controllers/transactionController.ts:38-41 | an update stores a positive amount in an expense category unchanged, although the sign rule would negate it |
| TransactionController.InsertByDate | server/controllers/transactionController.ts:5 | inserting into a newest-first list keeps it newest-first and adds exactly the one record |
| TransactionController.ConsNewestFirst | server/controllers/transactionController.ts:5 | a record no older than any record of a newest-first list can go in front of it |
| TransactionController.HeadBoundsAll | server/controllers/transactionController.ts:5 | in a newest-first list, a date no older than the head is no older than any record |
| TransactionController.TransactionStore.GetTransactions | server/controllers/transactionController.ts:4-7 | the answer is every record, as a permutation, sorted newest first |
| TransactionController.TransactionStore.AddTransaction | server/controllers/transactionController.ts:9-30 | a storable body gives 201 with a new record carrying the signed amount, appended to the store; any other body gives 400 and no change; ids stay unique; a created record is sign-normalised |
| TransactionController.TransactionStore.DeleteTransaction | server/controllers/transactionController.ts:33-36 | the answer is always 204; the store loses exactly the records with that id, one record when it exists and none otherwise |
| TransactionController.TransactionStore.UpdateTransaction | server/controllers/transactionController.ts:38-41 | the record with that id is replaced by the patched record and returned; with no such record the answer is null and nothing changes |
| BudgetController.Coerce | server/controllers/budgetController.ts:9-11 | no field is left a string; a string or number field becomes `Number` of it, and any other field passes through |
| BudgetController.Validate | server/controllers/budgetController.ts:8-21 | a body passes exactly when the category is a string and amount, month and year are each a number or a string whose `Number` is not NaN; null, booleans and objects are refused; the budget then holds `Number` of each field |
| BudgetController.ValidateRendered | server/controllers/budgetController.ts:8-21 | amount, month and year sent as decimal strings are read back as exactly those numbers |
| BudgetController.NoRangeCheck | server/controllers/budgetController.ts:13-21 | any numeric month, year and amount are accepted, including out-of-range ones |
| BudgetController.FindKey | server/controllers/budgetController.ts:23 | `findOne` returns the first record with the same key, or none when no record has it |
| BudgetController.Upsert | server/controllers/budgetController.ts:23-33 | definition of the store after a save (no contract; its effect is stated by BudgetController.UpsertEffect) |
| BudgetController.UpsertEffect | server/controllers/budgetController.ts:23-32 | an existing key has only its amount overwritten, with the count and other records unchanged; a new key appends one record; unique keys stay unique |
| BudgetController.TwoPostsOneRecord | server/controllers/budgetController.ts:23-32 | posting the same key twice leaves exactly one record with that key, holding the later amount |
| BudgetController.OfPeriod | server/controllers/budgetController.ts:51 | `find({month, year})` returns exactly the records of that period |
| BudgetController.BudgetStore.SetBudget | server/controllers/budgetController.ts:5-36 | an invalid body gives 400 and no change; a valid body with an empty category, which the schema's required string refuses on save (server/models/Budget.ts:4), gives 500 and no change; any other valid body is upserted and returned; unique keys stay unique |
| BudgetController.BudgetStore.GetBudgets | server/controllers/budgetController.ts:39-56 | 400 exactly when month or year is missing, empty or NaN; otherwise exactly the stored budgets of that month and year |
| App.Balance | my-app/src/App.tsx:32 | definition of the balance card (no contract; see App.BalanceIsIncomeMinusExpenses) |
| App.Income | my-app/src/App.tsx:33 | definition of the income card (no contract; see App.IncomeAndExpensesNonNegative) |
| App.Expenses | my-app/src/App.tsx:34 | definition of the expenses card (no contract; see App.IncomeAndExpensesNonNegative) |
| App.Credits | my-app/src/App.tsx:33 | a transaction is kept exactly when it is in the list with a positive amount |
| App.Debits | my-app/src/App.tsx:34 | a transaction is kept exactly when it is in the list with a negative amount |
| App.IncomeAndExpensesNonNegative | my-app/src/App.tsx:33-34 | the income and expenses cards are never negative |
| App.BalanceIsIncomeMinusExpenses | my-app/src/App.tsx:32-34 | the balance equals income minus expenses |
| App.AppState.constructor | my-app/src/App.tsx:12-13 | the list starts empty and loading |
| App.AppState.Loaded | my-app/src/App.tsx:15-20 | the fetched list replaces the state and loading ends |
| App.AppState.HandleAdd | my-app/src/App.tsx:22-25 | the created record is put in front of the unchanged old list; a request that got no answer changes nothing |
| App.AppState.HandleDelete | my-app/src/App.tsx:27-30 | after the request, exactly the records with that id leave the list, in order |
| App.AppState.Totals | my-app/src/App.tsx:32-34 | the three cards satisfy balance = income − expenses, with income and expenses non-negative |
| MonthlyBarChart.MonthSum | my-app/src/components/MonthlyBarChart.tsx:13-17 | definition of one month's total, any year (no contract; see MonthlyBarChart.TwelveMonthsMakeBalance and YearIgnored) |
| MonthlyBarChart.BucketsBelow | my-app/src/components/MonthlyBarChart.tsx:24-25 | definition of the sorted map entries (no contract; see MonthlyBarChart.BucketsShape) |
| MonthlyBarChart.LabelsDistinct | my-app/src/components/MonthlyBarChart.tsx:20-29 | buckets in strictly ascending month order get pairwise different month names |
| MonthlyBarChart.SeriesLabelsDistinct | my-app/src/components/MonthlyBarChart.tsx:12-29 | no month name appears twice on the chart's axis |
| MonthlyBarChart.BucketsShape | my-app/src/components/MonthlyBarChart.tsx:12-25 | the series is strictly ascending by month, holds each occurring month exactly once, and each total is that month's sum |
| MonthlyBarChart.AbsentMonthSumsToZero | my-app/src/components/MonthlyBarChart.tsx:17 | a month with no transaction sums to 0 |
| MonthlyBarChart.TwelveMonthsMakeBalance | my-app/src/components/MonthlyBarChart.tsx:14-18 | the twelve monthly sums add up to the balance |
| MonthlyBarChart.SeriesTotalIsBalance | my-app/src/components/MonthlyBarChart.tsx:12-29 | the totals of the chart add up to the App's balance card |
| MonthlyBarChart.YearIgnored | my-app/src/components/MonthlyBarChart.tsx:15-17 | changing the year of a record changes no monthly sum |
| MonthlyBarChart.MonthlyData | my-app/src/components/MonthlyBarChart.tsx:12-29 | the map-building loop and the sort produce exactly the labelled ascending month series |
| CategoryPieChart.CategoryExpense | my-app/src/components/CategoryPieChart.tsx:13-17 | definition of one category's expense total (no contract; see CategoryPieChart.CategoryExpenseNonNegative and OrderTotalIsExpenses) |
| CategoryPieChart.ExpenseCategoryOrder | my-app/src/components/CategoryPieChart.tsx:11-19 | definition of the Map's key order (no contract; see CategoryPieChart.OrderFacts) |
| CategoryPieChart.PieSpec | my-app/src/components/CategoryPieChart.tsx:19 | definition of the chart data (no contract; see CategoryPieChart.PieProperties and PieData) |
| CategoryPieChart.CategoryExpenseNonNegative | my-app/src/components/CategoryPieChart.tsx:15 | a category's expense total is never negative |
| CategoryPieChart.OrderFacts | my-app/src/components/CategoryPieChart.tsx:11-19 | the listed categories are exactly those with a negative amount, without repeats; a listed one has a positive total and an unlisted one zero |
| CategoryPieChart.OrderTotalIsExpenses | my-app/src/components/CategoryPieChart.tsx:13-17 | the category totals add up to the App's expenses card |
| CategoryPieChart.PieProperties | my-app/src/components/CategoryPieChart.tsx:11-24 | the slices have distinct names and positive values, one per category with an expense, adding up to the expenses card; there are none exactly when no amount is negative |
| CategoryPieChart.PieData | my-app/src/components/CategoryPieChart.tsx:11-19 | the Map-building loop produces exactly the specified slices, in first-occurrence order |
| SpendingInsights.Spent | my-app/src/components/SpendingInsights.tsx:17-19 | definition of a category's spending this month (no contract; see SpendingInsights.SpentNonNegative) |
| SpendingInsights.SpentNonNegative | my-app/src/components/SpendingInsights.tsx:17-19 | a category's spending is never negative |
| SpendingInsights.Max0 | my-app/src/components/SpendingInsights.tsx:29-30 | `Math.max(0, x)` is non-negative, at least x, and either 0 or x |
| SpendingInsights.MakeInsight | my-app/src/components/SpendingInsights.tsx:17-31 | over budget exactly when spent exceeds the budget; remaining and overage are non-negative, one of them is 0, and remaining − overage = budget − spent; the percentage times a positive budget is spent×100, and 0 for a budget that is not positive |
| SpendingInsights.Insights | my-app/src/components/SpendingInsights.tsx:16-32 | one consistent insight per offered category, in list order |
| SpendingInsights.OverBudget | my-app/src/components/SpendingInsights.tsx:34 | exactly the over-budget insights |
| SpendingInsights.UnderBudget | my-app/src/components/SpendingInsights.tsx:35 | exactly the insights that are not over budget and have a positive budget |
| SpendingInsights.ListsDisjoint | my-app/src/components/SpendingInsights.tsx:34-35 | no insight is on both lists; a category with no budget and no spending is on neither |
| SpendingInsights.TotalOverage | my-app/src/components/SpendingInsights.tsx:36 | definition of the total overage card (no contract; see SpendingInsights.TotalsCoverAll) |
| SpendingInsights.TotalSavings | my-app/src/components/SpendingInsights.tsx:37 | definition of the total savings card (no contract; see SpendingInsights.TotalsCoverAll) |
| SpendingInsights.TotalsCoverAll | my-app/src/components/SpendingInsights.tsx:36-37 | the two totals are non-negative, lose nothing to filtering, and savings − overage is the total budget minus the total spent |
| SpendingInsights.InsightColor | my-app/src/components/SpendingInsights.tsx:39-44 | definition of `getInsightColor` (no contract; see SpendingInsights.ClassifiersAgree) |
| SpendingInsights.InsightIcon | my-app/src/components/SpendingInsights.tsx:46-51 | definition of `getInsightIcon` (no contract; see SpendingInsights.ClassifiersAgree) |
| SpendingInsights.ProgressBarColor | my-app/src/components/SpendingInsights.tsx:53-58 | definition of `getProgressBarColor` (no contract; see SpendingInsights.ClassifiersAgree) |
| SpendingInsights.CardBorderColor | my-app/src/components/SpendingInsights.tsx:60-65 | definition of `getCardBorderColor` (no contract; see SpendingInsights.ClassifiersAgree) |
| SpendingInsights.ClassifiersAgree | my-app/src/components/SpendingInsights.tsx:39-65 | the colour, icon, bar colour and border classifiers all pick the same band for a percentage |
| SpendingInsights.BandMonotone | my-app/src/components/SpendingInsights.tsx:39-44 | a higher percentage never gives a milder band |
| SpendingInsights.RedBandIsBudgetReached | my-app/src/components/SpendingInsights.tsx:21-44 | with a positive budget the red band means spent ≥ budget, and every over-budget insight is red |
| SpendingInsights.BarWidth | my-app/src/components/SpendingInsights.tsx:170 | the bar width is at most 100, equals the percentage below 100, and is non-negative for a non-negative percentage |
| SpendingInsights.OverspendExample | my-app/src/components/SpendingInsights.tsx:16-31 | for one Food outflow of 1200 this month and a Food budget of 1000, in any month and year, the Food insight shows 1200 spent, over budget by 200 at 120 percent with nothing remaining, in the red band |
| SpendingInsights.NonExpenseCategoriesNeverSpent | my-app/src/components/SpendingInsights.tsx:17-19 | when every record went through the server's sign rule, Income, Housing, Transport and Healthcare never show spending |
| BudgetComparisonChart.ChartSpent | my-app/src/components/BudgetComparisonChart.tsx:18-20 | definition of a row's spending (no contract; see BudgetComparisonChart.SpentAgrees) |
| BudgetComparisonChart.TotalBudget | my-app/src/components/BudgetComparisonChart.tsx:30 | definition of the total budget card (no contract; see BudgetComparisonChart.TotalBudgetCountsOtherKeys) |
| BudgetComparisonChart.TotalSpent | my-app/src/components/BudgetComparisonChart.tsx:31 | definition of the total spent card (no contract; see BudgetComparisonChart.TotalSpentBounds) |
| BudgetComparisonChart.OverBudgetCount | my-app/src/components/BudgetComparisonChart.tsx:32 | definition of the over-budget count (no contract; see BudgetComparisonChart.OverBudgetCountAgrees) |
| BudgetComparisonChart.SpentAgrees | my-app/src/components/BudgetComparisonChart.tsx:18-20 | the chart's spending equals the insights panel's spending for every input |
| BudgetComparisonChart.MakeRow | my-app/src/components/BudgetComparisonChart.tsx:18-27 | a row's budget, spending, remaining amount and over-budget flag equal the insight of the same category |
| BudgetComparisonChart.ChartRows | my-app/src/components/BudgetComparisonChart.tsx:17-28 | one row per offered category, in order; `Budgeted` is the map value or 0, and each row agrees with the insight at the same position |
| Records.SumValuesAsLookups | my-app/src/components/BudgetComparisonChart.tsx:30 | a map whose keys all lie in a repeat-free list sums to the lookups over that list |
| Records.OtherKeysMembers | my-app/src/components/BudgetComparisonChart.tsx:30 | the entries kept as "other keys" are exactly those whose key is not in the list |
| Records.SumValuesSplit | my-app/src/components/BudgetComparisonChart.tsx:23-30 | the values of a repeat-free map are the lookups over a repeat-free key list plus the values under keys outside it |
| BudgetComparisonChart.RowBudgetsAsLookups | my-app/src/components/BudgetComparisonChart.tsx:23-30 | rows that carry the budgets of a key list add up to the lookups over that list |
| BudgetComparisonChart.TotalBudgetOfCategoryKeys | my-app/src/components/BudgetComparisonChart.tsx:23-30 | when every key is an offered category, the total budget is the sum of the rows' budgets |
| BudgetComparisonChart.TotalBudgetCountsOtherKeys | my-app/src/components/BudgetComparisonChart.tsx:23-30 | for every budget map, the total budget is the sum of the rows' budgets plus the values under keys that are not offered categories, which appear in no row |
| BudgetComparisonChart.TotalSpentAsSpentOver | my-app/src/components/BudgetComparisonChart.tsx:31 | rows that carry the spending of a category list add up to the spending over that list |
| BudgetComparisonChart.SpentOverAtMostExpenses | my-app/src/components/BudgetComparisonChart.tsx:18-31 | spending summed over distinct categories is between 0 and the expenses card |
| BudgetComparisonChart.TotalSpentBounds | my-app/src/components/BudgetComparisonChart.tsx:31 | the total spent is the sum of the categories' spending, non-negative, and never above the App's expenses card |
| BudgetComparisonChart.CountMatchesOverBudgetList | my-app/src/components/BudgetComparisonChart.tsx:32 | rows and insights with the same flags give the same over-budget count |
| BudgetComparisonChart.OverBudgetCountAgrees | my-app/src/components/BudgetComparisonChart.tsx:32 | the over-budget count equals the length of the insights panel's over-budget list, and is at most eight |
| BudgetComparisonChart.ProgressPercent | my-app/src/components/BudgetComparisonChart.tsx:172 | with a non-zero budget, the percentage times the budget is spent×100 |
| BudgetComparisonChart.ProgressAsWritten | my-app/src/components/BudgetComparisonChart.tsx:172-179 | the unguarded division is finite exactly for a non-zero budget; a zero budget gives NaN with no spending and Infinity with some |
| BudgetComparisonChart.BarWidthAsWritten | my-app/src/components/BudgetComparisonChart.tsx:179 | definition of `Math.min(100, progress)` on the unguarded ratio: NaN stays NaN and Infinity fills the bar (no contract; see BudgetComparisonChart.ZeroBudgetProgress) |
| BudgetComparisonChart.ZeroBudgetProgress | my-app/src/components/BudgetComparisonChart.tsx:172-179 | budget 0 with spent 0 shows NaN; budget 0 with spent 50 shows Infinity and a full bar |
| BudgetComparisonChart.Progress | my-app/src/components/BudgetComparisonChart.tsx:172 | the guarded progress equals the division for a positive budget, is 0 otherwise, and is non-negative |
| BudgetComparisonChart.RowBarWidth | my-app/src/components/BudgetComparisonChart.tsx:179 | the bar width lies between 0 and 100, and is 100 once spending reaches a positive budget |
| BudgetComparisonChart.ProgressMatchesInsight | my-app/src/components/BudgetComparisonChart.tsx:172 | each row's guarded progress is the insight's percentage |
| BudgetSetter.PostsForSnoc | my-app/src/components/BudgetSetter.tsx:57-59 | one more category appends exactly its POST |
| BudgetSetter.ReportsForSnoc | my-app/src/components/BudgetSetter.tsx:58-60 | one more category appends exactly its report |
| BudgetSetter.PostedTotalIsLookups | my-app/src/components/BudgetSetter.tsx:56-59 | the POSTs for a key list carry in total the lookups over that list |
| BudgetSetter.FullSavePostsTotalBudget | my-app/src/components/BudgetSetter.tsx:54-73 | saving all budgets posts in total the editor's Total Budget less the values under keys that are not offered categories, and exactly the Total Budget when every key is offered |
| BudgetSetter.AllCategories | my-app/src/components/BudgetSetter.tsx:62 | `new Set(categories)` holds exactly the offered categories and has as many elements as the list |
| Categories.DistinctCount | my-app/src/utils/categoryUtils.ts:15-24 | a list without repeats gives a set as large as the list |
| BudgetSetter.BudgetSettings.TotalBudget | my-app/src/components/BudgetSetter.tsx:73 | definition of the editor's Total Budget, the sum of every value of the edited map (no contract; see Records.SumAfterSet, BudgetSetter.BudgetSettings.HandleChange and BudgetSetter.FullSavePostsTotalBudget) |
| BudgetSetter.BudgetSettings.constructor | my-app/src/components/BudgetSetter.tsx:16-18 | the edited map starts as the prop, nothing is being saved, and nothing is marked saved |
| BudgetSetter.BudgetSettings.HandleChange | my-app/src/components/BudgetSetter.tsx:24-31 | the category's entry becomes `Number(value)`, or 0 when that is NaN, and other entries stay; only that category loses its saved mark; the total moves by exactly the entry's change |
| BudgetSetter.BudgetSettings.SaveBudget | my-app/src/components/BudgetSetter.tsx:33-52 | one POST with the category's amount; on success it is reported and marked saved, on failure nothing else changes; `saving` ends null |
| BudgetSetter.BudgetSettings.SaveAllBudgets | my-app/src/components/BudgetSetter.tsx:54-71 | the categories are posted and reported in list order; a full run marks all saved; a failure stops after the failed POST with the earlier ones reported and the saved marks unchanged; `saving` ends null |
| BudgetSetter.ChangeThenSave | my-app/src/components/BudgetSetter.tsx:24-39 | editing a category and then saving it reports the parsed amount and marks the category saved |
| TransactionForm.ClientFinalAmount | my-app/src/components/TransactionForm.tsx:21-23 | the signed amount is finite exactly when the parsed amount is; it is non-positive for an expense category and non-negative otherwise |
| TransactionForm.ClientMatchesServer | my-app/src/components/TransactionForm.tsx:11-23 | the client's expense set is the server's, the client's sign equals the server's for every amount and category, and the server leaves a client-signed amount unchanged |
| TransactionForm.Form.constructor | my-app/src/components/TransactionForm.tsx:10-15 | the fields start empty, the category is "Food", and nothing is being submitted |
| TransactionForm.Form.BeginSubmit | my-app/src/components/TransactionForm.tsx:17-23 | an empty description, amount or date rejects the submit with no change; otherwise submitting starts and the payload holds the fields with the signed amount |
| TransactionForm.Form.FinishSubmit | my-app/src/components/TransactionForm.tsx:25-30 | the payload is passed on, the fields reset to "" with category "Food", and submitting ends |
| TransactionForm.Form.HandleSubmit | my-app/src/components/TransactionForm.tsx:17-31 | a guarded submit passes on exactly one payload and resets the form; a rejected one changes nothing |

## Left out

- Rendering (JSX, class names inside markup, `toLocaleString`, `toFixed`), the loading spinner, the list and summary components, and the Express routing and app setup: none of them computes anything the model needs.
- The network (`my-app/src/lib/api.ts`, the axios posts in BudgetSetter) is not modelled as I/O. A call's outcome is a parameter: `HandleAdd` takes the created record or none, `HandleDelete` takes whether the request completed, `SaveBudget` takes whether the POST succeeded, and `SaveAllBudgets` takes the position of the first failing POST. Requests are recorded in logs (`posts`, `reports`, `submitted`).
- The database: MongoDB ids are modelled as naturals handed out by the store, and a collection as a sequence. The schema refusals that depend only on the request are modelled: for transactions, an empty description or category, a missing date or a NaN amount answers 400 (`TransactionController.Storable`); for budgets, an empty category answers 500 (`BudgetController.SchemaAccepts`). Other database and server errors (connection failures, cast errors for malformed ids) are not modelled.
- `new Date()` in SpendingInsights, BudgetComparisonChart and BudgetSetter: the current month and year are parameters. The source reads the clock at two different times: BudgetComparisonChart (lines 13-14) and BudgetSetter (lines 5-6) compute the month and year once, when their module is loaded, while SpendingInsights (lines 13-14) reads them again on every render. A page left open across a month boundary therefore shows insights for the new month, the comparison chart for the old one, and BudgetSetter keeps posting budgets for the old month. The model gives every panel one `month` and `year`, so the agreement lemmas (`BudgetComparisonChart.SpentAgrees`, `OverBudgetCountAgrees`, `ProgressMatchesInsight`) hold only for a single clock reading, which is the case until the month changes after the page was loaded. Parsing of date strings, time zones and the timestamps the schemas add are not modelled; a date is a (year, month, day) value.
- Floating point: amounts are exact reals, so sums are not rounded. Negative zero and infinities are not modelled, except for the explicit `Ratio` result of the unguarded division in the budget overview.
- Js.StringToNumber covers the empty string, an optional sign, digits and an optional fraction. It does not cover surrounding whitespace, exponents, "5." or ".5", "Infinity", or hexadecimal and binary literals; the model reads all of these as NaN.
- `Number` of arrays and other objects (query parameters given twice) is modelled as NaN, without JavaScript's conversion to a primitive first.
- Categories.CategoryColor: keys inherited from `Object.prototype` (such as "toString") are not modelled; the table holds only the eight categories.
- Records: JavaScript orders integer-like keys before other keys. The model keeps pure insertion order, which matches every key the app uses.
- The timers (`setTimeout`) that clear the saved marks after two seconds, and the 300 ms delay in the form, are not modelled. The form's delay is where `BeginSubmit` ends and `FinishSubmit` starts.
- The effect that resets the budget editor's map when the `budgets` prop changes (BudgetSetter lines 20-22), React re-render timing, and races between concurrent requests or clients are not modelled.
- The order among transactions with equal dates in `GET /api/transactions` is not fixed by the source; the model states only the newest-first order and the permutation.
- TransactionController.TransactionStore.UpdateTransaction: the update body is a patch of the four known fields. Unknown fields, `_id` changes and Mongoose casting of the values are not modelled.
- BudgetController.Validate: `Infinity` passes the source's `isNaN` check, but the model has no infinite numbers.
- App.AppState.HandleAdd: `addTransaction` resolves on any HTTP answer, so on a 400 or 500 the `{ error }` body would be put in front of the list as if it were a transaction, and the cards would then read NaN. The model's list holds transactions only, so this case is not modelled; `None` stands for a request that got no answer.
- The JSON encoding of NaN as `null` when the form's payload travels to the server is not modelled.
- SpendingInsights.InsightIcon: the icons are the characters the source file holds. These are each emoji's UTF-8 bytes read as Mac Roman.

## Findings

| source | as written | input that shows it | evidently intended | confidence | as-written member | corrected member |
|---|---|---|---|---|---|---|
| my-app/src/components/BudgetComparisonChart.tsx:172-179 | the progress is `(Spent / Budgeted) * 100` with no guard for a zero budget | a category with no budget: spent 0 gives "NaN%", spent 50 gives "Infinity%" and a full bar | the guard the insights panel uses: 0 percent when the budget is not positive, so the bar width stays between 0 and 100 | not executed | BudgetComparisonChart.ProgressAsWritten (counterexample: BudgetComparisonChart.ZeroBudgetProgress) | BudgetComparisonChart.Progress (with BudgetComparisonChart.RowBarWidth and BudgetComparisonChart.ProgressMatchesInsight) |

# softnova-wallet, modelled in Dafny

softnova-wallet is a small personal-finance web application. Users record expenses and incomes, group them into categories and labels, and set weekly, monthly or yearly budgets. A dashboard then shows totals, period-over-period change, budget utilisation and a spending chart.

This project models the rules behind those screens:

- the dashboard's aggregation: windows, totals, change, budget groups and their spent values, alerts, chart rows and the five most recent records;
- the list, create and upload API handlers;
- the budget overview and budgets list widgets;
- the expense form's receipt and label logic;
- the query-forwarding hooks and the income filter bar;
- the category seeds with their slug ids;
- the icon table;
- the navigation active-path rule;
- the settings tabs' hash handling.

Each source file becomes one Dafny module. A file that updates state step by step becomes methods with loops or a class with `modifies` clauses. Pure expressions become functions with lemmas.

Shared modules:

| module | what it holds |
|---|---|
| `Wrappers` | Option and Result |
| `JsString` | JavaScript string operations on `seq<char>`: trim, `replace` of one character, ASCII `toLowerCase`, `includes` |
| `Finance` | the stored entities |
| `Utilisation` | `spent / amount * 100`, including the Infinity and NaN a zero amount gives |
| `Paging` | `parseInt(... \|\| default)`, `skip`/`take` and `Math.ceil(total / limit)` |
| `SearchParams` | `URLSearchParams` as an ordered list of entries |
| `CategoryStore` | the slug function and the category table that both seed scripts upsert into |

How the environment is represented:

- Time is an integer timestamp.
- The date-fns windows arrive as a `Calendar` record.
- `parseISO`, `new Date(s)`, `toISOString` and `parseFloat` are function parameters.
- The signed-in user is an optional id.
- The image host's answer is an input.

## Model

| member | source | states |
|---|---|---|
| Finance.BudgetsOfMembers | src/app/api/dashboard/route.ts:130-137 | the budgets read are exactly the store's budgets of the caller |
| Utilisation.Percentage | src/app/api/dashboard/route.ts:260 | for a non-zero amount the percentage times the amount is 100 times spent; a zero amount gives +Infinity, NaN or -Infinity by the sign of spent |
| Utilisation.CapAt100 | src/components/budget-overview.tsx:93 | the progress value never exceeds 100; it is exactly 100 from 100% on, the percentage below that, and NaN stays NaN |
| Utilisation.OverAndWarningExclusive | src/components/budget-overview.tsx:64-65 | no budget is both over budget and in warning |
| Utilisation.AttentionIsOverOrWarning | src/components/budget-overview.tsx:103 | a budget reaches 80% exactly when it is over budget or in warning |
| Utilisation.StatusOf | src/components/budget-overview.tsx:96-100 | the colour state is Over iff at least 100%, Warning iff in [80%, 100%), Normal iff below 80% (NaN included) |
| Utilisation.ThresholdsForPositiveAmount | src/components/budgets-list.tsx:125-127 | for a positive amount: over iff spent >= amount; alert iff spent >= 4/5 of the amount |
| Utilisation.AlertExamples | src/app/api/dashboard/route.ts:260-264 | 800 of 1000 is a warning and an alert, 799 is not an alert, 1200 is over |
| Paging.ParamOr | src/app/api/expenses/route.ts:30-31 | a parameter that is not given takes the default; a given one is used as parsed |
| Paging.TotalPages | src/app/api/expenses/route.ts:85 | with a positive limit, the page count n satisfies (n-1)*limit < total <= n*limit; limit 0 gives Infinity or NaN; a negative limit gives a non-positive count |
| Paging.PageOfIndex | src/app/api/expenses/route.ts:73-74 | with a positive limit, every row index lies on exactly one page, and that page is within the page count |
| Paging.PageOf | src/app/api/expenses/route.ts:73-74 | `skip`/`take` returns row skip+k at position k, and as many rows as remain up to `take` |
| Identity.FullName | src/app/api/expenses/route.ts:118 | without first and last name the trimmed full name is empty |
| JsString.Trim | src/components/expense-form.tsx:142 | the result is the input with an all-white-space prefix and suffix cut off, has no white space at either end, and is empty iff the input is all white space |
| JsString.RemoveFirst | src/components/settings-tabs.tsx:22 | the input is unchanged when the character is absent; otherwise exactly its first occurrence is removed and the rest kept in order |
| JsString.Lower | src/lib/seed-categories.ts:17 | same length, every character mapped by ASCII lower-casing |
| DashboardTotals.ResolveWindows | src/app/api/dashboard/route.ts:36-53 | the four reassigned bounds equal the windows the range selects |
| DashboardTotals.WindowSelection | src/app/api/dashboard/route.ts:29-53 | missing, empty, "monthly" or any unknown range gives this month vs last month; "yearly" gives this year vs last year; "custom" with both bounds uses them against [epoch, epoch], otherwise the monthly windows |
| DashboardTotals.AggregateSum | src/app/api/dashboard/route.ts:84-86 | `_sum.amount` is null iff no row matches, otherwise the sum |
| DashboardTotals.AggregateOrZeroIsSum | src/app/api/dashboard/route.ts:286-287 | `_sum.amount \|\| 0` is the sum of the matching rows, 0 for none |
| DashboardTotals.MatchingMembers | src/app/api/dashboard/route.ts:76-83 | the rows aggregated are exactly the caller's rows dated inside the window (and in the category, when one is given) |
| DashboardTotals.TotalAppend | src/app/api/dashboard/route.ts:76-88 | a new row adds its amount to the total iff it is the caller's and inside the window |
| DashboardTotals.TotalIgnoresOtherUsers | src/app/api/dashboard/route.ts:78 | rows of other users never change a total |
| DashboardTotals.BoundariesIncluded | src/app/api/dashboard/route.ts:79-82 | a row dated exactly on either bound is counted |
| DashboardTotals.OutsideExcluded | src/app/api/dashboard/route.ts:79-82 | a row dated outside the window is not counted |
| DashboardTotals.CategoryAtMostTotal | src/app/api/dashboard/route.ts:228-236 | with positive amounts a category-filtered aggregate never exceeds the unfiltered one |
| DashboardTotals.Change | src/app/api/dashboard/route.ts:290-304 | 0 when the previous total is not positive; otherwise current = previous * (1 + change/100), and the sign of the change is the sign of current - previous |
| DashboardTotals.CustomRangeComparesWithEpoch | src/app/api/dashboard/route.ts:46-52 | when no record of the caller is dated at the epoch, a custom range's comparison total is 0 and its change is 0 |
| DashboardTotals.EpochRowGivesCustomChange | src/app/api/dashboard/route.ts:51-52 | a record dated exactly at the epoch does give a custom range a non-zero change (10 before, 20 now: +100%) |
| DashboardBudgets.GroupKeyInjective | src/app/api/dashboard/route.ts:194 | for schema periods, two budgets share a key iff they have the same period and the same `categoryId \|\| 'all'` |
| DashboardBudgets.AllCategoryJoinsOverall | src/app/api/dashboard/route.ts:194 | a budget on a category whose id is "all" shares its key with the overall budget of its period |
| DashboardBudgets.WithKeyMembers | src/app/api/dashboard/route.ts:193-199 | a group holds exactly the budgets carrying its key |
| DashboardBudgets.DistinctKeysMembers | src/app/api/dashboard/route.ts:193-199 | a key is in the map iff some budget carries it |
| DashboardBudgets.DistinctKeysNoDuplicates | src/app/api/dashboard/route.ts:195-197 | no key is inserted twice |
| DashboardBudgets.FirstWithKey | src/app/api/dashboard/route.ts:203 | the group's first budget is one of the budgets and carries the group's key |
| DashboardBudgets.FirstWithKeyIsEarliest | src/app/api/dashboard/route.ts:203 | the first budget of a group is the earliest budget with that key |
| DashboardBudgets.GroupBudgets | src/app/api/dashboard/route.ts:191-199 | the Map's keys are the distinct keys in insertion order, and each entry holds that key's budgets in budget order |
| DashboardBudgets.SharedKeySharesSpent | src/app/api/dashboard/route.ts:248-254 | budgets with the same key receive the same spent value |
| DashboardBudgets.SharingMatchesIndependentQueries | src/app/api/dashboard/route.ts:207-240 | for schema periods and no category named "all", sharing one query per group gives each budget the aggregate its own period and category would give |
| DashboardBudgets.OverallSpentIsTotal | src/app/api/dashboard/route.ts:235 | an overall budget's spent is the total of the caller's expenses over its period window |
| DashboardBudgets.AssignGroup | src/app/api/dashboard/route.ts:251-253 | every member id gets the group's spent; every other id keeps its value |
| DashboardBudgets.ComputeSpent | src/app/api/dashboard/route.ts:247-254 | with unique budget ids, the map gives every budget the spent value of its group |
| DashboardBudgets.CountAttention | src/app/api/dashboard/route.ts:256-264 | the alert count is at most the number of budgets, and 0 iff no budget reaches 80% |
| DashboardBudgets.AlertsAreOverPlusWarning | src/app/api/dashboard/route.ts:262-264 | the alert count is the number of over-budget budgets plus the number in warning |
| DashboardBudgets.AttachSpent | src/app/api/dashboard/route.ts:256-271 | one output per budget, in order, with `map.get(id) \|\| 0` as spent; the counter equals the number at or above 80% |
| DashboardChart.CategoryIdsSpec | src/app/api/dashboard/route.ts:170-171 | the groupBy has one row per category present, each category once |
| DashboardChart.CategoryTotalIsFilteredSum | src/app/api/dashboard/route.ts:170-182 | a category's groupBy sum equals the aggregate filtered on that category |
| DashboardChart.GroupByCategorySpec | src/app/api/dashboard/route.ts:170-182 | the rows have distinct categories; a row exists iff some selected expense has that category; each row's sum is that category's aggregate |
| DashboardChart.FindExpenseCategory | src/app/api/dashboard/route.ts:184-186 | a category found is an EXPENSE category with the row's id; none is found iff no EXPENSE category has that id |
| DashboardChart.ChartEntryFor | src/app/api/dashboard/route.ts:275-282 | a found EXPENSE category's non-empty name and colour are used; with no such category, or an empty name or colour, "Unknown" and "#2ECC71" take their place; the value is the sum, or 0 for null |
| DashboardChart.ChartData | src/app/api/dashboard/route.ts:273-284 | one entry per groupBy row, in the same order |
| DashboardChart.CategoryTotalsAddUp | src/app/api/dashboard/route.ts:170-182 | adding the per-category totals gives the plain sum |
| DashboardChart.ChartAddsUpToTotal | src/app/api/dashboard/route.ts:273-286 | the chart's values add up to the period's expense total |
| DashboardRecent.TakeLatestLength | src/app/api/dashboard/route.ts:143 | `take: 5` gives 5 rows, or all of them when there are fewer |
| DashboardRecent.TakeLatestFrom | src/app/api/dashboard/route.ts:139-146 | the rows taken are a sub-multiset of the rows |
| DashboardRecent.TakeLatestNewestFirst | src/app/api/dashboard/route.ts:144-146 | the rows taken are ordered by date, newest first |
| DashboardRecent.TakeLatestNoneNewerLeft | src/app/api/dashboard/route.ts:143-146 | no row left out is newer than any row taken |
| DashboardRecent.OwnedByMembers | src/app/api/dashboard/route.ts:140-142 | the rows considered are exactly the caller's |
| DashboardRecent.RecentSpec | src/app/api/dashboard/route.ts:139-168 | five of the caller's rows, fewer only when there are fewer; newest first; none newer left out |
| Dashboard.Get | src/app/api/dashboard/route.ts:20-337 | 401 without a user; otherwise the payload built from the selected windows' totals and changes, the budgets with their group's spent and the alert count, the chart, the recent lists and the meta window |
| Dashboard.NetBalanceIsIncomeMinusExpenses | src/app/api/dashboard/route.ts:306 | the net balance is the current income total minus the current expense total |
| Dashboard.ChartMatchesExpenseStat | src/app/api/dashboard/route.ts:273-317 | the chart's values add up to the expense statistic |
| Dashboard.BudgetsInPayload | src/app/api/dashboard/route.ts:256-271 | every budget returned is one of the caller's, all of them are returned, and the alert count is over-budget plus warning |
| Dashboard.BudgetSpentIsOwnAggregate | src/app/api/dashboard/route.ts:189-259 | with schema periods and no category named "all", each budget's spent is its own period-and-category aggregate |
| BudgetOverview.SpentOrZero | src/components/budget-overview.tsx:62 | a missing spent reads as 0 |
| BudgetOverview.RowFor | src/components/budget-overview.tsx:61-113 | each row's colour state, capped progress and badge follow the utilisation thresholds: the badge shows iff over or warning; a non-empty category name and colour are the title and colour, with "Overall" and "#2ECC71" standing in for missing or empty ones |
| BudgetOverview.Render | src/components/budget-overview.tsx:26-61 | the empty state iff there are no budgets; otherwise one row per budget for the first min(4, n) budgets, in order |
| BudgetOverview.LaterBudgetsIgnored | src/components/budget-overview.tsx:61 | budgets after the fourth never change what is shown |
| BudgetsList.OfPeriodAppend | src/components/budgets-list.tsx:97-101 | a period's group keeps input order: filtering distributes over concatenation |
| BudgetsList.OfPeriodMultiplicity | src/components/budgets-list.tsx:97-101 | a group holds each budget of its period as often as the input does, and nothing else |
| BudgetsList.GroupPlacement | src/components/budgets-list.tsx:97-101 | a budget of a schema period appears in its own group only; one of any other period appears in none |
| BudgetsList.CardFor | src/components/budgets-list.tsx:124-249 | the card's status and progress follow the utilisation thresholds; over budget shows "Over by abs(remaining)", otherwise the remaining amount; a category's non-empty name and colour are the title and colour, and "Overall" and "#2ECC71" stand in for a missing category or an empty name or colour |
| BudgetsList.OverageIsExcess | src/components/budgets-list.tsx:128-248 | for a positive amount the overage shown is spent - amount, and a card not over shows a positive remainder |
| BudgetsList.Cards | src/components/budgets-list.tsx:124 | one card per budget of the group, in order |
| BudgetsList.RenderSpec | src/components/budgets-list.tsx:82-125 | the empty state iff there are no budgets; otherwise sections in weekly, monthly, yearly order, each non-empty, one per period present |
| BudgetsList.SectionPresent | src/components/budgets-list.tsx:114-115 | a period has a section iff its group is non-empty |
| BudgetsList.SectionsInOrder | src/components/budgets-list.tsx:112 | the sections come in weekly, monthly, yearly order, each period at most once |
| BudgetsList.GroupNonEmpty | src/components/budgets-list.tsx:97-115 | a group is non-empty iff some budget has that period |
| BudgetsRoute.ParseBody | src/app/api/budgets/route.ts:6-10 | the schema accepts iff the amount is a positive number and the period is one of the three; it keeps the fields |
| BudgetsRoute.NormalizedCategory | src/app/api/budgets/route.ts:57 | undefined, null and "" become null; any other string is kept |
| BudgetsRoute.EmptyCategoriesCollide | src/app/api/budgets/route.ts:57-72 | undefined, null and "" all occupy the overall budget's slot |
| BudgetsRoute.FindFirst | src/app/api/budgets/route.ts:53-59 | a found budget occupies the slot; none is found iff no budget occupies it |
| BudgetsRoute.BudgetStore.List | src/app/api/budgets/route.ts:12-32 | 401 iff no user; a signed-in caller always gets an answer, exactly the caller's budgets |
| BudgetsRoute.BudgetStore.Create | src/app/api/budgets/route.ts:42-96 | 401 without a user, 400 for a body the schema refuses, 400 when the (user, period, category) slot is taken; 500 when the category id names no category row; otherwise exactly one budget is appended; every refusal leaves the table unchanged; the store invariant (one budget per slot) is kept |
| BudgetsRoute.CreateTwice | src/app/api/budgets/route.ts:53-66 | a second identical create after a successful one is refused, and the table grows by at most one |
| ExpensesRoute.BuildWhere | src/app/api/expenses/route.ts:33-57 | the conditionally assigned `where` equals the filter the parameters describe |
| ExpensesRoute.WhereSelects | src/app/api/expenses/route.ts:33-57 | a row is selected iff it is the caller's, in the category if one is given, of the payee unless "all", in the date range when both bounds are given, and hits the search in description or payee |
| ExpensesRoute.AllPayeeIsNoFilter | src/app/api/expenses/route.ts:41-43 | payee "all" filters exactly as no payee |
| ExpensesRoute.OneDateBoundIgnored | src/app/api/expenses/route.ts:45-50 | with only one date bound, dates do not matter at all |
| ExpensesRoute.Get | src/app/api/expenses/route.ts:17-87 | 401 iff no user; a signed-in caller always gets a query: the filter, skip (page-1)*limit and take limit, with page 1 and limit 20 by default |
| ExpensesRoute.DefaultPage | src/app/api/expenses/route.ts:30-31 | without page and limit, the query skips 0 rows and takes 20 |
| ExpensesRoute.SelectedMembers | src/app/api/expenses/route.ts:60-61 | the rows selected are exactly the store's rows that the filter matches |
| ExpensesRoute.ExecuteSpec | src/app/api/expenses/route.ts:59-75 | a page holds at most `take` rows, all the caller's and all matching, newest first |
| ExpensesRoute.PaginationFor | src/app/api/expenses/route.ts:79-86 | page, limit and total are echoed back, and totalPages is `Math.ceil(total / limit)` |
| ExpensesRoute.ExpenseUserName | src/app/api/expenses/route.ts:118 | the name is the trimmed full name, else the first email address, else "Unknown"; never empty |
| ExpensesRoute.LabelLinks | src/app/api/expenses/route.ts:119-125 | no links without a label list, otherwise one per id |
| ExpensesRoute.Refusal | src/app/api/expenses/route.ts:99-107 | 401 iff no user id or no user; 400 iff a body the schema refuses; none otherwise |
| ExpensesRoute.CreateAsWritten | src/app/api/expenses/route.ts:97-135 | the handler as written: refused as above, otherwise an expense whose receipt public id is always missing |
| ExpensesRoute.CreateDropsReceiptPublicId | src/app/api/expenses/route.ts:7-15 | a body with a receipt url and a public id is stored with the url and without the public id |
| ExpensesRoute.Create | src/app/api/expenses/route.ts:109-117 | the corrected create: refused as above, otherwise an expense with the fresh id, the caller, the positive amount, the parsed date, the category, the payee (one of the partners), the label links and both receipt fields |
| ExpensesRoute.CreateDiffersOnlyInPublicId | src/app/api/expenses/route.ts:109-117 | the two creates succeed together and differ only in the receipt's public id |
| IncomesRoute.BuildWhere | src/app/api/incomes/route.ts:21-44 | the built `where`, its date object included, equals the filter the parameters describe |
| IncomesRoute.WhereSelects | src/app/api/incomes/route.ts:21-44 | a row is selected iff it is the caller's, in the category if given, no earlier than the start and no later than the end when each is given, and hits the search in description or source |
| IncomesRoute.StartDateAloneFilters | src/app/api/incomes/route.ts:29-33 | a start date alone already excludes the caller's earlier rows |
| IncomesRoute.Get | src/app/api/incomes/route.ts:5-57 | 401 iff no user; a signed-in caller always gets a query: the filter, skip and take, with page 1 and limit 50 by default |
| IncomesRoute.SelectedMembers | src/app/api/incomes/route.ts:46-56 | the rows found and counted are exactly the store rows the filter matches, no more than the store holds |
| IncomesRoute.PaginationFor | src/app/api/incomes/route.ts:59-66 | page, limit and total are echoed back, and totalPages is `Math.ceil(total / limit)` |
| IncomesRoute.DefaultPagination | src/app/api/incomes/route.ts:18-19 | without page and limit, the first page is asked for, pages hold 50 incomes, and the page count n satisfies (n-1)*50 < total <= n*50 |
| IncomesRoute.IncomeUserName | src/app/api/incomes/route.ts:104 | the trimmed full name, else "User"; never empty |
| IncomesRoute.Create | src/app/api/incomes/route.ts:77-111 | 401 iff no user id or no user; 400 for a falsy required field; a request past both checks succeeds iff description, source and categoryId are strings, and otherwise gets 500; a success is the income with the parsed amount and date and the string fields as sent |
| IncomesRoute.TruthinessOnly | src/app/api/incomes/route.ts:89 | the check is truthiness only: amount 0, "" or missing is refused; -5 and the string "0" pass |
| IncomeFilters.CountSet | src/components/income-filters.tsx:73 | the active-filter count is at most 4 |
| IncomeFilters.FilterQuery | src/components/income-filters.tsx:52-59 | the query has one entry per set filter |
| IncomeFilters.FilterQueryGet | src/components/income-filters.tsx:53-57 | reading the query back gives each set filter's value, dates as ISO strings, and nothing for any other name |
| IncomeFilters.FilterBar.constructor | src/components/income-filters.tsx:42-50 | the initial state comes from the page's query; dates are parsed only when present and non-empty; the sheet is closed |
| IncomeFilters.FilterBar.ActiveFilterCount | src/components/income-filters.tsx:73 | at most 4, and at least 1 when the category is the "all" sentinel |
| IncomeFilters.FilterBar.HasFilters | src/components/income-filters.tsx:72 | `hasFilters` holds iff the active-filter count is positive |
| IncomeFilters.FilterBar.ApplyFilters | src/components/income-filters.tsx:52-61 | pushes "/incomes" with exactly the set filters, closes the sheet, keeps the values |
| IncomeFilters.FilterBar.ClearFilters | src/components/income-filters.tsx:63-70 | empties all four values, pushes "/incomes" with no query, closes the sheet |
| IncomeFilters.FilterBar.OnMobileSearch | src/components/income-filters.tsx:283-291 | keeps the typed text and pushes it together with the other set filters, leaving the sheet as it was |
| SearchParams.Get | src/hooks/use-expenses.ts:23-27 | absent iff no entry has the name; otherwise the value of the first entry with that name |
| SearchParams.SetThenGet | src/hooks/use-expenses.ts:29-33 | after `set`, `get` of that name gives the new value, and every other name is unaffected |
| SearchParams.SetNewAppends | src/hooks/use-expenses.ts:29-33 | setting a name not yet present appends one entry at the end |
| SearchParams.SetWhen | src/hooks/use-expenses.ts:29-33 | a conditional `set` of a new name appends its entry when the value is kept, and nothing otherwise |
| UseExpenses.WithoutAll | src/hooks/use-expenses.ts:29-30 | forwarded iff present, non-empty and not "all", unchanged |
| UseExpenses.NonEmpty | src/hooks/use-expenses.ts:31-33 | forwarded iff present and non-empty, unchanged |
| UseExpenses.BuildParams | src/hooks/use-expenses.ts:22-33 | the built params are the kept entries in the order category, payee, start, end, search |
| UseExpenses.QueryParams | src/hooks/use-expenses.ts:22-33 | the params the hook builds from the page's query are the forwarded entries |
| UseExpenses.ForwardedGet | src/hooks/use-expenses.ts:23-33 | reading back: category and payee without the "all" sentinel, dates and search when non-empty; no page or limit |
| UseExpenses.AllCategoryNotFiltered | src/hooks/use-expenses.ts:29 | a page filtered on category "all" reaches the route with no category filter |
| UseExpenses.FetchExpenses | src/hooks/use-expenses.ts:21-41 | sends the forwarded params; an error iff the response is not ok, otherwise the body |
| UseIncomes.BuildParams | src/hooks/use-incomes.ts:22-31 | the built params are the kept entries in the order category, start, end, search |
| UseIncomes.QueryParams | src/hooks/use-incomes.ts:22-31 | the params the hook builds are the forwarded entries: category without "all", dates and search when non-empty |
| UseIncomes.ForwardedGet | src/hooks/use-incomes.ts:22-31 | reading back gives those four values; no payee, page or limit is ever sent |
| UseIncomes.StartDateReachesRoute | src/hooks/use-incomes.ts:29 | a start date alone reaches the income route as a lower bound only |
| UseIncomes.NonEmptyValuesForwarded | src/hooks/use-incomes.ts:28-31 | query values the filter bar pushes (never empty) arrive unchanged, except the "all" category |
| UseIncomes.FetchIncomes | src/hooks/use-incomes.ts:21-39 | sends the forwarded params; an error iff the response is not ok, otherwise the body |
| ExpenseForm.RemoveAll | src/components/expense-form.tsx:170 | the id is gone, every other id stays, and nothing is added |
| ExpenseForm.RemoveAllCounts | src/components/expense-form.tsx:170 | every other id keeps its number of occurrences |
| ExpenseForm.ToggleFlipsMembership | src/components/expense-form.tsx:165-175 | the toggled id changes membership; no other id does |
| ExpenseForm.TogglePresent | src/components/expense-form.tsx:167-171 | a selected id leaves with all its copies, and the others keep their order and counts |
| ExpenseForm.ToggleAbsent | src/components/expense-form.tsx:172-173 | an unselected id is appended at the end |
| ExpenseForm.ToggleTwiceRestores | src/components/expense-form.tsx:165-175 | toggling an unselected id twice gives back the original list |
| ExpenseForm.Normalize | src/components/expense-form.tsx:76-81 | `x \|\| undefined`: present iff a non-empty string, and then unchanged |
| ExpenseForm.ExistingReceipt | src/components/expense-form.tsx:76-81 | the starting receipt fields are never empty strings, and are both absent when creating |
| ExpenseForm.ResolveReceipt | src/components/expense-form.tsx:100-136 | abandoned iff a file was chosen and the upload failed; an upload gives its url and id; without a file an existing url keeps the existing receipt, otherwise both fields are cleared |
| ExpenseForm.NormalizeDescription | src/components/expense-form.tsx:142 | none iff missing or all white space; otherwise the trimmed, non-empty text |
| ExpenseForm.ExpenseDataFor | src/components/expense-form.tsx:138-145 | the submitted data carries the parsed amount, the ISO date, the resolved receipt, the normalised description and the form's payee, category and labels |
| ExpenseForm.RemoveReceipt | src/components/expense-form.tsx:381-385 | the remove button leaves neither a receipt url nor a public id in the form's state |
| ExpenseForm.OnSubmit | src/components/expense-form.tsx:99-163 | nothing is submitted iff the upload failed; an update with the edited id iff editing, a create otherwise; the data is ExpenseDataFor with the uploaded receipt, else the form's existing receipt when it has a url, else no receipt |
| ExpenseForm.BlankDescriptionRefusedOnCreate | src/components/expense-form.tsx:142 | a new expense whose description is missing or blank reaches the create handler without one and is refused with 400 |
| ExpenseForm.UploadedReceiptOnCreate | src/components/expense-form.tsx:143-144 | a new expense with an uploaded receipt: the handler as written keeps the url and drops the public id; the corrected handler keeps both |
| UploadRoute.Guard | src/app/api/upload/route.ts:14-49 | a guard's answer is always a refusal |
| UploadRoute.Settle | src/app/api/upload/route.ts:67-79 | the promise resolves iff there is a result with both fields non-empty, and then with those fields |
| UploadRoute.GuardOrder | src/app/api/upload/route.ts:14-49 | 401 iff no user; then 500 iff the configuration is incomplete; then 400 "No file", bad type, and size above 5 MiB, each iff every earlier guard passed |
| UploadRoute.UploadedSpec | src/app/api/upload/route.ts:59-92 | success iff every guard passed and the host returned both fields; the 500 upload failure iff the guards passed and the result is unusable; a success carries the host's non-empty url and id |
| UploadRoute.SizeBoundary | src/app/api/upload/route.ts:44 | exactly 5242880 bytes is accepted; 5242881 is refused as too large |
| UploadRoute.FormUpload | src/components/expense-form.tsx:115-122 | the form sees an upload iff the route answered with success, carrying that url and id |
| UploadRoute.UploadedReceiptIsComplete | src/app/api/upload/route.ts:82-85 | after a successful upload the form receives a non-empty url and public id, the host's own |
| CategoryStore.ReplaceSlashes | src/lib/seed-categories.ts:17 | same length, no "/", every other character kept |
| CategoryStore.CollapseWhitespace | src/lib/seed-categories.ts:17 | no white space remains, and every character is from the input or "-" |
| CategoryStore.CollapseWithoutWhitespace | src/lib/seed-categories.ts:17 | text without white space is unchanged |
| CategoryStore.CollapseOneRun | src/lib/seed-categories.ts:17 | one run of white space between two words becomes a single "-" |
| CategoryStore.Slug | src/lib/seed-categories.ts:17 | an id has no "/", no white space and no upper-case letter |
| CategoryStore.SlugOfficeSupplies | src/lib/seed-categories.ts:4 | "Office Supplies" becomes "office-supplies" |
| CategoryStore.SlugSoftwareSubscriptions | src/lib/seed-categories.ts:6 | "Software/Subscriptions" becomes "software-subscriptions" |
| CategoryStore.SlugCapitalised | src/lib/seed-categories.ts:17 | a capitalised single word becomes its lower-cased form |
| CategoryStore.DefaultSlugs | src/lib/seed-categories.ts:3-12 | the eight defaults get the ids office-supplies, travel, software-subscriptions, marketing, utilities, meals, equipment and other, all distinct |
| CategoryStore.SeedRow | src/lib/seed-categories.ts:19-26 | a created row has the slug id, the name, the seed's type and `isDefault` true |
| CategoryStore.SeededKeepsRows | src/lib/seed-categories.ts:16-18 | seeding only appends: the existing rows stay, in place, and at most one row per upsert is added |
| CategoryStore.SeededHasAll | src/lib/seed-categories.ts:15-27 | after seeding, every seeded id is in the table |
| CategoryStore.SeededPresent | src/lib/seed-categories.ts:18 | upserting ids that are all present changes nothing (`update: {}`) |
| CategoryStore.SeedTwiceIsOnce | src/lib/seed-categories.ts:15-28 | seeding twice leaves the table as seeding once does |
| CategoryStore.SeededAddsOnly | src/lib/seed-categories.ts:19-26 | every row after seeding was there before or is one of the seeded rows |
| CategoryStore.SeededUniqueIds | src/lib/seed-categories.ts:16-17 | seeding keeps ids unique |
| CategoryStore.SeedEmptyTable | src/lib/seed-categories.ts:15-28 | on an empty table, seeding rows with distinct ids creates exactly those rows in list order |
| CategoryStore.DefaultRowsUnique | src/lib/seed-categories.ts:3-17 | the rows built from the defaults have distinct ids |
| CategoryStore.SeedRowsSpec | src/lib/seed-categories.ts:15-28 | after seeding, every default's slug is an id, the old rows are a prefix, and every new row is a default of the seed's type |
| CategoryStore.SameIdsSeedNothing | prisma/seed.ts:21-23 | once one seed has run, running either seed creates nothing |
| CategoryStore.Table.Upsert | src/lib/seed-categories.ts:16-27 | the row is created when its id is missing, otherwise the table is unchanged |
| SeedCategories.SeedCategories | src/lib/seed-categories.ts:14-29 | the table after the loop is the old table with one upsert per default, in list order, as EXPENSE rows |
| SeedCategories.SeedCategoriesIdempotent | src/lib/seed-categories.ts:14-29 | running `seedCategories` twice equals running it once |
| SeedCategories.SeedEmptyCategories | src/lib/seed-categories.ts:3-28 | on an empty table the seed creates exactly the eight defaults, in order, with distinct ids |
| PrismaSeed.Seed | prisma/seed.ts:19-33 | the table after `main` is the old table with one upsert per default, in list order, with no type |
| PrismaSeed.SeedsShareIds | prisma/seed.ts:20-31 | after either seed script, the other one creates nothing |
| CategoryIcons.Find | src/lib/category-icons.tsx:45 | an own-key lookup: absent iff the name is not a key; a value found is stored under that name |
| CategoryIcons.GetCategoryIcon | src/lib/category-icons.tsx:44-46 | a mapped name gets its own icon; any other name gets Folder |
| CategoryIcons.AvailableIconsSpec | src/lib/category-icons.tsx:48 | `availableIcons` is the 18 keys in declaration order, each once |
| CategoryIcons.AvailableIconsResolve | src/lib/category-icons.tsx:45-48 | every offered name resolves through the table, never through the fallback, to the icon it names |
| CategoryIcons.EveryIconOffered | src/lib/category-icons.tsx:23-48 | every icon is offered under its name, and that name looks it up |
| CategoryIcons.UnknownNameIsFolder | src/lib/category-icons.tsx:45 | a name no icon has is not offered and falls back to Folder |
| CategoryIcons.DefaultIconsAreMapped | src/lib/category-icons.tsx:23-42 | every seeded default category's icon is a key of the table |
| CategoryIcons.GetCategoryIconAsWritten | src/lib/category-icons.tsx:45 | the lookup as written yields a non-icon only for a name inherited from Object.prototype |
| CategoryIcons.AsWrittenAgreesOffPrototype | src/lib/category-icons.tsx:45 | on every other name, the lookup as written agrees with the own-key lookup |
| CategoryIcons.InheritedNamesMissTheFallback | src/lib/category-icons.tsx:45 | an inherited name is not offered and should give Folder, yet the lookup as written yields the inherited member |
| CategoryIcons.ToStringExample | src/lib/category-icons.tsx:45 | "toString" gives a function as written, and Folder when corrected |
| NavLink.Render | src/components/nav-link.tsx:19-34 | the active indicator shows iff active, the hover sweep iff not active, and the class list follows |
| NavLink.OneDecoration | src/components/nav-link.tsx:27-34 | exactly one of the two spans is rendered |
| NavLink.RootOnlyAtRoot | src/components/nav-link.tsx:14 | "/" is active iff the path is exactly "/" |
| NavLink.ActiveBelowHref | src/components/nav-link.tsx:14 | any other link is active on itself and every path below it, never on a shorter path |
| NavLink.PrefixNotSegment | src/components/nav-link.tsx:14 | "/expenses" is active on "/expenses/1" and also on "/expensesx" |
| NavLink.ParentActiveWithChild | src/components/nav-link.tsx:14 | a link is active whenever a longer link starting with it is |
| SettingsTabs.InitialTab | src/components/settings-tabs.tsx:20-28 | the initial tab is always one of the three tabs |
| SettingsTabs.AfterHashChange | src/components/settings-tabs.tsx:34-39 | a hash change keeps the active tab one of the three |
| SettingsTabs.InitialTabSpec | src/components/settings-tabs.tsx:20-28 | no window gives "expense-categories"; a hash naming a tab (first "#" removed) gives that tab; any other hash gives "expense-categories" |
| SettingsTabs.HashChangeSpec | src/components/settings-tabs.tsx:34-39 | a hash naming no tab leaves the active tab unchanged; one naming a tab selects it |
| SettingsTabs.WrittenHashReadsBack | src/components/settings-tabs.tsx:49-53 | the hash `#value` written for a tab reads back as that tab, both at mount and on a hash change |
| SettingsTabs.Tabs.constructor | src/components/settings-tabs.tsx:30 | the state starts at the initial tab of the window's hash |
| SettingsTabs.Tabs.HandleHashChange | src/components/settings-tabs.tsx:34-39 | the active tab follows a hash naming a tab and is otherwise kept; the hash is unchanged |
| SettingsTabs.Tabs.NavigateToHash | src/components/settings-tabs.tsx:45 | a `hashchange` event sets the hash and runs the handler |
| SettingsTabs.Tabs.HandleTabChange | src/components/settings-tabs.tsx:49-53 | sets the active tab and writes `#value` as the hash |
| SettingsTabs.TabSurvivesReload | src/components/settings-tabs.tsx:20-53 | a tab chosen and then reloaded from its hash is still the active tab |

## Left out

- Rendering, styling, animation, toasts, dialogs and router refresh in every component. Only the values the components compute are modelled.
- The ORM. Tables are sequences. `findMany`, `aggregate`, `groupBy`, `count`, `findFirst`, `create` and `upsert` are functions over them. Relational `include`s are not modelled.
- Concurrency. The dashboard's `Promise.all` fan-out is modelled sequentially. So is the check-then-insert race of the budget POST.
- Calendar arithmetic. date-fns windows (`startOfMonth`, `startOfWeek` and the rest) arrive as a `Calendar` record. `parseISO`, `new Date(s)` and `toISOString` are function parameters.
- Floating point. Amounts are reals. `parseFloat`, `parseInt` and NaN from parsing are parameters or absent values; only the Infinity and NaN of a division by zero are modelled. `toLocaleString`, `toFixed` and `Math.round` are display formatting.
- `toLowerCase` maps ASCII letters only. The white-space class of `trim`, `trimStart` and `\s` is the ASCII, no-break and line-separator set in `JsString.IsWhitespace`. Full Unicode case mapping and white space are not modelled.
- External services. Clerk's `auth()` and `currentUser()` are an optional user id and an optional user record. The image host's upload is the `HostResult` input; the data URI, folder and public-id naming are not modelled. Environment variables are the `Config` record.
- JSON typing. A body field of the wrong JSON type is an absent value, except in the income POST, which models the JSON kinds. So ExpensesRoute.Refusal and ExpensesRoute.Create accept `receiptUrl: null` or a `labelIds` that is not an array, both read as absent, where zod answers 400. Their "400 iff the schema refuses" holds for bodies whose optional fields are absent or of the right type.
- BudgetsRoute.BudgetStore.List: the `orderBy` on category name and then period is not modelled; the list comes back in store order.
- ExpensesRoute.ExecuteSpec, DashboardRecent.RecentSpec: the order among rows with equal dates is not stated, because the database does not fix it.
- Dashboard.Get: its payload uses DashboardRecent.TakeLatest, which puts the earlier store row first among rows with equal dates. That is one order the database may choose, not the only one.
- ExpensesRoute.Get, IncomesRoute.Get, ExpensesRoute.Execute: `skip` is negative when the page is 0 or below, or when the limit is negative. The ORM then refuses the query, and the handler answers 500. Get returns the query it builds but not that 500. ExpensesRoute.Execute covers only a non-negative skip and take.
- ExpensesRoute.Create, ExpensesRoute.CreateAsWritten and IncomesRoute.Create: the catch-all 500 for an error the database or a conversion throws is not modelled. Examples are a `date` that `new Date` turns into an Invalid Date, and a `categoryId` or label id that names no row. A success is stated for a body the handler accepts, as if the database stores it. IncomesRoute.Create does model the 500 for a non-string value in a string column.
- ExpenseForm.BlankDescriptionRefusedOnCreate: the form treats the description as optional, but the create schema requires one. Whether the form or the schema is meant to change is not evident, so the model states the refusal and does not correct either side.
- Dashboard.Get: the budgets' joined category, the recent lists' joined category and labels, and the Cache-Control header are not modelled. The 500 answer for a thrown error is not modelled either.
- PrismaSeed.Seed: the "Created category" log lines and the disconnect are not modelled. The created rows carry no type, as the script sets none. A schema default for the column is not part of this model.
- The `percentage.toFixed(0)` badge text and the "% used" label are not modelled. The colour state, the progress value and the badge's presence are.
- The forwarding of the income filter bar's query through `useIncomes` is stated by UseIncomes.NonEmptyValuesForwarded over the read-back values. It is not one lemma composing the two modules' state.
- The custom range compares with the instant window [epoch, epoch], which the code builds from `new Date(0)`. The change is therefore 0 unless a record is dated exactly at the epoch (DashboardTotals.CustomRangeComparesWithEpoch and DashboardTotals.EpochRowGivesCustomChange).

## Findings

| source | as written | input that shows it | evidently intended | confidence | as-written member | corrected member |
|---|---|---|---|---|---|---|
| src/app/api/expenses/route.ts:7-15 | `createExpenseSchema` has no `receiptPublicId` and the create data omits it. The expense form sends it (src/components/expense-form.tsx:144). The update handler stores it. | POST with `receiptUrl` and `receiptPublicId` set after an upload | the stored expense keeps the receipt's public id, as the update handler does | not executed | ExpensesRoute.CreateDropsReceiptPublicId | ExpensesRoute.Create |
| src/lib/category-icons.tsx:45 | `iconMap[iconName] \|\| Folder` indexes a plain object, so names inherited from Object.prototype are found | a category whose icon is "toString" or "constructor" | any name that is not a key of `iconMap` gives Folder | not executed | CategoryIcons.ToStringExample | CategoryIcons.GetCategoryIcon |

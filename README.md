# cash-mate core in Dafny

This project models the bookkeeping core of cash-mate, a personal-finance web
application. Its data model has three parts:

- **transactions**: incomes and expenses, each with an amount, a category name,
  a description and a date;
- **categories**: a name with a colour;
- **budgets**: a spending limit for one category in one month.

The model covers:

- the application store, `AppContext`:
  - its initial state: the three seeded transactions, the default categories and
    no budgets;
  - its operations: add, update and delete a transaction, add a category, set a
    budget (insert or replace), and the two query helpers (free-text search and
    the filters object);
- the dashboard figures:
  - this month's income, expenses and balance;
  - the previous month's totals and the percentage changes;
  - the trend arrows and the savings rate;
- the budget overview:
  - this month's expenses tallied per category;
  - the demonstration budgets shown when none are set;
  - the status thresholds (70 per cent and 90 per cent), the bar colour and
    width, and the over-budget notice;
- the expense chart:
  - the per-category tally and its colours;
  - the category breakdown percentages;
  - the six-month window and the per-month totals;
- the transactions page: the combined search, type, category and date-range
  filter, then the newest-first sort;
- the recent-transactions card: the first eight stored transactions, sorted
  newest first.

Modules follow the program's structure:

| file | module | contents |
|---|---|---|
| `types.dfy` | `Types` | the entities of `src/types/index.ts`, calendar dates and periods |
| `seqs.dfy` | `Seqs` | `Array.prototype.filter` as `Filter`, with its laws |
| `text.dfy` | `Text` | `toLowerCase` and `includes` |
| `store.dfy` | `Store` | `AppContext`; the store itself is the class `AppStore`, whose methods reassign its three collections |
| `aggregation.dfy` | `Aggregation` | the dashboard's monthly sums, period arithmetic, changes, trends and savings rate |
| `budgets.dfy` | `Budgets` | the budget overview: the per-category tally (the JavaScript `Record` as an association list), budget status, and JavaScript division as a `Number` type with infinities and NaN |
| `charts.dfy` | `Charts` | the expense chart |
| `lists.dfy` | `Lists` | the transactions page and the recent-transactions card |
| `scenarios.dfy` | `Scenarios` | facts about the seeded data in the month it was dated for, January 2025 |

Modelling choices:

- Amounts are real numbers.
- Dates are calendar triples with a zero-based month, as `Date.getMonth` gives.
  Their order is the chronological one.
- The current time and newly generated ids (`Date.now()`, `new Date()`) are
  parameters. The current month is a `Period`.

Behaviour of the code worth knowing:

- **Six-month window.** The chart counts back five months from the current one
  and reverses the list. Anchored at January 2025 the window runs from August
  2024 to January 2025, and December 2024 is its fifth entry
  (`Charts.JanuaryWindow`).
- **Zero budget limit.** The budget overview divides by the limit without a
  guard. With a zero limit, `spent / 0` is Infinity (status "over") or NaN
  (status "good") (`Budgets.ZeroLimit`).
- **Date-range filter.** The transactions page ignores its date range unless
  both ends are set. The page only ever sets the start, so the range never takes
  effect (`Lists.HalfOpenRangeIgnored`).
- **Recent transactions.** The recent-transactions card shows the first eight
  transactions in stored order, sorted. These are the most recently added, not
  necessarily the eight latest by date.

## Model

| member | source | states |
|---|---|---|
| Seqs.Filter | src/context/AppContext.tsx:101 | `filter` keeps only elements satisfying the predicate, never grows the list and returns a subsequence of it |
| Seqs.FilterMultiset | src/context/AppContext.tsx:101 | each element occurs as often in the result as in the input if it satisfies the predicate, otherwise not at all |
| Seqs.FilterIdempotent | src/context/AppContext.tsx:101 | filtering twice by the same predicate is filtering once |
| Text.LowerChar | src/context/AppContext.tsx:132-133 | `toLowerCase` maps each capital A-Z to the small letter 32 code points above it and leaves every other character unchanged |
| Text.Contains | src/context/AppContext.tsx:132-133 | `includes`, defined by its body (a prefix at the start or further on); `Text.ContainsAt` and `Text.EmptyNeedle` state its properties |
| Text.Lower | src/context/AppContext.tsx:132-133 | lower-casing keeps the length and lower-cases each character in place |
| Text.LowerIdempotent | src/context/AppContext.tsx:132-133 | lower-casing an already lower-cased text changes nothing |
| Text.ContainsAt | src/context/AppContext.tsx:132-133 | `includes` holds exactly when the needle occurs at some offset of the text |
| Text.EmptyNeedle | src/components/transactions/TransactionList.tsx:21-22 | every text includes the empty search string |
| Store.NewTransaction | src/context/AppContext.tsx:84-88 | a new transaction copies every field of the draft and takes the generated id and creation time |
| Store.Apply | src/context/AppContext.tsx:95 | merging an update takes each field from the update where it is given and from the transaction otherwise |
| Store.ApplyIdempotent | src/context/AppContext.tsx:95 | merging the same update twice equals merging it once |
| Store.ApplyEmpty | src/context/AppContext.tsx:95 | merging an update with no fields returns the transaction unchanged |
| Store.UpdateById | src/context/AppContext.tsx:92-98 | updating keeps the list's length and order, merges the update into every transaction with the id and leaves every other transaction as it was |
| Store.UpdateAbsent | src/context/AppContext.tsx:92-98 | updating an id that no transaction has changes nothing |
| Store.UpdateIdempotent | src/context/AppContext.tsx:92-98 | applying the same update by id twice equals applying it once |
| Store.DeleteById | src/context/AppContext.tsx:100-102 | after deleting, no transaction has the id, every transaction with another id keeps its multiplicity, and the order is kept |
| Store.DeleteAbsent | src/context/AppContext.tsx:100-102 | deleting an id that no transaction has changes nothing |
| Store.DeleteIdempotent | src/context/AppContext.tsx:100-102 | deleting the same id twice equals deleting it once |
| Store.DeleteRemovesAtMostOne | src/context/AppContext.tsx:100-102 | when ids are unique, deleting removes at most one transaction |
| Store.NewCategory | src/context/AppContext.tsx:104-108 | a new category copies the draft and takes the generated id |
| Store.NewBudget | src/context/AppContext.tsx:112-116 | a new budget copies the draft and takes the generated id |
| Store.FindByKey | src/context/AppContext.tsx:118-122 | the lookup finds nothing exactly when no budget has the same category, month and year, and otherwise returns the first budget that does |
| Store.FindFirst | src/context/AppContext.tsx:118-122 | the lookup returns the budget at the first position whose key matches |
| Store.ReplaceById | src/context/AppContext.tsx:124 | replacing keeps the length, puts the new budget at every position holding the found id and leaves the rest |
| Store.ReplaceSlot | src/context/AppContext.tsx:124 | with unique ids, replacing by a budget's id replaces exactly that one position |
| Store.Upsert | src/context/AppContext.tsx:117-127 | setBudget's updater: the result holds the new budget, holds nothing but it and old budgets, and grows by at most one; `Store.UpsertExisting`, `Store.UpsertAbsent` and `Store.UpsertKeepsInvariants` say which case applies |
| Store.UpsertExisting | src/context/AppContext.tsx:117-125 | setting a budget whose key already has one replaces that single entry in place and changes nothing else |
| Store.UpsertAbsent | src/context/AppContext.tsx:126 | setting a budget for a key that has none appends it at the end |
| Store.SlotKeepsInvariants | src/context/AppContext.tsx:123-124 | replacing the matching entry keeps ids unique and at most one budget per category and month |
| Store.AppendKeepsInvariants | src/context/AppContext.tsx:126 | appending a budget for a new key keeps ids unique and at most one budget per category and month |
| Store.UpsertKeepsInvariants | src/context/AppContext.tsx:112-128 | setting a budget with a fresh id keeps ids and keys unique, makes the new budget the one found for its key, and keeps every budget of another key |
| Store.MatchesQuery | src/context/AppContext.tsx:131-134 | the search test, defined by its body (lower-cased description or category includes the lower-cased query); `Store.SearchTransactions` states what it selects |
| Store.SearchTransactions | src/context/AppContext.tsx:130-135 | the search returns, in order and with multiplicity, exactly the transactions whose lower-cased description or category includes the lower-cased query |
| Store.EmptySearch | src/context/AppContext.tsx:130-135 | searching for the empty string returns every transaction |
| Store.PassesFilters | src/context/AppContext.tsx:139-147 | the filters test, defined by its body; `Store.FilterTransactions` states each criterion |
| Store.FilterTransactions | src/context/AppContext.tsx:137-149 | the filters skip unset criteria (type, non-empty category, inclusive date range); the result keeps exactly the transactions meeting every set one, in order and with multiplicity |
| Store.DefaultCategories | src/context/AppContext.tsx:28-39 | the ten seed categories, with pairwise distinct ids and names, so a colour lookup by name is unambiguous; `Scenarios.DefaultColors` gives their colours |
| Store.MockTransactions | src/context/AppContext.tsx:41-72 | the three seed transactions, with distinct ids and positive amounts; the `Scenarios` lemmas give their dates and totals |
| Store.AppStore.constructor | src/context/AppContext.tsx:79-81 | the store starts with the seeded transactions, the default categories and no budgets |
| Store.AppStore.AddTransaction | src/context/AppContext.tsx:83-90 | adding puts the new transaction at the front and leaves the rest, the categories and the budgets as they were |
| Store.AppStore.UpdateTransaction | src/context/AppContext.tsx:92-98 | the transactions become the by-id update of the old ones; categories and budgets are unchanged |
| Store.AppStore.DeleteTransaction | src/context/AppContext.tsx:100-102 | the transactions become the old ones without the id, in order; deleting an absent id changes nothing |
| Store.AppStore.AddCategory | src/context/AppContext.tsx:104-110 | adding appends the new category and keeps everything else |
| Store.AppStore.SetBudget | src/context/AppContext.tsx:112-128 | the budgets become the insert-or-replace of the new budget; unique ids and keys are kept when the id is fresh, and an unmatched key is appended |
| Aggregation.Sum | src/components/dashboard/Dashboard.tsx:33 | `reduce((sum, t) => sum + t.amount, 0)`, defined by its body; `Aggregation.SumAppend` and `Aggregation.SumNonNegative` state its properties |
| Aggregation.SumAppend | src/components/dashboard/Dashboard.tsx:31-33 | the running sum of amounts over a concatenation is the sum of the two parts |
| Aggregation.SumNonNegative | src/components/dashboard/Dashboard.tsx:31-33 | a sum of non-negative amounts is non-negative |
| Aggregation.SumFilterCons | src/components/dashboard/Dashboard.tsx:31-33 | the sum over a filtered list gains the head's amount exactly when the head passes |
| Aggregation.MonthTransactions | src/components/dashboard/Dashboard.tsx:25-29 | the month's transactions are exactly, with multiplicity and in order, those dated in that month and year |
| Aggregation.OfType | src/components/dashboard/Dashboard.tsx:31-32 | selecting by type keeps exactly the transactions of that type, in order |
| Aggregation.TotalOfType | src/components/dashboard/Dashboard.tsx:31-37 | a type filter then the sum, defined by its body; `Aggregation.TypePartition` and `Aggregation.TotalOfTypeBounds` state its properties |
| Aggregation.TotalOfEmpty | src/components/dashboard/Dashboard.tsx:31-37 | there is nothing to total in an empty list |
| Aggregation.TotalOfTypeCons | src/components/dashboard/Dashboard.tsx:31-37 | a total of one type gains the head's amount exactly when the head is of that type |
| Aggregation.TypePartition | src/components/dashboard/Dashboard.tsx:31-37 | income total plus expense total is the sum of all amounts |
| Aggregation.TotalOfTypeBounds | src/components/dashboard/Dashboard.tsx:31-37 | with non-negative amounts, each type's total lies between zero and the whole sum |
| Aggregation.PeriodIndexInjective | src/components/dashboard/Dashboard.tsx:42-43 | distinct valid month-year pairs have distinct month counts |
| Aggregation.PrevPeriod | src/components/dashboard/Dashboard.tsx:42-43 | the previous period is valid and exactly one month earlier, with January stepping back to December of the year before |
| Aggregation.NextPeriod | src/components/dashboard/ExpenseChart.tsx:85-93 | the next period is valid and exactly one month later |
| Aggregation.PrevNextRoundTrip | src/components/dashboard/Dashboard.tsx:42-43 | stepping back then forward, or forward then back, returns the same period |
| Aggregation.Change | src/components/dashboard/Dashboard.tsx:59-63 | the change is zero when the previous total is zero, and otherwise the percentage by which the previous total grows to the current one |
| Aggregation.ChangeSign | src/components/dashboard/Dashboard.tsx:59-63 | with a positive previous total, the change is non-negative exactly when the total did not fall |
| Aggregation.GainTrend | src/components/dashboard/Dashboard.tsx:74-84 | balance and income cards show up exactly when the change is non-negative, and are never neutral |
| Aggregation.CostTrend | src/components/dashboard/Dashboard.tsx:93 | the expense card shows bad news exactly when expenses did not fall, and is never neutral |
| Aggregation.TrendsOpposite | src/components/dashboard/Dashboard.tsx:84-93 | the same change gets opposite trends on an income card and an expense card |
| Aggregation.Percent | src/components/dashboard/Dashboard.tsx:100 | a part of a whole is zero for a non-positive whole, and otherwise the part as a percentage of the whole; it is the savings rate (balance of income) and the chart's share (`ExpenseChart.tsx:182`) |
| Aggregation.SavingsRateBounds | src/components/dashboard/Dashboard.tsx:100 | with income and non-negative expenses, the rate is at most 100, and non-negative exactly when expenses do not exceed income |
| Aggregation.MonthTotals | src/components/dashboard/Dashboard.tsx:31-37 | a month's income and expenses are the type totals of that month's transactions and add up to the month's sum |
| Aggregation.DashboardStats | src/components/dashboard/Dashboard.tsx:21-65 | the figures are this month's and the previous month's totals, the balance is income minus expenses, the changes and the trends follow their definitions, and the savings rate is taken from this month |
| Aggregation.StatsAccountForMonth | src/components/dashboard/Dashboard.tsx:25-37 | this month's income plus expenses is the sum of this month's transactions |
| Budgets.CurrentMonthExpenses | src/components/dashboard/BudgetOverview.tsx:13-18 | the month's expenses are exactly those expenses dated in that month and year, in order and with multiplicity |
| Budgets.CurrentMonthExpensesTotal | src/components/dashboard/BudgetOverview.tsx:13-18 | the budget overview's month expenses total the dashboard's expense figure |
| Budgets.Keys | src/components/dashboard/ExpenseChart.tsx:46 | the category names are the tally's keys in insertion order |
| Budgets.Values | src/components/dashboard/ExpenseChart.tsx:47 | the amounts are the tally's values in the same order |
| Budgets.AddTo | src/components/dashboard/BudgetOverview.tsx:22 | a key is appended exactly when it was not in the tally |
| Budgets.AddToLookup | src/components/dashboard/BudgetOverview.tsx:22 | after adding, the category's entry has grown by the amount, counting a missing entry as 0, and every other entry is unchanged |
| Budgets.AddToSum | src/components/dashboard/BudgetOverview.tsx:22 | adding an amount grows the sum of the tally by that amount |
| Budgets.AddToDistinct | src/components/dashboard/BudgetOverview.tsx:22 | adding keeps each key at most once |
| Budgets.AddToNonNegative | src/components/dashboard/BudgetOverview.tsx:22 | adding a non-negative amount to a non-negative tally keeps it non-negative |
| Budgets.Accumulate | src/components/dashboard/BudgetOverview.tsx:20-24 | the `reduce` into the tally, defined by its body; the `Budgets.Accumulate...` lemma rows state its properties |
| Budgets.AccumulateLookup | src/components/dashboard/BudgetOverview.tsx:20-24 | folding transactions adds to each category exactly that category's total |
| Budgets.AccumulateSum | src/components/dashboard/BudgetOverview.tsx:20-24 | folding transactions adds their total amount to the tally's sum |
| Budgets.AccumulateKeys | src/components/dashboard/BudgetOverview.tsx:20-24 | after folding, a key is present exactly when it was before or some transaction has that category |
| Budgets.AccumulateDistinct | src/components/dashboard/BudgetOverview.tsx:20-24 | folding keeps each key at most once |
| Budgets.AccumulateNonNegative | src/components/dashboard/BudgetOverview.tsx:20-24 | folding non-negative amounts into a non-negative tally keeps it non-negative |
| Budgets.SpendingByCategory | src/components/dashboard/BudgetOverview.tsx:20-24 | the tally has one entry per category that occurs, holding that category's total; its values sum to the total; it is non-negative when the amounts are |
| Budgets.Lookup | src/components/dashboard/BudgetOverview.tsx:28-31 | `spending[c]` or 0 when absent, defined by its body; `Budgets.LookupAt` and `Budgets.LookupAbsent` state its properties |
| Budgets.LookupAt | src/components/dashboard/BudgetOverview.tsx:28-31 | with distinct keys, looking a key up returns the value stored beside it |
| Budgets.LookupAbsent | src/components/dashboard/BudgetOverview.tsx:28-31 | looking up an absent key gives 0 |
| Budgets.MockBudgets | src/components/dashboard/BudgetOverview.tsx:27-32 | there are four demonstration budgets for the current month, each with a positive limit and having spent its category's tally entry |
| Budgets.CurrentBudgets | src/components/dashboard/BudgetOverview.tsx:34 | stored budgets are shown when there are any; otherwise four demonstration budgets, each having spent the month's expenses in its category |
| Budgets.MockSpentZero | src/components/dashboard/BudgetOverview.tsx:28-31 | a demonstration budget whose category had no expense this month shows 0 spent |
| Budgets.Divide | src/components/dashboard/BudgetOverview.tsx:37 | division by a non-zero number is the exact quotient; division by zero is not a finite number |
| Budgets.Percentage | src/components/dashboard/BudgetOverview.tsx:37 | with a positive limit, the percentage is the spent amount as a percentage of the limit |
| Budgets.Classify | src/components/dashboard/BudgetOverview.tsx:38-40 | the first matching tier at 90 and 70; the status is good exactly when the percentage does not reach 70 |
| Budgets.BudgetStatus | src/components/dashboard/BudgetOverview.tsx:36-41 | `getBudgetStatus`, defined by its body (the tier of the percentage); `Budgets.StatusThresholds`, `Budgets.StatusBoundaries` and `Budgets.ZeroLimit` state its properties |
| Budgets.StatusThresholds | src/components/dashboard/BudgetOverview.tsx:36-41 | with a positive limit, the status is over at 90 per cent or more, warning from 70 up to but not including 90, and good below 70 |
| Budgets.PercentageAtLeast | src/components/dashboard/BudgetOverview.tsx:37-39 | with a positive limit, the percentage reaches a threshold exactly when spent times 100 reaches the threshold times the limit |
| Budgets.StatusBoundaries | src/components/dashboard/BudgetOverview.tsx:38-39 | exactly 90 per cent is over, exactly 70 per cent is warning, and just below each boundary gives the lower status |
| Budgets.ZeroLimit | src/components/dashboard/BudgetOverview.tsx:36-41 | with a zero limit, any positive spending is over (Infinity) and none is good (NaN compares false) |
| Budgets.ProgressColor | src/components/dashboard/BudgetOverview.tsx:75-78 | the bar colour, defined by its body; `Budgets.ProgressColorMatchesStatus` states that it agrees with the status |
| Budgets.ProgressColorMatchesStatus | src/components/dashboard/BudgetOverview.tsx:75-78 | the bar's colour always agrees with the status |
| Budgets.BarWidth | src/components/dashboard/BudgetOverview.tsx:79 | the width is capped at 100, equals the percentage when it is at most 100, is 100 from 100 up, and stays NaN for NaN |
| Budgets.OverBudget | src/components/dashboard/BudgetOverview.tsx:93 | the notice's guard `spent > limit`, defined by its body; `Budgets.OverBudgetIsOver` and `Budgets.OverWithoutOverBudget` relate it to the status |
| Budgets.Overage | src/components/dashboard/BudgetOverview.tsx:93-96 | the overage shown is positive and makes up the difference between limit and spent |
| Budgets.OverBudgetIsOver | src/components/dashboard/BudgetOverview.tsx:93 | with a non-negative limit, a budget showing the over-budget notice has status over |
| Budgets.OverWithoutOverBudget | src/components/dashboard/BudgetOverview.tsx:93 | status over does not imply the notice: 95 of 100 is over but not over budget |
| Budgets.StatusExamples | src/components/dashboard/BudgetOverview.tsx:36-41 | 2,500 of 25,000 is 10 per cent, good and not over budget; 12,000 of 10,000 is 120 per cent, over, and over budget by 2,000 |
| Charts.FindCategory | src/components/dashboard/ExpenseChart.tsx:50 | `find` returns nothing exactly when no category has the name, and otherwise the first category that does |
| Charts.CategoryColor | src/components/dashboard/ExpenseChart.tsx:49-52 | the colour is the first same-named category's colour, or grey when there is none or its colour is empty |
| Charts.Shares | src/components/dashboard/ExpenseChart.tsx:179-182 | each category gets the share of its own amount, in order |
| Charts.SharesSum | src/components/dashboard/ExpenseChart.tsx:179-182 | with a positive total, the shares sum to the amounts' sum as a percentage of the total |
| Charts.SharesOfWhole | src/components/dashboard/ExpenseChart.tsx:181-182 | shares taken of the amounts' own positive sum add up to 100 |
| Charts.ShareBounds | src/components/dashboard/ExpenseChart.tsx:182 | a part of a positive total has a share between 0 and 100 |
| Charts.CategoryShares | src/components/dashboard/ExpenseChart.tsx:179-182 | there is one percentage per tally entry, and entry i is that category's amount as a percentage of the tally's own total |
| Charts.BreakdownShares | src/components/dashboard/ExpenseChart.tsx:179-182 | with non-negative amounts and some spending this month, each breakdown percentage lies in 0..100 and they add up to 100 |
| Charts.MonthsBack | src/components/dashboard/ExpenseChart.tsx:85-87 | the period i months before the current one, defined by its body; `Charts.MonthsBackIndex` states it |
| Charts.MonthsBackIndex | src/components/dashboard/ExpenseChart.tsx:85-87 | counting back i months gives a valid period exactly i months earlier |
| Charts.Reversed | src/components/dashboard/ExpenseChart.tsx:93 | reversing keeps the length and mirrors positions |
| Charts.Last6Months | src/components/dashboard/ExpenseChart.tsx:85-93 | the window has six periods and ends with the current one |
| Charts.WindowShape | src/components/dashboard/ExpenseChart.tsx:85-93 | entry k is 5 - k months before now, consecutive entries are consecutive months, and the fifth entry is the dashboard's previous period |
| Charts.JanuaryWindow | src/components/dashboard/ExpenseChart.tsx:85-93 | anchored at January 2025, the window runs from August 2024 to January 2025 |
| Charts.MonthlyData | src/components/dashboard/ExpenseChart.tsx:95-111 | there is one bar pair per window period, each equal to that month's income and expense totals |
| Charts.ChartMatchesDashboard | src/components/dashboard/ExpenseChart.tsx:95-111 | the chart's last two bars equal the dashboard's current and previous month totals |
| Lists.Insert | src/components/transactions/TransactionList.tsx:36 | inserting into a newest-first list keeps it newest first and adds exactly the one element |
| Lists.InsertOldest | src/components/transactions/TransactionList.tsx:36 | a transaction older than all others is inserted at the end |
| Lists.SortNewestFirst | src/components/transactions/TransactionList.tsx:36 | the sort returns a newest-first permutation of its input |
| Lists.SortSorted | src/components/transactions/TransactionList.tsx:36 | sorting an already newest-first list leaves it unchanged |
| Lists.InsertStable | src/components/transactions/TransactionList.tsx:36 | the inserted transaction's date class gains it at the front: among equal dates it goes ahead of those already present, which come later in stored order |
| Lists.SortStable | src/components/transactions/TransactionList.tsx:36 | the sort is stable: transactions of equal date keep their relative order |
| Lists.MatchesAll | src/components/transactions/TransactionList.tsx:19-35 | the page's four tests joined by and, defined by its body; `Lists.FilteredTransactions` states what it selects |
| Lists.FilteredTransactions | src/components/transactions/TransactionList.tsx:19-36 | the page lists exactly, with multiplicity, the transactions that match search, type, category and date range, newest first |
| Lists.NoFiltersListAll | src/components/transactions/TransactionList.tsx:9-36 | with the page's initial filter settings every transaction is listed |
| Lists.HalfOpenRangeIgnored | src/components/transactions/TransactionList.tsx:31-33 | a date range with only one end set lets every transaction through |
| Lists.RecentTransactions | src/components/dashboard/RecentTransactions.tsx:10-12 | the card shows min(8, n) transactions, a newest-first permutation of the first eight stored, and nothing for an empty store |
| Lists.AddedIsRecent | src/components/dashboard/RecentTransactions.tsx:10-12 | a transaction just added always appears on the card |
| Scenarios.SeededJanuaryRecords | src/context/AppContext.tsx:41-72 | all three seeded transactions fall in January 2025 |
| Scenarios.SeededDecemberEmpty | src/components/dashboard/Dashboard.tsx:45-49 | no seeded transaction falls in December 2024 |
| Scenarios.SeededTotals | src/context/AppContext.tsx:41-72 | the seeded income totals 150,000 and the seeded expenses 17,500 |
| Scenarios.SeededJanuary | src/components/dashboard/Dashboard.tsx:21-65 | in January 2025 the dashboard shows 150,000 income, 17,500 expenses, a 132,500 balance, and no change because the previous month is empty |
| Scenarios.SeededJanuaryExpenses | src/components/dashboard/BudgetOverview.tsx:13-18 | January 2025's expenses are the two seeded expenses, in stored order |
| Scenarios.SeededFoodSpending | src/components/dashboard/BudgetOverview.tsx:20-24 | those expenses spend 2,500 on Food & Dining |
| Scenarios.SeededFoodBudget | src/components/dashboard/BudgetOverview.tsx:27-41 | the Food & Dining demonstration budget shows 2,500 spent of 25,000, status good, no over-budget notice |
| Scenarios.DefaultColors | src/context/AppContext.tsx:28-39 | Food & Dining is red, Salary is green, and an unknown category is grey |
| Scenarios.SeededRecent | src/components/dashboard/RecentTransactions.tsx:10-12 | the seeded card lists the three transactions latest date first, the reverse of stored order |

## Left out

- Rendering, styling, icons and the chart library are not modelled; only the values they display are.
- Authentication, the layout shell (header, sidebar, navigation), `StatsCard` and `src/App.tsx` are outside the core.
- The add-transaction form's parsing (`parseFloat`, `new Date(...)` on the entered text) is not modelled. A draft arrives already typed.
- Currency formatting (`formatLKR`) and the `toFixed` rounding of displayed percentages are not modelled; the model gives exact values.
- Clocks and id generation (`Date.now()`, `new Date()`) are parameters. Because of this, the freshness of a generated id is a hypothesis of the invariant lemmas and is not guaranteed.
- JavaScript date parsing and time zones are not modelled: dates are calendar triples. A date parsed as UTC but read with local `getMonth` can fall in a neighbouring month in the source.
- Charts.Last6Months: `setMonth` on the 29th to 31st of a month can overflow and repeat or skip a month in the source. The model counts pure calendar months, which is what the window evidently means.
- Amounts are exact reals. Floating-point rounding of sums and percentages is not modelled.
- Text.LowerChar: lower-cases only ASCII capitals; full Unicode case mapping is not modelled.
- Budgets.Keys: keeps insertion order for every key. JavaScript lists integer-like keys first in numeric order, which the model does not reproduce; category names are not integer-like in practice. The source's `{}` accumulator also inherits `Object.prototype`, so a category named `constructor`, `toString` or `__proto__` would start from an inherited value instead of 0. The model starts every category at 0; no code shown creates such a name.
- The `confirm` dialog before a delete is not modelled. Deletion is modelled as confirmed.
- The store's updates take effect immediately. React's asynchronous, batched state updates are not modelled.
- Store.Apply: an update field given explicitly as `undefined` overwrites the field in JavaScript. The model treats an absent field and an undefined field alike.
- Store.FilterTransactions: only the typed shape of the `filters: any` object is modelled. Other truthy values are not.
- Budgets.Overage: requires that the notice is shown (spent above limit), mirroring the guard around it at `BudgetOverview.tsx:93`.

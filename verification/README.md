# Household-finance tracker: a Dafny model of its core

The application is a personal household-finance tracker. The user logs expenses and incomes,
keeps bank accounts and cash, sets two paydays a month and recurring payments, saves towards goals,
imports bank statements (read by an AI model) or backups, and reads a dashboard of charts,
forecasts and rule-based insights. This project models the computations behind those screens and
the state the screens keep, and proves what they promise.

Modules, leaf first:

- `Wrappers`, `Text`: optional values, and the JavaScript string built-ins the code relies on
  (`split`, `parseInt`, `trim`, `toLowerCase`, `includes`, number-to-text).
- `Calendar`: `Date` arithmetic in milliseconds, with a month or day out of range rolling over as
  `new Date(y, m, d)` does.
- `Domain`: transactions, the profile with its paydays and recurring payments, goals, accounts, and
  the contents of numeric form fields.
- `Sorting`: `Array.prototype.sort` with a numeric comparator, as a stable insertion sort.
- `Ledger`: sums, the `DD.MM.YYYY` date decoder, month filters, per-key tallies that keep their keys
  in order of first appearance, grouping by date, and the newest-first order of dates.
- `FinanceEngine` (`src/utils/financeEngine.js`): totals, the salary cycle and the next payday, the
  daily spending limit, chart data, trends, the insight rules and the category-versus-budget rows.
- `Predictions` (`src/utils/predictions.js`): least-squares regression, the expense forecast,
  budget depletion, goal completion, the net-income projection and the daily heat map.
- `Layout`, `Dashboard`, `DashboardCharts` (`src/hooks/useDashboard.js`): the grid layouts, the
  dashboard's state (selected month, widgets, layouts) and everything it derives for the month.
- `MonthView`, `MonthPages` (`src/hooks/useExpenses.js`, `src/hooks/useIncomes.js`): the expenses
  and incomes pages.
- `AccountsPage` (`src/hooks/useAccounts.js`), `Goals` (`src/hooks/useGoals.js`),
  `ProfileEditor` (`src/hooks/useProfile.js`), `ImportWizard` (`src/hooks/useImport.js`): the
  other pages' state, each a class whose methods update its fields.
- `AiService` (`src/services/aiService.js`): the stored API keys, the report history and its
  migration, the chat sessions, and the handling of a statement request's text.
- `App` (`src/App.jsx`): the theme's colour arithmetic and the application's data state, with the
  backup import (merge or replace) and the full reset.

Pure code (`financeEngine.js`, `predictions.js`, the derived values of the hooks) is modelled as
functions with lemmas; the hooks' state and `App`'s state are classes whose methods state their
whole new state. The current moment, the clock's ids, the user's answers to confirmation dialogs,
and the outcomes of reading files and of calling an AI model are parameters.

## Model

| member | source | states |
|---|---|---|
| Calendar.DaysInMonth | src/hooks/useDashboard.js:586 | every month has 28 to 31 days |
| Calendar.Weekday | src/utils/predictions.js:243 | `getDay()` is 0 (Sunday) to 6 (Saturday) |
| Calendar.PrevMonthWraps | src/hooks/useExpenses.js:47-52 | the month before January is December of the year before, any other month steps back by one, and the next month undoes it |
| Calendar.NextMonthWraps | src/hooks/useExpenses.js:54-59 | the month after December is January of the year after, any other month steps on by one, and the previous month undoes it |
| Calendar.NavigationIsShift | src/utils/financeEngine.js:149 | the month steps agree with `new Date(y, m ± 1, 1)` |
| Calendar.ShiftStep | src/utils/financeEngine.js:148-151 | `new Date(y, m + k, 1)` one step further is the next month |
| Calendar.MonthStep | src/utils/financeEngine.js:53 | the first of the next month lies `DaysInMonth` days after the first of this one |
| Calendar.MonthNormal | src/utils/financeEngine.js:53-55 | month arguments outside 0..11 roll into the year |
| Calendar.DayLinear | src/utils/predictions.js:205 | day arguments past the month's end roll into the next month |
| Calendar.LastDayOfMonth | src/hooks/useDashboard.js:586 | `new Date(y, m + 1, 0)` is the last day of month m |
| Calendar.NextMonthIsLater | src/utils/financeEngine.js:94-95 | any day of the next month comes after every day of this one |
| Calendar.CeilDivBounds | src/utils/financeEngine.js:67 | `Math.ceil(a / b)` is the least q with q·b >= a |
| Ledger.ParseDate | src/utils/formatters.js:27-31 | the empty text is now; otherwise only `dd.MM.yyyy` text naming a real day decodes, to that day's midnight |
| Ledger.FormatDate | src/utils/formatters.js:27-31 | the written date is ten characters |
| Ledger.FormattedFields | src/utils/formatters.js:27-31 | a written date splits at its dots into the padded day, month and year, which read back as those numbers |
| Ledger.ParseFormatted | src/utils/formatters.js:27-31 | writing a date and parsing it gives that day back |
| Ledger.IsoDateInstant | src/utils/financeEngine.js:18-20 | the reversed-field ISO reading of padded fields gives the midnight of some day, or no date |
| Ledger.IsoAgreesOnFormatted | src/utils/financeEngine.js:17-21 | on dates the views write, the ISO reading and `parseDate` give the same instant |
| Ledger.OfMonth | src/hooks/useExpenses.js:12-17 | exactly the transactions whose parsed date falls in the selected month and year |
| Ledger.OfSplitMonth | src/utils/financeEngine.js:153-161 | exactly the transactions whose split date fields name the month and year |
| Ledger.SplitMonthAgrees | src/utils/financeEngine.js:153-161 | on real dates the field test and the `parseDate` test agree |
| Ledger.SplitMonthAcceptsOverflowDay | src/utils/financeEngine.js:153-161 | a day past the month's end (31.02) counts in the trend series but fails `parseDate` |
| Ledger.Distinct | src/utils/financeEngine.js:178 | each key once, in first-seen order, and nothing else |
| Ledger.KeysOf | src/utils/financeEngine.js:129-133 | the keys of the pairs, in order |
| Ledger.TallyKeys | src/utils/financeEngine.js:129-133 | a tally's keys are the distinct keys in first-seen order, each holding a total |
| Ledger.TallyValue | src/utils/financeEngine.js:131-132 | each key's total is the sum of the amounts paired with it |
| Ledger.TallyTotal | src/utils/financeEngine.js:129-133 | the totals add up to the sum of all amounts |
| Ledger.AddTotal | src/hooks/useExpenses.js:41 | one addition keeps keys unique and raises the sum of totals by the amount |
| Ledger.ByCategory | src/hooks/useExpenses.js:40-43 | each transaction as its (category, amount) |
| Ledger.ByDate | src/utils/financeEngine.js:136-139 | each transaction as its (date, amount) |
| Ledger.PairsTotal | src/utils/financeEngine.js:129-139 | any keying of the transactions keeps their total |
| Ledger.OfCategory | src/utils/financeEngine.js:341 | exactly the transactions of a category |
| Ledger.CategoryAmount | src/hooks/useExpenses.js:39-44 | a category's total is the sum of its transactions |
| Ledger.CategorySumsCover | src/utils/financeEngine.js:196-200 | over distinct categories covering every transaction, the per-category sums add up to the whole |
| Ledger.Dates | src/hooks/useExpenses.js:22 | the date of each transaction |
| Ledger.Categories | src/utils/financeEngine.js:178 | the category of each transaction |
| Ledger.OnDate | src/hooks/useExpenses.js:22-23 | exactly the transactions of a date |
| Ledger.GroupByDatePartitions | src/hooks/useExpenses.js:20-26 | the groups' keys are the distinct dates in first-seen order, each group holding exactly its date's transactions in order |
| Ledger.EmptyOnDate | src/hooks/useExpenses.js:22 | a date that no transaction carries has no group |
| Ledger.NewestFirst | src/hooks/useExpenses.js:28-32 | the keys rearranged (a permutation), newest parsed date first |
| Ledger.NewestFirstDistinct | src/hooks/useExpenses.js:28-32 | sorting distinct keys lists each exactly once |
| Sorting.Insert | src/utils/financeEngine.js:347 | inserting into a sorted list keeps it sorted and adds exactly that element |
| Sorting.SortBy | src/utils/financeEngine.js:347 | the result is sorted by the key and is a permutation of the input |
| Sorting.InsertStable | src/utils/financeEngine.js:347 | an inserted element goes after every element with the same key |
| Sorting.SortByStable | src/utils/financeEngine.js:347 | the sort is stable: the elements sharing a key keep their input order |
| Sorting.PermutationKeepsDistinct | src/utils/financeEngine.js:347 | a permutation has the same elements and keeps distinct elements distinct |
| MonthView.MonthGroupsPartition | src/hooks/useExpenses.js:12-32 | the month's groups partition its transactions by date, and the sorted dates list each key once, newest first |
| MonthView.MonthCategoriesTotal | src/hooks/useExpenses.js:34-44 | the month's category sums add up to the month's total |
| MonthPages.MonthPage.constructor | src/hooks/useExpenses.js:6-9 | a page opens on the current month |
| MonthPages.MonthPage.Filtered | src/hooks/useExpenses.js:12-17 | exactly the transactions of the selected month |
| MonthPages.MonthPage.Grouped | src/hooks/useExpenses.js:20-26 | one group per date of the month, holding exactly that date's transactions of the month |
| MonthPages.MonthPage.SortedDates | src/hooks/useExpenses.js:28-32 | each group's date once, newest first |
| MonthPages.MonthPage.CategoryMap | src/hooks/useExpenses.js:39-44 | each category's entry is the sum of its transactions of the month, and the entries add up to the month's total |
| MonthPages.MonthPage.GoToPrevMonth | src/hooks/useIncomes.js:39-44 | the selection moves to the month before, which `GoToNextMonth` undoes |
| MonthPages.MonthPage.GoToNextMonth | src/hooks/useIncomes.js:46-51 | the selection moves to the month after, which `GoToPrevMonth` undoes |
| MonthPages.MonthTotal | src/hooks/useExpenses.js:34-44 | the month's total equals the sum of the per-category totals of `categoryMap` and the sum of the filtered month's amounts |
| FinanceEngine.CalculateTotals | src/utils/financeEngine.js:3-8 | total income and total expense are the sums of the amounts; the net balance is their difference |
| FinanceEngine.NewestFirstIso | src/utils/financeEngine.js:17-21 | the date keys reordered (a permutation), newest first by the ISO reading of the reversed `DD.MM.YYYY` fields |
| FinanceEngine.GroupExpensesByDate | src/utils/financeEngine.js:10-23 | one group per date text present, holding exactly that date's expenses in input order; the sorted dates list every group once, newest first |
| FinanceEngine.ClampedPercent | src/utils/financeEngine.js:60-64 | the progress lies in [0, 100]; it is NaN exactly for 0/0; inside the cycle it is the plain elapsed fraction times 100 |
| FinanceEngine.PercentOfWhole | src/utils/financeEngine.js:62 | `(part / whole) * 100` equals `part * 100 / whole`, and lies in [0, 100] for a part of a positive whole |
| FinanceEngine.CalculateGoalProgress | src/utils/financeEngine.js:25-79 | the start and target dates of each of the three branches (between the paydays, after the second, before the first), the payday it waits for, progress clamped to [0, 100], days left rounded up |
| FinanceEngine.LaterDayIsLater | src/utils/financeEngine.js:41-44 | a later day of the current month lies after the current instant |
| FinanceEngine.EarlierDayIsEarlier | src/utils/financeEngine.js:41-43 | a day of the current month up to today lies at or before the current instant |
| FinanceEngine.CycleContainsNow | src/utils/financeEngine.js:34-67 | with paydays 1..28, the cycle starts at or before now and ends after it, so the progress is unclamped and at least one day is left |
| FinanceEngine.PrevMonthDayIsEarlier | src/utils/financeEngine.js:55 | the second payday of the previous month lies before now |
| FinanceEngine.CalculateNextSalaryInfo | src/utils/financeEngine.js:81-113 | each payday moves to next month once today has reached its day; the earlier candidate wins, ties going to salary 2, with that salary's amount and label |
| FinanceEngine.NextSalaryIsAhead | src/utils/financeEngine.js:89-106 | for paydays on day 1 or later both candidates, and so the chosen payday, lie after now, and the chosen one is the earlier |
| FinanceEngine.CandidateIsAhead | src/utils/financeEngine.js:90-95 | a payday candidate always lies after the current instant |
| FinanceEngine.DaysRemaining | src/utils/financeEngine.js:116-119 | the whole days left are never negative and are positive exactly when the payday is still ahead |
| FinanceEngine.CalculateDailyLimit | src/utils/financeEngine.js:115-126 | the limit is never negative; it is positive exactly for a positive balance and a payday ahead, and then spreads the whole balance over the days left |
| FinanceEngine.TallyCategories | src/utils/financeEngine.js:129-133 | the per-category totals, keys in first-seen order, and they add up to the whole spend |
| FinanceEngine.TallyDates | src/utils/financeEngine.js:135-139 | the per-date totals, keys in first-seen order, and they add up to the whole spend |
| FinanceEngine.GetChartData | src/utils/financeEngine.js:128-142 | both maps of the chart data, each adding up to the whole spend |
| FinanceEngine.GetTrendData | src/utils/financeEngine.js:144-172 | one point per month of the window, oldest first, holding that month's income and expense by the split-field date test |
| FinanceEngine.MonthPoint | src/utils/financeEngine.js:149-169 | one pass of the loop builds the point of the month `i` months back in the window |
| FinanceEngine.TrendMonthsConsecutive | src/utils/financeEngine.js:148-151 | the window's months are valid and consecutive, and the last one is the current month |
| FinanceEngine.Column | src/utils/financeEngine.js:196-201 | a category's line has one value per month so far |
| FinanceEngine.ColumnCells | src/utils/financeEngine.js:184-201 | value k of a category's line is that category's spend in the k-th month of the window |
| FinanceEngine.PushMonth | src/utils/financeEngine.js:196-201 | each category's line grows by its spend in the month; other keys keep their lines |
| FinanceEngine.GetCategoryTrendData | src/utils/financeEngine.js:174-205 | one raw date per month, one line per distinct category in first-seen order, each with that category's monthly spend |
| FinanceEngine.FillMonths | src/utils/financeEngine.js:184-202 | the month loop leaves one raw date per month and every category's full line |
| FinanceEngine.CategoryTrendAddsUp | src/utils/financeEngine.js:191-201 | the category lines of a month add up to that month's expense in the trend series |
| FinanceEngine.SpendingDays | src/utils/financeEngine.js:213-215 | the number of distinct dates is zero exactly when there are no expenses |
| FinanceEngine.AvgDailySpend | src/utils/financeEngine.js:216 | the spend spread over the days with spending (1 when none), between 0 and the total for a non-negative total |
| FinanceEngine.EvenShare | src/utils/financeEngine.js:216 | dividing by n >= 1 and multiplying back gives the total, and the share lies between 0 and the total |
| FinanceEngine.TopIsFirstMaximum | src/utils/financeEngine.js:219-226 | the scan picks the first category holding the largest positive amount, and ("", 0) when none is positive |
| FinanceEngine.ToFixed0 | src/utils/financeEngine.js:227 | `toFixed(0)` rounds to the nearest integer, halves away from zero |
| FinanceEngine.BalanceRule | src/utils/financeEngine.js:235-261 | a non-positive balance gives the critical card; a positive one gives the high-spending card above 110 % of the limit, the budget-control card below 85 %, and nothing in between |
| FinanceEngine.CategoryRule | src/utils/financeEngine.js:263-271 | the category card appears exactly for a non-empty name whose rounded share exceeds 35 %, which needs at least 35.5 % of a positive total |
| FinanceEngine.SalaryRule | src/utils/financeEngine.js:273-281 | the payday card appears exactly when one to seven days are left, carrying those days and the label ("Gelir" when empty) |
| FinanceEngine.PaydayReminderWithinWeek | src/utils/financeEngine.js:230-232 | with paydays on day 1 or later, the card shows exactly when the payday is at most seven days away |
| FinanceEngine.RecurringRule | src/utils/financeEngine.js:284-302 | at most one reminder per payment, each for a payment due in 0 to 5 days; a single payment gives exactly its own reminder |
| FinanceEngine.RecurringRuleAppend | src/utils/financeEngine.js:284-302 | the reminders of two payment lists back to back are the first list's followed by the second's: profile order |
| FinanceEngine.RemindersFromPayments | src/utils/financeEngine.js:284-302 | a reminder is announced if and only if it is the reminder of some payment of the profile |
| FinanceEngine.Reminder | src/utils/financeEngine.js:286-299 | one payment's reminder appears exactly when its due date is zero to five days away, carrying the payment's name and that count |
| FinanceEngine.RemindPayment | src/utils/financeEngine.js:286-299 | one pass of the loop: the due date this month, or next month once the day has passed, and the reminder of that payment |
| FinanceEngine.RecurringAnnounced | src/utils/financeEngine.js:286-300 | every payment due within 0 to 5 days gets its reminder |
| FinanceEngine.DueThisMonth | src/utils/financeEngine.js:286-291 | a payment due today or later this month is exactly `day - today` days away |
| FinanceEngine.CountSpendingDays | src/utils/financeEngine.js:213-215 | the loop counts the distinct dates |
| FinanceEngine.TopCategory | src/utils/financeEngine.js:219-226 | the loop computes the top entry of the category map |
| FinanceEngine.RemindPayments | src/utils/financeEngine.js:284-302 | the loop appends exactly the recurring reminders, one per due payment in profile order |
| FinanceEngine.GenerateAnalyticInsights | src/utils/financeEngine.js:207-305 | the balance card, then the category card, then the payday card, then the payment reminders |
| FinanceEngine.BalanceCard | src/utils/financeEngine.js:235-261 | the balance card: critical at a balance of zero or less, otherwise high spending above 110 % and budget control below 85 % of the daily limit |
| FinanceEngine.CategoryCard | src/utils/financeEngine.js:263-271 | the category card is appended exactly when there is a top category and its rounded share exceeds 35 % |
| FinanceEngine.PaydayCard | src/utils/financeEngine.js:273-281 | the payday card is appended exactly when the payday is one to seven days away, labelled "Gelir" when its source is empty |
| FinanceEngine.WithinSplit | src/utils/financeEngine.js:317-322 | adjacent windows split the spend of their union |
| FinanceEngine.GetWeeklyBreakdown | src/utils/financeEngine.js:307-329 | one row per week, oldest first, labelled "k. Hafta", holding the spend dated in that seven-day window |
| FinanceEngine.WeekRowBack | src/utils/financeEngine.js:312-326 | one pass of the loop builds the row of the week ending i weeks before now, numbered from the oldest week |
| FinanceEngine.WeeksAddUp | src/utils/financeEngine.js:311-327 | the first m weeks together hold the spend of their combined window |
| FinanceEngine.RowsAreWeeks | src/utils/financeEngine.js:323-327 | rows built week by week add up to the weeks' totals |
| FinanceEngine.WeeklyTotal | src/utils/financeEngine.js:307-329 | the whole breakdown adds up to the spend dated in the last n weeks before now |
| FinanceEngine.GetCategoryVsBudget | src/utils/financeEngine.js:331-348 | one row per category spent on this month, with that category's spend and the fixed budget 5000, largest spend first |
| FinanceEngine.BudgetRowsFacts | src/utils/financeEngine.js:338-347 | sorting the rows keeps each category's row exactly once |
| FinanceEngine.RowsMembers | src/utils/financeEngine.js:338-347 | after sorting, every category of the month has its row and every row belongs to one |
| Predictions.SumXClosed | src/utils/predictions.js:18 | the sum of the x values 0..n-1 is n(n-1)/2 |
| Predictions.SumX2Closed | src/utils/predictions.js:21 | the sum of the squares 0..(n-1)² is (n-1)n(2n-1)/6 |
| Predictions.Denominator | src/utils/predictions.js:23 | the slope's denominator `n·Σx² − (Σx)²` is n²(n²−1)/12 |
| Predictions.SpreadPositive | src/utils/predictions.js:23 | from two values on that denominator is positive, so the slope is defined |
| Predictions.LinearRegression | src/utils/predictions.js:11-31 | no values give the flat line at 0, one value the flat line at that value |
| Predictions.FitSolves | src/utils/predictions.js:23-24 | the computed slope and intercept solve the least-squares normal equations |
| Predictions.Regression | src/utils/predictions.js:11-31 | from two values on, the regression is the least-squares fit over the series' sums |
| Predictions.ThroughMeanPoint | src/utils/predictions.js:23-29 | the fitted line passes through the mean point ((n-1)/2, mean) |
| Predictions.FitThroughMean | src/utils/predictions.js:24 | the intercept formula puts the line through the mean point |
| Predictions.LineRecovered | src/utils/predictions.js:11-31 | values lying exactly on a line give back that line |
| Predictions.SpreadIs | src/utils/predictions.js:23 | the closed form of the denominator is `n·Σx² − (Σx)²` |
| Predictions.FitRecovers | src/utils/predictions.js:23-24 | the sums of points on a line make the formulas return that line |
| Predictions.ConstantHasNoSlope | src/utils/predictions.js:11-31 | a constant series has slope 0 and intercept the constant |
| Predictions.SumsUnfold | src/utils/predictions.js:19-20 | the `reduce` sums grow by the last value and by index times last value |
| Predictions.OnLinePrefix | src/utils/predictions.js:15-16 | the prefix of a series on a line is on the line |
| Predictions.SumsOfLine | src/utils/predictions.js:18-21 | the four sums of a series on a line are those of the line |
| Predictions.SumYOfLine | src/utils/predictions.js:19 | Σy of a series on `a + b·i` is n·a + b·Σx |
| Predictions.SumXYOfLine | src/utils/predictions.js:20 | Σxy of a series on `a + b·i` is a·Σx + b·Σx² |
| Predictions.Max0 | src/utils/predictions.js:75 | `Math.max(0, x)` is at least 0 and x, and is one of them |
| Predictions.MovingAverage | src/utils/predictions.js:39-44 | the mean of the last `window` values, or of all when fewer; not a finite number (`None`) exactly where the division is by zero: no values, or a zero window |
| Predictions.MovingAverageOfConstant | src/utils/predictions.js:39-44 | the moving average of a constant series is the constant |
| Predictions.ConstantSum | src/utils/predictions.js:40 | a constant series sums to the constant times its length |
| Predictions.CalculateTrend | src/utils/predictions.js:51-56 | below two values the trend is 0 |
| Predictions.FlatHasNoTrend | src/utils/predictions.js:51-56 | a constant series has trend 0 |
| Predictions.TrendOfLine | src/utils/predictions.js:51-56 | the trend of a series on a line is the line's slope |
| Predictions.PredictNextMonthExpense | src/utils/predictions.js:63-80 | below two months all zeros; otherwise the point forecast clamped at 0, a ±15 % band whose lower end is clamped and upper end is not, confidence 0.85 |
| Predictions.ForecastFollowsLine | src/utils/predictions.js:68-75 | monthly totals on a line forecast the line's next value, clamped at 0 |
| Predictions.PointForecastOfLine | src/utils/predictions.js:71 | the raw forecast of a series on a line is the line at x = n |
| Predictions.AddDays | src/utils/predictions.js:203-207 | adding days moves the instant by whole days |
| Predictions.MonthAdvance | src/utils/predictions.js:212-216 | one month forward is at least 28 days forward |
| Predictions.AddMonthsIsLater | src/utils/predictions.js:212-216 | k months later is at least 28·k days later |
| Predictions.AddMonthsKeepsDay | src/utils/predictions.js:212-216 | for a day every month has, `addMonths` lands on that day of the shifted month |
| Predictions.DailyAverage | src/utils/predictions.js:105 | the average times the day is the spend; 0 for a negative day |
| Predictions.DaysUntilDepletion | src/utils/predictions.js:106 | never negative; positive only with budget left and spending; then the whole days that budget lasts at that rate |
| Predictions.SafeSpendingRate | src/utils/predictions.js:107-112 | what is left spread over the rest of the month (at least one day), clamped at 0 |
| Predictions.OnTrack | src/utils/predictions.js:114 | always on track without a positive budget; otherwise exactly when the average fits an even spread of the budget |
| Predictions.PercentUsed | src/utils/predictions.js:115 | the spent share of a positive budget in percent; 0 otherwise |
| Predictions.CalculateBudgetDepletion | src/utils/predictions.js:90-117 | day 0 gives the fresh-month record; otherwise days until depletion, a depletion date that many days after now (now itself for 0), the safe rate, the average, on-track and the percentage |
| Predictions.CeilDivBracket | src/utils/predictions.js:146 | `Math.ceil(a / b)` is the least whole number of b's reaching a |
| Predictions.ShareWithinSaving | src/utils/predictions.js:151 | the required monthly saving never exceeds the actual saving |
| Predictions.PredictGoalCompletion | src/utils/predictions.js:125-155 | impossible without a goal or positive saving; complete now when reached; otherwise the least number of months whose savings cover what is left, completion that many months on, and an even required saving no larger than the saving |
| Predictions.Incomes | src/utils/predictions.js:174 | the income column of the history |
| Predictions.Expenses | src/utils/predictions.js:175 | the expense column of the history |
| Predictions.ProjectionAt | src/utils/predictions.js:184-195 | the i-th projected month is i+1 months after now, income and expense non-negative and net their difference |
| Predictions.ProjectionFollowsLines | src/utils/predictions.js:177-187 | histories on lines project those lines forward, clamped at 0 |
| Predictions.PointOfLine | src/utils/predictions.js:29 | the regression of a series on a line predicts that line everywhere |
| Predictions.ProjectNetIncome | src/utils/predictions.js:163-198 | `months` entries; zeros for a history under two months, the regressions otherwise |
| Predictions.IsoYear | src/utils/predictions.js:235 | years 0..9999 are written with four digits |
| Predictions.IsoDate | src/utils/predictions.js:235 | the ISO day key is `YYYY-MM-DD` |
| Predictions.DayPairs | src/utils/predictions.js:233-236 | each expense paired with its day and amount, in order |
| Predictions.DayPairsTotal | src/utils/predictions.js:233-236 | pairing keeps the total |
| Predictions.InMonthDay | src/utils/predictions.js:229-235 | a date that passes the month filter decodes to a real day of that month |
| Predictions.DaysOfMonth | src/utils/predictions.js:228-237 | every day key is a real day of the selected month |
| Predictions.HeatPoints | src/utils/predictions.js:239-246 | one point per day key, in key order |
| Predictions.HeatPointsTotal | src/utils/predictions.js:239-246 | the points carry exactly the per-day totals |
| Predictions.HeatmapDays | src/utils/predictions.js:228-237 | the keys are the distinct days of the month's expenses |
| Predictions.HeatmapMeaning | src/utils/predictions.js:225-247 | one point per distinct day of the month's expenses, first-seen order, with its ISO date, weekday and day total; together they hold the month's spend |
| Predictions.PointsOfTally | src/utils/predictions.js:239-246 | each point's amount is the sum of its day's amounts |
| Predictions.CalculateDailyHeatmap | src/utils/predictions.js:225-247 | the method computes the heat map |
| Predictions.DailyTotals | src/utils/predictions.js:233-237 | the loop builds the per-day tally |
| Predictions.FilterMonth | src/utils/predictions.js:228-232 | the loop keeps exactly the month's expenses |
| Layout.Ids | src/hooks/useDashboard.js:143 | the default widget list is the large layout's ids in order |
| Layout.DefaultsHaveMinimums | src/hooks/useDashboard.js:9-102 | every default item of every breakpoint lists positive minimum sizes that its own size meets |
| Layout.Or | src/hooks/useDashboard.js:207-208 | `a || b` keeps a present non-zero value, else falls back |
| Layout.Find | src/hooks/useDashboard.js:203 | `find` returns the first item with the id, and nothing exactly when no item has it |
| Layout.DefaultMinimumsPositive | src/hooks/useDashboard.js:233-241 | a default that lists an item gives it positive minimums |
| Layout.Enforce | src/hooks/useDashboard.js:234-242 | an item keeps its id and place, takes the default minimums (or its own) and is raised to at least the default minimum size |
| Layout.EnforceAll | src/hooks/useDashboard.js:234 | every item of a breakpoint, enforced, in order |
| Layout.CalculatedLayouts | src/hooks/useDashboard.js:230-246 | the same breakpoints, each with its items enforced |
| Layout.CalculatedLayoutsMeetMinimums | src/hooks/useDashboard.js:230-246 | each item the grid is given is at least as large as before and as the minimum its default lists, and carries that minimum |
| Layout.Values | src/hooks/useDashboard.js:212 | `Object.values` lists the items by id in first-set order |
| Layout.LastWith | src/hooks/useDashboard.js:199-210 | the last item with an id, or none when no item has it |
| Layout.PutAllLookup | src/hooks/useDashboard.js:194-210 | after a run of assignments each id holds the last item assigned to it (or its earlier value), and earlier ids keep their places |
| Layout.Stamp | src/hooks/useDashboard.js:205-209 | an edited item keeps its place and size and takes the default minimums (or its own) |
| Layout.StampAll | src/hooks/useDashboard.js:199-210 | every incoming item stamped, in order |
| Layout.MergeKeepsAndStamps | src/hooks/useDashboard.js:187-213 | an id the edit mentions holds its last edited item with default minimums; another id keeps its previous item; previous ids stay in front |
| Layout.StampedLast | src/hooks/useDashboard.js:199-210 | the last stamped item for an id is the stamp of the last item for it |
| Layout.MergeBreakpoint | src/hooks/useDashboard.js:192-212 | the two loops compute the merged layout of one breakpoint |
| Layout.PutEach | src/hooks/useDashboard.js:195-197 | the `forEach` assignment loop leaves the map that the assignments, applied in order, describe |
| Layout.ChangedLayoutsFrame | src/hooks/useDashboard.js:187-216 | a breakpoint the edit does not name keeps its layout; a named one is present afterwards |
| Dashboard.Without | src/hooks/useDashboard.js:159 | exactly the other widgets; one fewer when the id was there once; unchanged when it was absent; a single widget is kept or dropped |
| Dashboard.WithoutAppend | src/hooks/useDashboard.js:159 | the filter distributes over concatenation, so the other widgets keep their order and multiplicity |
| Dashboard.DashboardState.constructor | src/hooks/useDashboard.js:128-150 | the current month, not editing, layout version 0, and the saved widget list and layouts or the defaults |
| Dashboard.DashboardState.ToggleWidget | src/hooks/useDashboard.js:152-172 | refused exactly when removing at three or fewer widgets; otherwise removes, or appends and resets the layouts with a new version; a duplicate-free list of three or more stays so |
| Dashboard.DashboardState.RemoveWidget | src/hooks/useDashboard.js:152-182 | refused exactly at three or fewer widgets; an unconfirmed call changes nothing; a confirmed visible id is filtered out with layouts and version kept; a confirmed hidden id is appended, the layouts reset to the defaults and the version bumped |
| Dashboard.DashboardState.OnLayoutChange | src/hooks/useDashboard.js:184-217 | outside edit mode nothing changes; in edit mode the reported breakpoints are merged into the layouts |
| Dashboard.DashboardState.ResetLayout | src/hooks/useDashboard.js:219-227 | when confirmed: default layouts, a new layout version and edit mode off; otherwise nothing changes |
| Dashboard.DashboardState.SetEditMode | src/hooks/useDashboard.js:133 | only the edit flag changes |
| Dashboard.DashboardState.GoToPrevMonth | src/hooks/useDashboard.js:306-311 | the selection moves to the previous month and stays valid; nothing else changes |
| Dashboard.DashboardState.GoToNextMonth | src/hooks/useDashboard.js:313-318 | the selection moves to the next month and stays valid; nothing else changes |
| Dashboard.MergeLayouts | src/hooks/useDashboard.js:187-216 | the loop over the reported breakpoints computes the changed layouts |
| Dashboard.AddThenRemove | src/hooks/useDashboard.js:159 | filtering out a just-appended widget restores the list |
| DashboardCharts.MonthlyTotals | src/hooks/useDashboard.js:273-275 | the month's expense and income totals and the balance between them |
| DashboardCharts.DayTextPairs | src/hooks/useDashboard.js:340-344 | each expense keyed by its day field as written |
| DashboardCharts.DateMapFacts | src/hooks/useDashboard.js:340-352 | the bar chart lists each day key once, in ascending day order, and its bars add up to the spend |
| DashboardCharts.MonthlyDateMapTotal | src/hooks/useDashboard.js:340-352 | the month's bars add up to the month's expense total |
| DashboardCharts.WeekBuckets | src/hooks/useDashboard.js:404 | days 1-7, 8-14 and 15-21 fill the first three weeks, and days 22-31 the fourth |
| DashboardCharts.WeekIndex | src/hooks/useDashboard.js:403-405 | an expense lands in a bucket 0..3, or in none when its day field is not a number of at least 1 |
| DashboardCharts.WeeklyBudget | src/hooks/useDashboard.js:398-427 | four buckets, each the spend that lands in it, and a budget bar of a quarter of the monthly budget (0 when unset) |
| DashboardCharts.WrittenDateBucket | src/hooks/useDashboard.js:403-404 | a date that decodes puts its expense in the bucket of its day |
| DashboardCharts.SharesOfOne | src/hooks/useDashboard.js:405 | an expense adds its whole amount to exactly one bucket |
| DashboardCharts.BucketsTotal | src/hooks/useDashboard.js:402-406 | the four buckets together hold every amount with a valid day field |
| DashboardCharts.WeeksCoverMonth | src/hooks/useDashboard.js:398-406 | when every expense of the month has a written date, the buckets add up to the month's spend |
| DashboardCharts.Outflows | src/hooks/useDashboard.js:433-439 | each expense as a negative flow with its date rank and day |
| DashboardCharts.Inflows | src/hooks/useDashboard.js:441-447 | each income as a positive flow with its date rank and day |
| DashboardCharts.Chronological | src/hooks/useDashboard.js:449 | the flows rearranged (a permutation), oldest first |
| DashboardCharts.CumulativeBalance | src/hooks/useDashboard.js:430-488 | the running balance after each flow in date order, labelled with its day; the single series [0] when there are none |
| DashboardCharts.RunningBalance | src/hooks/useDashboard.js:451-459 | after each flow, the sum of the flows so far, labelled with the flow's day |
| DashboardCharts.ChronologicalTotal | src/hooks/useDashboard.js:430-459 | the final running balance is the month's incomes less its expenses |
| DashboardCharts.OutflowSum | src/hooks/useDashboard.js:433-439 | the expense flows sum to minus the expenses |
| DashboardCharts.InflowSum | src/hooks/useDashboard.js:441-447 | the income flows sum to the incomes |
| DashboardCharts.PermutedFlowSum | src/hooks/useDashboard.js:449 | sorting does not change the sum of the flows |
| DashboardCharts.Column | src/hooks/useDashboard.js:525-543 | one month's expenses, incomes and net |
| DashboardCharts.YearComparison | src/hooks/useDashboard.js:520-564 | the selected month a year earlier, then the selected month |
| DashboardCharts.CurrentYearIsMonth | src/hooks/useDashboard.js:525-557 | this year's column repeats the monthly totals of the stat cards |
| DashboardCharts.WindowIsConsecutive | src/hooks/useDashboard.js:570-571 | the window is six consecutive months ending with the selected one |
| DashboardCharts.WindowTotals | src/hooks/useDashboard.js:569-577 | the window's monthly expense totals, oldest first |
| DashboardCharts.WindowFlows | src/hooks/useDashboard.js:612-626 | the window's monthly incomes and expenses, oldest first |
| DashboardCharts.ExpenseForecast | src/hooks/useDashboard.js:567-580 | the loop collects the window's totals and forecasts from them |
| DashboardCharts.IncomeProjection | src/hooks/useDashboard.js:610-629 | the loop collects the window's flows and projects six months from them |
| DashboardCharts.TotalHistory | src/hooks/useDashboard.js:568-576 | the loop's totals are the window's monthly expense totals, oldest first |
| DashboardCharts.TotalBack | src/hooks/useDashboard.js:570-574 | the total for `i` months back is the window's entry `5 - i` |
| DashboardCharts.FlowHistory | src/hooks/useDashboard.js:612-626 | the loop's flows are the window's monthly incomes and expenses, oldest first |
| DashboardCharts.FlowBack | src/hooks/useDashboard.js:614-625 | the flow for `i` months back is the window's entry `5 - i` |
| DashboardCharts.BudgetDepletion | src/hooks/useDashboard.js:583-595 | the month's spend against the budget (0 when unset), with today's day and the selected month's length |
| DashboardCharts.DepletionIgnoresSelectedDay | src/hooks/useDashboard.js:584-586 | two selected months of equal length give the same estimate: the elapsed days are always today's |
| DashboardCharts.MainGoal | src/hooks/useDashboard.js:603 | the first goal marked main, or the first goal when none is |
| DashboardCharts.GoalPrediction | src/hooks/useDashboard.js:598-607 | no prediction without goals; otherwise the main goal against the month's net savings |
| App.StripHash | src/App.jsx:23 | the text after one optional leading `#` |
| App.ByteAt | src/App.jsx:25-27 | two hex digits read as a byte 0..255 |
| App.HexToRgb | src/App.jsx:22-29 | a colour exactly for six hex digits of either case after an optional `#`, with channels 0..255 read from the pairs; `null` otherwise |
| App.HexChar | src/App.jsx:33 | `toString(16)` of a digit is a hex digit of that value |
| App.HexByte | src/App.jsx:33 | a byte written as exactly two hex digits that read back as it |
| App.RgbText | src/App.jsx:33 | the `#rrggbb` text of a colour |
| App.ColorRoundTrip | src/App.jsx:22-29 | reading back the text of a colour gives the colour |
| App.ParseHexPair | src/App.jsx:33 | `parseInt(pair, 16)` of two hex digits is their byte |
| App.Clamp | src/App.jsx:33 | `Math.min(255, Math.max(0, v))` lies in 0..255 and keeps values already there |
| App.AdjustPair | src/App.jsx:33 | each replaced pair is two characters |
| App.AdjustColor | src/App.jsx:32-34 | the adjusted colour starts with `#` |
| App.Shifted | src/App.jsx:33 | the shifted channels lie in 0..255 |
| App.AdjustHexPair | src/App.jsx:33 | a hex pair is replaced by its shifted, clamped byte |
| App.AdjustedText | src/App.jsx:32-34 | adjusting a colour writes the shifted, clamped channels as lower-case `#rrggbb` |
| App.AdjustShiftsChannels | src/App.jsx:32-34 | adjusting a colour gives a colour whose channels are the old ones shifted and clamped |
| App.AdjustTwoPairs | src/App.jsx:33 | two hex pairs become their two adjusted bytes |
| App.AdjustThreePairs | src/App.jsx:33 | six hex digits become the three adjusted bytes |
| App.ContrastColor | src/App.jsx:37-43 | black exactly for a colour with YIQ brightness of at least 128, white otherwise (and for non-colours) |
| App.ContrastExtremes | src/App.jsx:37-43 | white takes black text, black takes white text, and a colour lightened by 255 takes black text |
| App.WithIds | src/App.jsx:82-90 | every record without an id gets the fresh id of its position; records with an id and all other fields are untouched |
| App.WithIdsIdempotent | src/App.jsx:82-90 | back-filling ids twice changes nothing the second time |
| App.UniqueNew | src/App.jsx:203-207 | exactly the incoming records whose id and date-amount-description key are both new, each as often as it came |
| App.Merged | src/App.jsx:202-218 | the previous list unchanged at the front, followed by exactly the new records |
| App.MergeIdempotent | src/App.jsx:201-218 | merging the same backup twice adds nothing the second time |
| App.FindAccount | src/App.jsx:226 | the first index of an account with that bank and type, and none exactly when no account has them |
| App.UpsertSlots | src/App.jsx:226-228 | each old slot keeps its key and its account or the new one; the new account is present; the list grows only for a new key |
| App.UpsertKeys | src/App.jsx:226-228 | the keys become the old ones plus the new account's; one account per key is kept |
| App.UpsertAll | src/App.jsx:222-231 | the keys become the old plus the imported ones; old slots keep their keys; added slots hold imported accounts; one account per key is kept |
| App.UpsertAllStep | src/App.jsx:225-229 | the accounts are upserted one at a time, in order |
| App.UpsertAccounts | src/App.jsx:222-231 | the loop over the imported accounts computes the upsert |
| App.AppState.constructor | src/App.jsx:47-98 | each list from the stored snapshot, else the sample data, with ids back-filled; the stored or default profile; the welcome screen unless some expense or income is stored |
| App.AppState.ImportSuccess | src/App.jsx:189-242 | merge mode appends the new transactions, upserts accounts and adds the cash; any other mode replaces the lists and the parts present; the overview is shown |
| App.AppState.ClearData | src/App.jsx:252-261 | every list empty, cash 0, the default profile and the welcome screen |
| AiService.GetStoredKey | src/services/aiService.js:11 | the key stored under `${provider}_api_key`, or the empty text when there is none |
| AiService.SetStoredKey | src/services/aiService.js:12 | the storage gains exactly that provider's entry |
| AiService.StoredKeyRoundTrip | src/services/aiService.js:11-12 | a key that was set is read back, and every other provider's key is unchanged |
| AiService.StatementExcerpt | src/services/aiService.js:174 | the request carries the first 10000 characters of the statement: all of a shorter text, exactly 10000 of a longer one |
| AiService.StripFenceFree | src/services/aiService.js:184 | removing the fences leaves a fence-free body untouched and goes on with the rest |
| AiService.FencedReply | src/services/aiService.js:184 | a reply wrapped in a json code fence is cleaned to its trimmed body |
| AiService.PlainReply | src/services/aiService.js:184 | a reply without fences is only trimmed |
| AiService.PushHistory | src/services/aiService.js:204-216 | the new report comes first; the oldest is dropped when the history already held 20, so a history of at most 20 stays at most 20 |
| AiService.Migrated | src/services/aiService.js:225-228 | every old report is kept, in order, marked as a Gemini report |
| AiService.FindSession | src/services/aiService.js:373 | the index of a session with the id, and none exactly when no session has it |
| AiService.PutSession | src/services/aiService.js:371-385 | a known session is replaced in place and the length kept up to 10; a new one goes first, followed by the old sessions in order, and exactly min(n + 1, 10) sessions are kept |
| AiService.WithoutSession | src/services/aiService.js:392-396 | exactly the sessions with another id; a single session is kept or dropped by its id |
| AiService.WithoutSessionAppend | src/services/aiService.js:392-396 | the filter distributes over concatenation, so the kept sessions keep their order and multiplicity |
| AiService.DeleteAfterSave | src/services/aiService.js:371-396 | deleting a session that was just saved as new restores the list |
| AiService.NoSuchSession | src/services/aiService.js:394 | deleting an id no session has changes nothing |
| AiService.NewChatSession | src/services/aiService.js:398-407 | an empty "New Chat" session for the provider and model, stamped and named by the clock |
| AiService.NewSessionsDiffer | src/services/aiService.js:398-407 | sessions created at different moments have different ids |
| AiService.AiStore.constructor | src/services/aiService.js:205 | the store holds the given history, legacy history and sessions |
| AiService.AiStore.SaveToHistory | src/services/aiService.js:204-216 | the stored history becomes the old one (empty when none) with the new report pushed |
| AiService.AiStore.LoadHistory | src/services/aiService.js:218-235 | the stored history when there is one; else the migrated legacy history, which is stored and whose old entry is removed; else nothing |
| AiService.AiStore.SaveChatSession | src/services/aiService.js:371-385 | the stored sessions become `PutSession` of the loaded ones: the session replaced in place, or put first with the first min(n + 1, 10) kept |
| AiService.AiStore.DeleteChatSession | src/services/aiService.js:392-396 | the stored sessions become the loaded ones without that id, in their order (`WithoutSessionAppend`) |
| ImportWizard.FirstMatch | src/hooks/useImport.js:99-103 | the first rule one of whose keywords occurs in the lower-cased name, and none exactly when no rule matches |
| ImportWizard.DetectBank | src/hooks/useImport.js:82-105 | the name and colour class of the first matching bank, else "Bilinmeyen Banka" with `bank-default` |
| ImportWizard.KeywordsAreLowerCase | src/hooks/useImport.js:84-97 | every keyword is already lower case, so it can match a lower-cased name |
| ImportWizard.KeywordDetected | src/hooks/useImport.js:82-105 | a file name containing any bank keyword is detected as that bank or as a bank listed before it |
| ImportWizard.Enrich | src/hooks/useImport.js:132-134 | each parsed account moved to the detected bank and its colour class; one empty credit-card account of that bank when none were parsed |
| ImportWizard.BankColor | src/hooks/useImport.js:164 | the colour the bank list gives the name, and none exactly when it is not listed |
| ImportWizard.ChosenBank | src/hooks/useImport.js:164-167 | the chosen name with its listed colour, or grey for an unlisted name |
| ImportWizard.Relabel | src/hooks/useImport.js:168 | every account moved to the chosen bank; one empty credit-card account of it when the draft had no account list |
| ImportWizard.StatementDraft | src/hooks/useImport.js:127-137 | a draft exactly when the reply holds an expense list, tagged with the detected bank and with its accounts enriched |
| ImportWizard.WithBank | src/hooks/useImport.js:165-169 | the draft tagged with the chosen bank and every account relabelled |
| ImportWizard.StatementDraftIsGood | src/hooks/useImport.js:127-137 | a statement draft holds expenses and every account in it belongs to its bank |
| ImportWizard.WithBankIsGood | src/hooks/useImport.js:161-171 | choosing a bank keeps a draft well formed |
| ImportWizard.SettingOr | src/hooks/useImport.js:24-25 | the stored provider or model, or the default when it is missing or empty |
| ImportWizard.FailureText | src/hooks/useImport.js:142 | the error's own message, or the generic one when it is empty; never empty |
| ImportWizard.ProcessOutcome | src/hooks/useImport.js:116-146 | a draft exactly when the text was extracted, the provider reads statements and the reply holds expenses; otherwise a failure with the extraction's, the provider's, the request's or the "no meaningful output" message |
| ImportWizard.Wizard.constructor | src/hooks/useImport.js:23-32 | the select screen with nothing loaded, the stored or default provider and model, and the stored Gemini key |
| ImportWizard.Wizard.PdfSelect | src/hooks/useImport.js:35-43 | a PDF is taken and the error cleared; anything else leaves the file and shows the "not a PDF" error |
| ImportWizard.Wizard.SetProvider | src/hooks/useImport.js:46-50 | the provider is set and stored, and the key becomes that provider's stored key |
| ImportWizard.Wizard.SetModel | src/hooks/useImport.js:52-55 | the model is set and stored |
| ImportWizard.Wizard.JsonSelect | src/hooks/useImport.js:58-79 | no file changes nothing; a valid backup goes to confirmation, an invalid one or a read error to the error screen with its message; loading ends |
| ImportWizard.Wizard.PdfProcess | src/hooks/useImport.js:108-147 | without a file or a key only the matching error is shown; otherwise the statement is processed for the bank guessed from the file name |
| ImportWizard.Wizard.ProcessStatement | src/hooks/useImport.js:116-146 | the review screen with the draft, or the error screen with the outcome's message; the extracted text is kept; loading ends |
| ImportWizard.Wizard.GoToBankSelect | src/hooks/useImport.js:150-158 | with a draft, the bank screen with the detected bank preselected; without one nothing changes |
| ImportWizard.Wizard.BankSelected | src/hooks/useImport.js:161-171 | the chosen bank is selected, the draft relabelled to it, and confirmation shown |
| ImportWizard.Wizard.FinalImport | src/hooks/useImport.js:174-179 | with a draft, its data and the mode are handed over and success shown; without one nothing happens |
| Goals.WithoutGoal | src/hooks/useGoals.js:45 | exactly the goals with another id |
| Goals.WithoutGoalAppend | src/hooks/useGoals.js:45 | the filter keeps order: it distributes over concatenation |
| Goals.WithoutAbsentGoal | src/hooks/useGoals.js:45 | deleting an id no goal has changes nothing |
| Goals.DeleteAfterAdd | src/hooks/useGoals.js:26-47 | deleting a goal that was just added under a new id restores the list |
| Goals.Deposited | src/hooks/useGoals.js:53-63 | only the saved amount of the goals with the id changes, by the amount |
| Goals.DepositCredit | src/hooks/useGoals.js:53-63 | a deposit raises the total saved by what it credits, the amount for each goal with the id |
| Goals.CreditCount | src/hooks/useGoals.js:53-63 | what a deposit credits is the amount times the number of goals with the id |
| Goals.DepositTotal | src/hooks/useGoals.js:53-63 | a deposit raises the total saved by the amount once per goal with the id |
| Goals.DepositUndone | src/hooks/useGoals.js:53-63 | withdrawing the deposited amount restores every goal |
| Goals.GoalsPage.constructor | src/hooks/useGoals.js:9-19 | the saved goals (none when nothing is saved), a closed empty form, no selection and no amount |
| Goals.GoalsPage.AddGoal | src/hooks/useGoals.js:26-41 | refused, changing nothing, exactly when the title or the target is empty; otherwise one goal with the clock's id, the target and the starting amount (0 when empty) is appended and the form reset and closed |
| Goals.GoalsPage.Delete | src/hooks/useGoals.js:43-47 | on confirmation the goals without that id, otherwise the goals unchanged |
| Goals.GoalsPage.Deposit | src/hooks/useGoals.js:49-68 | without an amount or a selected goal nothing changes; otherwise the deposit is applied, celebrated exactly when it makes the goal reach its target, and the selection and amount are cleared |
| ProfileEditor.Edited | src/hooks/useProfile.js:38 | the payment with only the edited field replaced (an empty day as 0) and the same id |
| ProfileEditor.Updated | src/hooks/useProfile.js:37-39 | every payment with the id edited, every other one untouched, order and ids kept |
| ProfileEditor.WithoutPayment | src/hooks/useProfile.js:30 | exactly the payments with another id; a single payment is kept or dropped by its id |
| ProfileEditor.WithoutPaymentAppend | src/hooks/useProfile.js:30 | the filter distributes over concatenation, so the kept payments keep their order and multiplicity |
| ProfileEditor.NewPayment | src/hooks/useProfile.js:14-20 | the payment "Yeni Ödeme" of 0 on day 1 in category "Diğer", with id `rec_` and the clock |
| ProfileEditor.UpdateIdempotent | src/hooks/useProfile.js:34-41 | repeating an edit changes nothing more |
| ProfileEditor.RemoveAfterUpdate | src/hooks/useProfile.js:27-41 | removing a payment discards any edit made to it |
| ProfileEditor.WithoutAbsentPayment | src/hooks/useProfile.js:30 | removing an id no payment has changes nothing |
| ProfileEditor.RemoveAfterAdd | src/hooks/useProfile.js:13-32 | removing a payment just added under a new id restores the list |
| ProfileEditor.Editor.constructor | src/hooks/useProfile.js:4-5 | a copy of the user's profile, not saved |
| ProfileEditor.Editor.Save | src/hooks/useProfile.js:7-9 | the edited profile is handed over unchanged and `saved` is shown |
| ProfileEditor.Editor.SavedTimeout | src/hooks/useProfile.js:10 | `saved` is hidden again and the profile is unchanged |
| ProfileEditor.Editor.AddRecurring | src/hooks/useProfile.js:13-25 | exactly the new payment is appended to the recurring payments |
| ProfileEditor.Editor.RemoveRecurring | src/hooks/useProfile.js:27-32 | the recurring payments lose the id, the others in their order (`WithoutPaymentAppend`); the rest of the profile is unchanged |
| ProfileEditor.Editor.UpdateRecurring | src/hooks/useProfile.js:34-41 | the recurring payments are edited, the rest of the profile is unchanged |
| AccountsPage.BankOf | src/hooks/useAccounts.js:17 | the transaction's bank, or "Bilinmeyen" exactly when it is missing or empty (or that very name) |
| AccountsPage.ByBank | src/hooks/useAccounts.js:16-19 | each expense as its bank and amount, in order |
| AccountsPage.OfBank | src/hooks/useAccounts.js:16-19 | exactly the expenses booked under the bank |
| AccountsPage.BankAmount | src/hooks/useAccounts.js:15-21 | the amounts accumulated under a bank are the sum of its expenses |
| AccountsPage.BankValue | src/hooks/useAccounts.js:15-21 | each bank's entry of `expensesByBank` is the sum of its expenses, 0 for a bank with none |
| AccountsPage.BankBreakdownTotal | src/hooks/useAccounts.js:10-21 | each bank is listed once and the entries add up to the page's total expense |
| AccountsPage.WithBalance | src/hooks/useAccounts.js:34-35 | only the account at the index changes, to the new balance |
| AccountsPage.AccountsEditor.constructor | src/hooks/useAccounts.js:4-7 | both editors closed, the cash field holding the cash, the balance field 0 |
| AccountsPage.AccountsEditor.CashSave | src/hooks/useAccounts.js:24-29 | the typed cash (0 when empty) is handed over when the application listens; the editor closes |
| AccountsPage.AccountsEditor.AccountSave | src/hooks/useAccounts.js:32-39 | the accounts with only that one's balance set to the typed value (0 when empty) are handed over when the application listens; the editor closes |

## Left out

- Rendering, the grid library, themes and their CSS, translations, `Intl` number formatting, the
  export download and the report download: presentation only.
- The network calls to the AI providers, PDF text extraction and the reading of files: foreign
  code. Their outcomes are parameters: `PdfOutcome`, `AiReply` and `JsonRead`.
- `JSON.parse`/`JSON.stringify` of stored values: stored values are modelled as typed fields or
  maps, so text that fails to parse is not modelled. A backup part that is not an array reads as
  missing.
- `Math.random` and `Date.now`: ids and time stamps are parameters (`nowMs`, fresh id lists).
- Time zones and daylight saving: instants are milliseconds with local time equal to UTC.
- Floating point: amounts are exact reals. `NaN` is modelled only where the code can produce it
  and it changes a result. In sort comparators it is not: a key without a date or day is given a
  fixed rank below every date (see the sort lines below). Rounding of displayed values is left out.
- FinanceEngine.NewestFirstIso: a date key that does not read as a date (an expense saved with an
  empty date) makes the comparator return `NaN`, so the source's order is the engine's choice.
  The model fixes one such order, with that key last.
- DashboardCharts.SortedDayKeys: the `""` day key (an expense with an empty date counts as today)
  makes `parseInt(a) - parseInt(b)` return `NaN`, so the source's order is the engine's choice.
  The model fixes one such order, with that key first.
- Ledger.NewestFirst: a key that `parseDate` cannot read would make the comparator return `NaN`.
  The model ranks it last. The views sort only dates of the selected month, and those parse.
- DashboardCharts.Chronological: a date that `parseDate` cannot read would make the comparator
  return `NaN`. The model ranks it first. The chart sorts only transactions of the selected month,
  whose dates parse.
- `Object.keys` puts integer-like keys first. Tallies keep insertion order for every key, so that
  reordering is not modelled. Day keys of per-day maps are written as text.
- The plain setters the hooks expose are not modelled: `setShowForm`, `setNewGoal`,
  `setSelectedGoal`, `setDepositAmount`, `setEditingCash`, `setTempCash`,
  `setEditingAccountIdx`, `setTempAccountBalance` and `setProfile`. `ImportWizard.Wizard.SetApiKey`
  and `SetMode` stand for the import wizard's.
- The goals' persisting effect and the goal colour (`var(--primary)`) are not modelled.
- `Text.ToLower` covers the ASCII and Latin-1 capitals and the Turkish `Ğ`, `Ş` and `İ`, not all
  of Unicode. `Text.ToUpper` covers only ASCII.
- AccountsPage.AccountsEditor.AccountSave: requires an index inside the list. The source would
  extend a sparse array for an index past the end.
- AccountsPage.AccountsEditor.CashSave, `AccountSave`, `Goals.GoalsPage.AddGoal` and `Deposit`:
  `parseFloat` of a form field is modelled as `NumText`, a field that is empty or holds a number.
  Text that is not a number is not modelled.
- ProfileEditor.Edited: an amount edit stores a number, where the source stores the field's
  text. A day edit of a non-integer number is not modelled.
- Goals.GoalsPage.Deposit: the celebration is a single flag. The source raises one alert for
  each goal with the selected id that reaches its target.
- ImportWizard.Wizard.BankSelected: requires a draft. The bank screen is reached only with one.
- ImportWizard.Wizard.constructor: the initial key is the stored Gemini key whatever the stored
  provider is, as in the source.
- ImportWizard.DetectBank: a file name written with the capital `İ` (`İş Bankası`) lower-cases
  to `i` followed by a combining dot. The keyword `iş bankası` then does not match it, as in the
  source.
- ImportWizard.Wizard.FinalImport: the hand-over to the application is returned. It is not a
  call into `App`. `App.AppState.ImportSuccess` models what the application does with it.
- App.AppState.ImportSuccess: import amounts are taken to be numbers already. The source applies
  `Number()` to them. Duplicates are recognised by the date, amount and description triple.
- App.AdjustColor: the amount is an integer. The function is not called by the application.
- Dashboard.DashboardState.RemoveWidget: a confirmed removal of an id that is not visible adds
  it, because the source toggles. The "at least three widgets" guarantee assumes a list without
  duplicates.
- DashboardCharts.WeekIndex: an expense whose date has no day part lands in no weekly bucket.
- DashboardCharts.BudgetDepletion: the elapsed days are today's, whatever month is selected, as
  in the source.
- Predictions.ProjectNetIncome: the regression of the net amounts that the source computes is
  never used, so the model does not compute it.
- Ledger.ParseDate: a year of `0000` is accepted as a day of year 0, where the date library
  rejects it; text with trailing spaces is rejected, where the date library accepts it.
- Ledger.IsoDateInstant: only zero-padded fields are read. Unpadded fields such as `5.3.2024`
  reach the engine's non-standard fallback date parser, which reads them as a date; the model
  gives no date, so such a key ranks as an unparsable date in `FinanceEngine.IsoRank`.
- Predictions.CalculateDailyHeatmap: the heat map is keyed by the day of the month,
  which determines the ISO date within the month.

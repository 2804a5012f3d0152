/**
 * What the dashboard derives from the transaction lists for its selected month: the monthly totals,
 * the per-day bar chart, the four weekly budget buckets, the running balance, the comparison with
 * the same month a year earlier, the six-month windows fed to the forecasts, and the inputs of the
 * budget-depletion and goal predictions.
 */
module DashboardCharts {
  import opened Wrappers
  import opened Calendar
  import opened Text
  import opened Domain
  import opened Ledger
  import opened Predictions
  import Sorting

  // ---------------------------------------------------------------------------------------------
  // Monthly totals

  datatype MonthTotals = MonthTotals(expenseTotal: real, incomeTotal: real, balance: real)

  /** `monthlyExpenseTotal`, `monthlyIncomeTotal` and `monthlyBalance` of the selected month. */
  function MonthlyTotals(expenses: seq<Transaction>, incomes: seq<Transaction>, sel: MonthRef, now: Now): (r: MonthTotals)
    ensures r.expenseTotal == Sum(OfMonth(expenses, sel, now))
    ensures r.incomeTotal == Sum(OfMonth(incomes, sel, now))
    ensures r.balance == r.incomeTotal - r.expenseTotal
  {
    var expense := MonthSum(expenses, sel, now);
    var income := MonthSum(incomes, sel, now);
    MonthTotals(expense, income, income - expense)
  }

  // ---------------------------------------------------------------------------------------------
  // monthlyDateMap: the per-day bar chart

  /** `date.split('.')[0]`: the day field as written. */
  function DayText(date: string): string {
    Split(date, '.')[0]
  }

  function DayTextPairs(xs: seq<Transaction>): (pairs: seq<(string, real)>)
    ensures |pairs| == |xs|
    ensures forall i :: 0 <= i < |xs| ==> pairs[i] == (DayText(xs[i].date), xs[i].amount)
  {
    if |xs| == 0 then [] else DayTextPairs(xs[..|xs| - 1]) + [(DayText(xs[|xs| - 1].date), xs[|xs| - 1].amount)]
  }

  /** The spend per day field of a list (`acc[day] = (acc[day] || 0) + amount`). */
  function DateMap(xs: seq<Transaction>): Tally<string> {
    TallyOf(DayTextPairs(xs))
  }

  /** `monthlyDateMap`: the month's spend per day field. */
  function MonthlyDateMap(expenses: seq<Transaction>, sel: MonthRef, now: Now): Tally<string> {
    DateMap(OfMonth(expenses, sel, now))
  }

  /** The `parseInt` of a day key; a key with no number (`NaN`) ranks below every number. */
  function DayNumber(key: string): real {
    RankOf(ParseInt(key))
  }

  /** `Object.keys(dateMap).sort((a, b) => parseInt(a) - parseInt(b))`. */
  function SortedDayKeys(m: Tally<string>): seq<string> {
    Sorting.SortBy(m.keys, DayNumber, false)
  }

  /**
   * The bar chart lists each day key once, in ascending day order, and its bars add up to the total
   * spend of the list.
   */
  lemma DateMapFacts(xs: seq<Transaction>)
    ensures var m := DateMap(xs);
            var keys := SortedDayKeys(m);
            && (forall k :: k in keys <==> k in m.totals)
            && (forall i, j :: 0 <= i < j < |keys| ==> keys[i] != keys[j])
            && (forall i, j :: 0 <= i < j < |keys| ==> DayNumber(keys[i]) <= DayNumber(keys[j]))
            && SumOver(m.keys, m.totals) == Sum(xs)
  {
    var pairs := DayTextPairs(xs);
    TallyKeys(pairs);
    Sorting.PermutationKeepsDistinct(TallyOf(pairs).keys, SortedDayKeys(TallyOf(pairs)));
    TallyTotal(pairs);
    PairsTotal(xs, pairs);
  }

  /** For the selected month: the chart's bars add up to the month's spend shown on the stat card. */
  lemma MonthlyDateMapTotal(expenses: seq<Transaction>, incomes: seq<Transaction>, sel: MonthRef, now: Now)
    ensures var m := MonthlyDateMap(expenses, sel, now);
            SumOver(m.keys, m.totals) == MonthlyTotals(expenses, incomes, sel, now).expenseTotal
  {
    DateMapFacts(OfMonth(expenses, sel, now));
  }

  // ---------------------------------------------------------------------------------------------
  // weeklyBudgetData

  /** `Math.min(Math.floor((day - 1) / 7), 3)`. */
  function WeekBucket(day: int): int {
    var w := (day - 1) / 7;
    if w < 3 then w else 3
  }

  /** The bucket a day of a month falls in: days 1–7, 8–14 and 15–21 fill the first three weeks, and
    * days 22–31 all land in the fourth. */
  lemma WeekBuckets(day: int)
    requires 1 <= day <= 31
    ensures 0 <= WeekBucket(day) <= 3
    ensures WeekBucket(day) < 3 ==> 7 * WeekBucket(day) + 1 <= day <= 7 * WeekBucket(day) + 7
    ensures WeekBucket(day) == 3 <==> day >= 22
  {
  }

  /** The array slot an expense is added to: its bucket, or `None` when the day field is not a number
    * of at least 1 (an index such as `NaN` or `-1` adds to no bucket). */
  function WeekIndex(date: string): (r: Option<int>)
    ensures r.Some? ==> 0 <= r.value <= 3
  {
    match ParseInt(DayText(date))
    case None => None
    case Some(day) => if day >= 1 then Some(WeekBucket(day)) else None
  }

  /** The sum of the amounts that land in bucket `w`. */
  function WeekTotal(xs: seq<Transaction>, w: int): real {
    if |xs| == 0 then 0.0
    else WeekTotal(xs[..|xs| - 1], w) + (if WeekIndex(xs[|xs| - 1].date) == Some(w) then xs[|xs| - 1].amount else 0.0)
  }

  /** The weekly bar of the budget: `(monthlyBudget || 0) / 4`. */
  function WeeklyBudgetBar(monthlyBudget: Option<real>): real {
    monthlyBudget.GetOr(0.0) / 4.0
  }

  /** `weeklyBudgetData`: the four buckets of the month's spend and the budget bar each is drawn against. */
  method WeeklyBudget(inMonth: seq<Transaction>, monthlyBudget: Option<real>) returns (weekly: seq<real>, budgetBar: real)
    ensures |weekly| == 4 && forall w :: 0 <= w < 4 ==> weekly[w] == WeekTotal(inMonth, w)
    ensures budgetBar == WeeklyBudgetBar(monthlyBudget)
  {
    var weeklyExpenses := new real[4](_ => 0.0);
    for i := 0 to |inMonth|
      invariant forall w :: 0 <= w < 4 ==> weeklyExpenses[w] == WeekTotal(inMonth[..i], w)
    {
      var exp := inMonth[i];
      assert inMonth[..i + 1][..i] == inMonth[..i];
      match WeekIndex(exp.date)
      case Some(weekIndex) =>
        weeklyExpenses[weekIndex] := weeklyExpenses[weekIndex] + exp.amount;
      case None =>
    }
    assert inMonth[..|inMonth|] == inMonth;
    weekly := weeklyExpenses[..];
    budgetBar := WeeklyBudgetBar(monthlyBudget);
  }

  /** A written date that decodes puts its expense in the bucket of its day. */
  lemma WrittenDateBucket(date: string, now: Now)
    requires date != "" && ParseDate(date, now).Some?
    ensures WeekIndex(date) == Some(WeekBucket(ParseDate(date, now).value.day))
  {
    var f := Split(date, '.');
    assert DayText(date) == f[0];
    ParseIntOfDigits(f[0]);
  }

  /** The amount an expense adds to bucket `w`. */
  function Share(t: Transaction, w: int): real {
    if WeekIndex(t.date) == Some(w) then t.amount else 0.0
  }

  lemma SharesOfOne(t: Transaction)
    requires WeekIndex(t.date).Some?
    ensures Share(t, 0) + Share(t, 1) + Share(t, 2) + Share(t, 3) == t.amount
  {
    OneBucket(WeekIndex(t.date), t.amount);
  }

  /** An amount with a bucket among the four lands in exactly one of them. */
  lemma OneBucket(idx: Option<int>, amount: real)
    requires idx.Some? && 0 <= idx.value <= 3
    ensures (if idx == Some(0) then amount else 0.0) + (if idx == Some(1) then amount else 0.0)
            + (if idx == Some(2) then amount else 0.0) + (if idx == Some(3) then amount else 0.0) == amount
  {
  }

  /** The four buckets together hold every amount whose date has a day field of at least 1. */
  lemma {:induction false} BucketsTotal(xs: seq<Transaction>)
    requires forall t :: t in xs ==> WeekIndex(t.date).Some?
    ensures WeekTotal(xs, 0) + WeekTotal(xs, 1) + WeekTotal(xs, 2) + WeekTotal(xs, 3) == Sum(xs)
  {
    if |xs| > 0 {
      var init, last := xs[..|xs| - 1], xs[|xs| - 1];
      assert last in xs;
      assert forall t :: t in init ==> t in xs;
      BucketsTotal(init);
      SharesOfOne(last);
      assert forall w :: WeekTotal(xs, w) == WeekTotal(init, w) + Share(last, w);
    }
  }

  /** When every expense of the month carries a written date, the four buckets add up to the month's
    * spend. (An expense with an empty date counts in the current month but in no bucket.) */
  lemma WeeksCoverMonth(expenses: seq<Transaction>, sel: MonthRef, now: Now)
    requires forall t :: t in OfMonth(expenses, sel, now) ==> t.date != ""
    ensures var inMonth := OfMonth(expenses, sel, now);
            WeekTotal(inMonth, 0) + WeekTotal(inMonth, 1) + WeekTotal(inMonth, 2) + WeekTotal(inMonth, 3) == Sum(inMonth)
  {
    var inMonth := OfMonth(expenses, sel, now);
    forall t | t in inMonth
      ensures WeekIndex(t.date).Some?
    {
      assert InMonth(t.date, sel, now);
      WrittenDateBucket(t.date, now);
    }
    BucketsTotal(inMonth);
  }

  // ---------------------------------------------------------------------------------------------
  // cumulativeBalanceData

  /** One entry of `sortedTransactions`: its date's rank (`parseDate(date)`), its signed amount and
    * its day of month (`getDate()`). */
  datatype Flow = Flow(rank: real, amount: real, day: int)

  function Outflows(xs: seq<Transaction>, now: Now): (r: seq<Flow>)
    ensures |r| == |xs|
    ensures forall i :: 0 <= i < |xs| ==> r[i] == Flow(DateRank(xs[i].date, now), -xs[i].amount, DayOf(xs[i].date, now))
  {
    if |xs| == 0 then []
    else Outflows(xs[..|xs| - 1], now) + [Flow(DateRank(xs[|xs| - 1].date, now), -xs[|xs| - 1].amount, DayOf(xs[|xs| - 1].date, now))]
  }

  function Inflows(xs: seq<Transaction>, now: Now): (r: seq<Flow>)
    ensures |r| == |xs|
    ensures forall i :: 0 <= i < |xs| ==> r[i] == Flow(DateRank(xs[i].date, now), xs[i].amount, DayOf(xs[i].date, now))
  {
    if |xs| == 0 then []
    else Inflows(xs[..|xs| - 1], now) + [Flow(DateRank(xs[|xs| - 1].date, now), xs[|xs| - 1].amount, DayOf(xs[|xs| - 1].date, now))]
  }

  function FlowRank(f: Flow): real {
    f.rank
  }

  /** `sortedTransactions` after `sort((a, b) => a.date - b.date)`: expenses then incomes, oldest first. */
  function Chronological(inMonthExpenses: seq<Transaction>, inMonthIncomes: seq<Transaction>, now: Now): (r: seq<Flow>)
    ensures multiset(r) == multiset(Outflows(inMonthExpenses, now) + Inflows(inMonthIncomes, now))
    ensures forall i, j :: 0 <= i < j < |r| ==> r[i].rank <= r[j].rank
  {
    Sorting.SortBy(Outflows(inMonthExpenses, now) + Inflows(inMonthIncomes, now), FlowRank, false)
  }

  function FlowSum(fs: seq<Flow>): real {
    if |fs| == 0 then 0.0 else FlowSum(fs[..|fs| - 1]) + fs[|fs| - 1].amount
  }

  /**
   * `cumulativeBalanceData`: the running balance after each transaction of the month in date order,
   * labelled with its day; with no transactions the single series `[0]`.
   */
  method CumulativeBalance(inMonthExpenses: seq<Transaction>, inMonthIncomes: seq<Transaction>, now: Now)
    returns (balances: seq<real>, labels: seq<int>)
    ensures var sorted := Chronological(inMonthExpenses, inMonthIncomes, now);
            && (|sorted| == 0 ==> balances == [0.0] && labels == [])
            && (|sorted| > 0 ==>
                  |balances| == |sorted| == |labels|
                  && (forall k :: 0 <= k < |sorted| ==> balances[k] == FlowSum(sorted[..k + 1]) && labels[k] == sorted[k].day)
                  && balances[|sorted| - 1] == Sum(inMonthIncomes) - Sum(inMonthExpenses))
  {
    var sortedTransactions := Chronological(inMonthExpenses, inMonthIncomes, now);
    balances, labels := RunningBalance(sortedTransactions);
    if |balances| == 0 {
      return [0.0], [];
    }
    assert sortedTransactions[..|sortedTransactions|] == sortedTransactions;
    ChronologicalTotal(inMonthExpenses, inMonthIncomes, now);
  }

  /** The `forEach` that accumulates the balance: after each flow, the sum of the flows so far,
    * labelled with the flow's day. */
  method RunningBalance(sortedTransactions: seq<Flow>) returns (balances: seq<real>, labels: seq<int>)
    ensures |balances| == |sortedTransactions| == |labels|
    ensures forall k :: 0 <= k < |sortedTransactions| ==>
              balances[k] == FlowSum(sortedTransactions[..k + 1]) && labels[k] == sortedTransactions[k].day
  {
    var cumulativeBalance := 0.0;
    balances, labels := [], [];
    for k := 0 to |sortedTransactions|
      invariant |balances| == k == |labels|
      invariant cumulativeBalance == FlowSum(sortedTransactions[..k])
      invariant forall j :: 0 <= j < k ==>
                  balances[j] == FlowSum(sortedTransactions[..j + 1]) && labels[j] == sortedTransactions[j].day
    {
      assert sortedTransactions[..k + 1][..k] == sortedTransactions[..k];
      cumulativeBalance := cumulativeBalance + sortedTransactions[k].amount;
      balances := balances + [cumulativeBalance];
      labels := labels + [sortedTransactions[k].day];
    }
  }

  /** Sorting loses no amount: all the month's flows add up to its incomes less its expenses. */
  lemma ChronologicalTotal(inMonthExpenses: seq<Transaction>, inMonthIncomes: seq<Transaction>, now: Now)
    ensures FlowSum(Chronological(inMonthExpenses, inMonthIncomes, now)) == Sum(inMonthIncomes) - Sum(inMonthExpenses)
  {
    var outs := Outflows(inMonthExpenses, now);
    var ins := Inflows(inMonthIncomes, now);
    PermutedFlowSum(outs + ins, Chronological(inMonthExpenses, inMonthIncomes, now));
    FlowSumAppend(outs, ins);
    OutflowSum(inMonthExpenses, now);
    InflowSum(inMonthIncomes, now);
  }

  lemma {:induction false} OutflowSum(xs: seq<Transaction>, now: Now)
    ensures FlowSum(Outflows(xs, now)) == -Sum(xs)
  {
    if |xs| > 0 {
      OutflowSum(xs[..|xs| - 1], now);
      assert Outflows(xs, now)[..|xs| - 1] == Outflows(xs[..|xs| - 1], now);
    }
  }

  lemma {:induction false} InflowSum(xs: seq<Transaction>, now: Now)
    ensures FlowSum(Inflows(xs, now)) == Sum(xs)
  {
    if |xs| > 0 {
      InflowSum(xs[..|xs| - 1], now);
      assert Inflows(xs, now)[..|xs| - 1] == Inflows(xs[..|xs| - 1], now);
    }
  }

  lemma {:induction false} FlowSumAppend(a: seq<Flow>, b: seq<Flow>)
    ensures FlowSum(a + b) == FlowSum(a) + FlowSum(b)
    decreases |b|
  {
    if |b| > 0 {
      assert (a + b)[..|a + b| - 1] == a + b[..|b| - 1];
      FlowSumAppend(a, b[..|b| - 1]);
    }
    else {
      assert a + b == a;
    }
  }

  /** A rearrangement of flows has the same sum. */
  lemma {:induction false} PermutedFlowSum(a: seq<Flow>, b: seq<Flow>)
    requires multiset(a) == multiset(b)
    ensures FlowSum(a) == FlowSum(b)
    decreases |a|
  {
    if |a| == 0 {
      assert |b| == |multiset(b)| == 0;
    } else {
      var x := a[|a| - 1];
      assert x in multiset(b);
      var j :| 0 <= j < |b| && b[j] == x;
      var rest := b[..j] + b[j + 1..];
      assert b == b[..j] + [x] + b[j + 1..];
      assert a == a[..|a| - 1] + [x];
      assert multiset(b) == multiset(b[..j]) + multiset{x} + multiset(b[j + 1..]);
      assert multiset(a) == multiset(a[..|a| - 1]) + multiset{x};
      assert multiset(rest) == multiset(b[..j]) + multiset(b[j + 1..]);
      assert multiset(a[..|a| - 1]) == multiset(a) - multiset{x};
      assert multiset(rest) == multiset(b) - multiset{x};
      PermutedFlowSum(a[..|a| - 1], rest);
      FlowSumAppend(b[..j] + [x], b[j + 1..]);
      FlowSumAppend(b[..j], [x]);
      FlowSumAppend(b[..j], b[j + 1..]);
      assert FlowSum([x]) == x.amount by {
        assert [x][..0] == [];
      }
    }
  }

  // ---------------------------------------------------------------------------------------------
  // yearComparisonData

  /** One column group of the comparison: expenses, incomes and net of one month. */
  datatype YearColumn = YearColumn(expenses: real, incomes: real, net: real)

  function Column(expenses: seq<Transaction>, incomes: seq<Transaction>, m: MonthRef, now: Now): (c: YearColumn)
    ensures c.expenses == Sum(OfMonth(expenses, m, now)) && c.incomes == Sum(OfMonth(incomes, m, now))
    ensures c.net == c.incomes - c.expenses
  {
    var e := Sum(OfMonth(expenses, m, now));
    var i := Sum(OfMonth(incomes, m, now));
    YearColumn(e, i, i - e)
  }

  /** `yearComparisonData`: the selected month a year earlier, then the selected month. */
  function YearComparison(expenses: seq<Transaction>, incomes: seq<Transaction>, sel: MonthRef, now: Now): (r: (YearColumn, YearColumn))
    ensures r.0 == Column(expenses, incomes, MonthRef(sel.month, sel.year - 1), now)
    ensures r.1 == Column(expenses, incomes, sel, now)
  {
    (Column(expenses, incomes, MonthRef(sel.month, sel.year - 1), now), Column(expenses, incomes, sel, now))
  }

  /** This year's column repeats the monthly totals shown on the stat cards. */
  lemma CurrentYearIsMonth(expenses: seq<Transaction>, incomes: seq<Transaction>, sel: MonthRef, now: Now)
    ensures var c := YearComparison(expenses, incomes, sel, now).1;
            var t := MonthlyTotals(expenses, incomes, sel, now);
            c.expenses == t.expenseTotal && c.incomes == t.incomeTotal && c.net == t.balance
  {
  }

  // ---------------------------------------------------------------------------------------------
  // The six-month windows of expenseForecast and incomeProjection

  /** The `k`-th month of the window (0 = five months back, 5 = the selected month):
    * `new Date(year, month - (5 - k), 1)`. */
  function WindowMonth(sel: MonthRef, k: int): MonthRef {
    ShiftMonth(sel.year, sel.month, k - 5)
  }

  /** The window is six consecutive months ending with the selected one. */
  lemma WindowIsConsecutive(sel: MonthRef)
    requires sel.Valid()
    ensures WindowMonth(sel, 5) == sel
    ensures forall k :: 0 <= k < 5 ==> NextMonth(WindowMonth(sel, k)) == WindowMonth(sel, k + 1)
  {
    forall k | 0 <= k < 5
      ensures NextMonth(WindowMonth(sel, k)) == WindowMonth(sel, k + 1)
    {
      ShiftStep(sel.year, sel.month, k - 5);
    }
  }

  /** The monthly expense totals of the window, oldest first. */
  function WindowTotals(expenses: seq<Transaction>, sel: MonthRef, now: Now): (r: seq<real>)
    ensures |r| == 6 && forall k :: 0 <= k < 6 ==> r[k] == MonthSum(expenses, WindowMonth(sel, k), now)
  {
    seq(6, k requires 0 <= k < 6 => MonthSum(expenses, WindowMonth(sel, k), now))
  }

  /** The incomes and expenses of the window, oldest first. */
  function WindowFlows(expenses: seq<Transaction>, incomes: seq<Transaction>, sel: MonthRef, now: Now): (r: seq<MonthFlow>)
    ensures |r| == 6 && forall k :: 0 <= k < 6 ==>
              r[k] == MonthFlow(MonthSum(incomes, WindowMonth(sel, k), now), MonthSum(expenses, WindowMonth(sel, k), now))
  {
    seq(6, k requires 0 <= k < 6 => MonthFlow(MonthSum(incomes, WindowMonth(sel, k), now), MonthSum(expenses, WindowMonth(sel, k), now)))
  }

  /** `expenseForecast`: the window's monthly expense totals, then the forecast from them. */
  method ExpenseForecast(expenses: seq<Transaction>, sel: MonthRef, now: Now) returns (totals: seq<real>, forecast: Forecast)
    ensures totals == WindowTotals(expenses, sel, now)
    ensures forecast == PredictNextMonthExpense(totals)
  {
    totals := TotalHistory(expenses, sel, now);
    forecast := PredictNextMonthExpense(totals);
  }

  /** The loop of `expenseForecast`, `for (i = 5; i >= 0; i--)`, collecting the window's totals. */
  method TotalHistory(expenses: seq<Transaction>, sel: MonthRef, now: Now) returns (totals: seq<real>)
    ensures totals == WindowTotals(expenses, sel, now)
  {
    ghost var window := WindowTotals(expenses, sel, now);
    totals := [];
    for i := 6 downto 0
      invariant totals == window[..6 - i]
    {
      var total := TotalBack(expenses, sel, now, i);
      PrefixStep(totals, window, total, 5 - i);
      totals := totals + [total];
    }
  }

  /** The expense total of the month `i` months before the selected one: month `5 - i` of the window. */
  method TotalBack(expenses: seq<Transaction>, sel: MonthRef, now: Now, i: int) returns (total: real)
    requires 0 <= i < 6
    ensures total == WindowTotals(expenses, sel, now)[5 - i]
  {
    var target := ShiftMonth(sel.year, sel.month, -i);
    WindowBack(sel, i);
    total := MonthSum(expenses, target, now);
  }

  /** A prefix of the window grows by the window's next entry. */
  lemma PrefixStep<T>(prefix: seq<T>, window: seq<T>, x: T, n: int)
    requires 0 <= n < |window| && prefix == window[..n] && x == window[n]
    ensures prefix + [x] == window[..n + 1]
  {
  }

  /** `i` months before the selected one is month `5 - i` of the window. */
  lemma WindowBack(sel: MonthRef, i: int)
    ensures ShiftMonth(sel.year, sel.month, -i) == WindowMonth(sel, 5 - i)
  {
  }

  /** `incomeProjection`: the same window of incomes and expenses, projected six months ahead. */
  method IncomeProjection(expenses: seq<Transaction>, incomes: seq<Transaction>, sel: MonthRef, now: Now)
    returns (history: seq<MonthFlow>, projection: seq<Projection>)
    ensures history == WindowFlows(expenses, incomes, sel, now)
    ensures |projection| == 6 && forall i :: 0 <= i < 6 ==> projection[i] == ProjectionAt(history, now, i)
  {
    history := FlowHistory(expenses, incomes, sel, now);
    projection := ProjectNetIncome(history, 6, now);
  }

  /** The loop of `incomeProjection`, `for (i = 5; i >= 0; i--)`, collecting the window's flows. */
  method FlowHistory(expenses: seq<Transaction>, incomes: seq<Transaction>, sel: MonthRef, now: Now)
    returns (history: seq<MonthFlow>)
    ensures history == WindowFlows(expenses, incomes, sel, now)
  {
    ghost var window := WindowFlows(expenses, incomes, sel, now);
    history := [];
    for i := 6 downto 0
      invariant history == window[..6 - i]
    {
      var flow := FlowBack(expenses, incomes, sel, now, i);
      assert 0 <= 5 - i < |window|;
      assert history == window[..5 - i];
      assert flow == window[5 - i];
      PrefixStep(history, window, flow, 5 - i);
      history := history + [flow];
    }
  }

  /** The flow of the month `i` months before the selected one: month `5 - i` of the window. */
  method FlowBack(expenses: seq<Transaction>, incomes: seq<Transaction>, sel: MonthRef, now: Now, i: int)
    returns (flow: MonthFlow)
    requires 0 <= i < 6
    ensures flow == WindowFlows(expenses, incomes, sel, now)[5 - i]
  {
    var target := ShiftMonth(sel.year, sel.month, -i);
    WindowBack(sel, i);
    flow := MonthFlow(MonthSum(incomes, target, now), MonthSum(expenses, target, now));
  }

  // ---------------------------------------------------------------------------------------------
  // budgetDepletion and goalPrediction

  /** `userProfile?.monthlyBudget || 0`. */
  function Budget(monthlyBudget: Option<real>): real {
    monthlyBudget.GetOr(0.0)
  }

  /**
   * `budgetDepletion`: the month's spend against the budget, with today's day of month as the
   * elapsed days whichever month is selected, and the selected month's length (the date of
   * `new Date(year, month + 1, 0)`) as the month's days.
   */
  function BudgetDepletion(monthlyExpenseTotal: real, monthlyBudget: Option<real>, sel: MonthRef, now: Now): (d: Depletion)
    requires sel.Valid()
    ensures MakeDay(sel.year, sel.month + 1, 0) == MakeDay(sel.year, sel.month, DaysInMonth(sel.year, sel.month))
    ensures d == CalculateBudgetDepletion(monthlyExpenseTotal, Budget(monthlyBudget), now.day, DaysInMonth(sel.year, sel.month), now)
  {
    LastDayOfMonth(sel.year, sel.month);
    CalculateBudgetDepletion(monthlyExpenseTotal, Budget(monthlyBudget), now.day, DaysInMonth(sel.year, sel.month), now)
  }

  /** Two selected months of the same length with the same spend give the same estimate: the
    * selection enters only through its length, never through its own elapsed days. */
  lemma DepletionIgnoresSelectedDay(spent: real, budget: Option<real>, a: MonthRef, b: MonthRef, now: Now)
    requires a.Valid() && b.Valid() && DaysInMonth(a.year, a.month) == DaysInMonth(b.year, b.month)
    ensures BudgetDepletion(spent, budget, a, now) == BudgetDepletion(spent, budget, b, now)
  {
  }

  /** `goals.find(g => g.isMain) || goals[0]`. */
  function MainGoal(goals: seq<Goal>): (g: Goal)
    requires |goals| > 0
    ensures g in goals
    ensures (exists k :: 0 <= k < |goals| && goals[k].isMain) ==>
              g.isMain && exists k :: 0 <= k < |goals| && goals[k] == g && forall j :: 0 <= j < k ==> !goals[j].isMain
    ensures (forall k :: 0 <= k < |goals| ==> !goals[k].isMain) ==> g == goals[0]
  {
    if goals[0].isMain || |goals| == 1 then goals[0]
    else
      var g := MainGoal(goals[1..]);
      assert forall k :: 1 <= k < |goals| ==> goals[1..][k - 1] == goals[k];
      if g.isMain then
        var k :| 0 <= k < |goals[1..]| && goals[1..][k] == g && forall j :: 0 <= j < k ==> !goals[1..][j].isMain;
        assert goals[k + 1] == g;
        g
      else goals[0]
  }

  /** `goalPrediction`: no prediction without goals; otherwise the main goal (or the first) against
    * the month's net savings. */
  function GoalPrediction(goals: seq<Goal>, totals: MonthTotals, now: Now): (r: Option<GoalForecast>)
    ensures |goals| == 0 <==> r.None?
    ensures |goals| > 0 ==> r == Some(PredictGoalCompletion(Some(MainGoal(goals)), totals.incomeTotal - totals.expenseTotal, now))
  {
    if |goals| == 0 then None
    else Some(PredictGoalCompletion(Some(MainGoal(goals)), totals.incomeTotal - totals.expenseTotal, now))
  }
}

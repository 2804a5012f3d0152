/**
 * The finance engine: totals, grouping by day, the salary cycle and the next payday, the daily
 * spending limit, chart sums, monthly trend series, the rule-based insight list, rolling weekly
 * windows and the category-versus-budget rows. `now` is a parameter throughout.
 */
module FinanceEngine {
  import opened Wrappers
  import opened Calendar
  import opened Text
  import opened Domain
  import opened Ledger
  import Sorting

  // ---------------------------------------------------------------------------------------------
  // calculateTotals

  datatype Totals = Totals(totalIncome: real, totalExpense: real, netBalance: real)

  function CalculateTotals(incomes: seq<Transaction>, expenses: seq<Transaction>): (r: Totals)
    ensures r.totalIncome == Sum(incomes) && r.totalExpense == Sum(expenses)
    ensures r.netBalance == r.totalIncome - r.totalExpense
  {
    var income := Sum(incomes);
    var expense := Sum(expenses);
    Totals(income, expense, income - expense)
  }

  // ---------------------------------------------------------------------------------------------
  // groupExpensesByDate

  /** The order key of `groupExpensesByDate`: the ISO reading of the reversed fields. */
  function IsoRank(s: string): real {
    RankOf(IsoDateInstant(s))
  }

  /** `keys.sort((a, b) => new Date(iso(b)) - new Date(iso(a)))`: newest first, stable. */
  function NewestFirstIso(keys: seq<string>): (r: seq<string>)
    ensures multiset(r) == multiset(keys)
    ensures forall i, j :: 0 <= i < j < |r| ==> IsoRank(r[i]) >= IsoRank(r[j])
  {
    Sorting.SortBy(keys, IsoRank, true)
  }

  /**
   * Every expense goes into the group keyed by its date text, in input order; the sorted dates
   * list each distinct date once, newest first.
   */
  method GroupExpensesByDate(expenses: seq<Transaction>) returns (groups: map<string, seq<Transaction>>, sortedDates: seq<string>)
    ensures forall d :: d in groups <==> d in Dates(expenses)
    ensures forall d :: d in groups ==> groups[d] == OnDate(expenses, d)
    ensures forall d :: d in sortedDates <==> d in groups
    ensures forall i, j :: 0 <= i < j < |sortedDates| ==> sortedDates[i] != sortedDates[j]
    ensures forall i, j :: 0 <= i < j < |sortedDates| ==> IsoRank(sortedDates[i]) >= IsoRank(sortedDates[j])
  {
    groups := map[];
    var keys: seq<string> := [];
    for i := 0 to |expenses|
      invariant Grouping(keys, groups) == GroupByDate(expenses[..i])
    {
      var item := expenses[i];
      if item.date in groups {
        groups := groups[item.date := groups[item.date] + [item]];
      } else {
        groups := groups[item.date := [item]];
        keys := keys + [item.date];
      }
      assert expenses[..i + 1][..i] == expenses[..i];
      assert GroupByDate(expenses[..i + 1]) == Push(GroupByDate(expenses[..i]), item);
    }
    assert expenses[..|expenses|] == expenses;
    GroupByDatePartitions(expenses);
    sortedDates := NewestFirstIso(keys);
    Sorting.PermutationKeepsDistinct(keys, sortedDates);
  }

  // ---------------------------------------------------------------------------------------------
  // calculateGoalProgress: where today lies between the two paydays

  /** `(elapsed / total) * 100` clamped to [0, 100]; `None` is the `NaN` of `0 / 0`, which the
    * clamps let through. */
  function ClampedPercent(elapsed: int, total: int): (r: Option<real>)
    ensures r.Some? ==> 0.0 <= r.value <= 100.0
    ensures r.None? <==> elapsed == 0 && total == 0
    ensures total > 0 && 0 <= elapsed <= total ==> r == Some(elapsed as real * 100.0 / total as real)
  {
    if total == 0 then
      if elapsed > 0 then Some(100.0) else if elapsed < 0 then Some(0.0) else None
    else
      var p := (elapsed as real / total as real) * 100.0;
      PercentOfWhole(elapsed as real, total as real);
      Some(if p > 100.0 then 100.0 else if p < 0.0 then 0.0 else p)
  }

  lemma PercentOfWhole(part: real, whole: real)
    requires whole != 0.0
    ensures (part / whole) * 100.0 == part * 100.0 / whole
    ensures whole > 0.0 && 0.0 <= part <= whole ==> 0.0 <= (part / whole) * 100.0 <= 100.0
  {
    if whole > 0.0 && 0.0 <= part <= whole {
      assert part / whole <= 1.0 by {
        assert part / whole * whole == part;
      }
    }
  }

  /** The salary cycle: its start and target instants, the payday it waits for, the clamped
    * progress and the whole days left (`Math.ceil`). */
  datatype SalaryCycle = SalaryCycle(start: int, target: int, waitingFor: Payday, progress: Option<real>, daysLeft: int)

  function CalculateGoalProgress(p: Profile, now: Now): (r: SalaryCycle)
    ensures var y, m, cd, s1, s2 := now.year, now.month, now.day, p.salary1.day, p.salary2.day;
      && (s1 <= cd < s2 ==>
            r.start == MakeDate(y, m, s1) && r.target == MakeDate(y, m, s2) && r.waitingFor == p.salary2)
      && (cd >= s2 ==>
            r.start == MakeDate(y, m, s2) && r.target == MakeDate(y, m + 1, s1) && r.waitingFor == p.salary1)
      && (cd < s1 && cd < s2 ==>
            r.start == MakeDate(y, m - 1, s2) && r.target == MakeDate(y, m, s1) && r.waitingFor == p.salary1)
    ensures r.progress.Some? ==> 0.0 <= r.progress.value <= 100.0
    ensures r.progress == ClampedPercent(now.Instant() - r.start, r.target - r.start)
    ensures r.daysLeft == CeilDiv(r.target - now.Instant(), MsPerDay)
  {
    var y, m, cd := now.year, now.month, now.day;
    var s1, s2 := p.salary1.day, p.salary2.day;
    var (start, target, waiting) :=
      if cd >= s1 && cd < s2 then (MakeDate(y, m, s1), MakeDate(y, m, s2), p.salary2)
      else if cd >= s2 then (MakeDate(y, m, s2), MakeDate(y, m + 1, s1), p.salary1)
      else (MakeDate(y, m - 1, s2), MakeDate(y, m, s1), p.salary1);
    SalaryCycle(start, target, waiting, ClampedPercent(now.Instant() - start, target - start),
      CeilDiv(target - now.Instant(), MsPerDay))
  }

  /** A day of the current month later than today lies after the current instant. */
  lemma LaterDayIsLater(now: Now, d: int)
    requires now.Valid() && d > now.day
    ensures MakeDate(now.year, now.month, d) > now.Instant()
  {
    DayLinear(now.year, now.month, now.day, d - now.day);
  }

  /** A day of the current month up to today lies at or before the current instant. */
  lemma EarlierDayIsEarlier(now: Now, d: int)
    requires now.Valid() && d <= now.day
    ensures MakeDate(now.year, now.month, d) <= now.Instant()
  {
    DayLinear(now.year, now.month, d, now.day - d);
  }

  /**
   * When both paydays are at least 1 and the second exists in every month (at most 28), the
   * cycle contains the current instant: it started at or before now, the target is still ahead,
   * the progress is the plain elapsed fraction and at least one day is left.
   */
  lemma CycleContainsNow(p: Profile, now: Now)
    requires now.Valid()
    requires 1 <= p.salary1.day && 1 <= p.salary2.day <= 28
    ensures var r := CalculateGoalProgress(p, now);
      && r.start <= now.Instant() < r.target
      && r.progress == Some((now.Instant() - r.start) as real * 100.0 / (r.target - r.start) as real)
      && r.daysLeft >= 1
  {
    var r := CalculateGoalProgress(p, now);
    var y, m, cd := now.year, now.month, now.day;
    var s1, s2 := p.salary1.day, p.salary2.day;
    if s1 <= cd < s2 {
      EarlierDayIsEarlier(now, s1);
      LaterDayIsLater(now, s2);
    } else if cd >= s2 {
      EarlierDayIsEarlier(now, s2);
      NextMonthIsLater(y, m, cd, s1);
    } else {
      LaterDayIsLater(now, s1);
      PrevMonthDayIsEarlier(now, s2);
    }
    CeilDivBounds(r.target - now.Instant(), MsPerDay);
  }

  /** Any day 1..28 of the previous month lies before today. */
  lemma PrevMonthDayIsEarlier(now: Now, d: int)
    requires now.Valid() && 1 <= d <= 28
    ensures MakeDate(now.year, now.month - 1, d) < now.Instant()
  {
    PrevMonthIsEarlier(now.year, now.month, now.day, d);
  }

  // ---------------------------------------------------------------------------------------------
  // calculateNextSalaryInfo

  datatype NextIncome = NextIncome(target: int, amount: real, source: string)

  /** A payday's next date: this month's, or next month's once today has reached its day. */
  function Candidate(day: int, now: Now): int {
    if now.day >= day then MakeDate(now.year, now.month + 1, day) else MakeDate(now.year, now.month, day)
  }

  /** The earlier of the two candidates; salary 1 only when strictly earlier, so ties go to salary 2. */
  function CalculateNextSalaryInfo(p: Profile, now: Now): (r: NextIncome)
    ensures var c1, c2 := Candidate(p.salary1.day, now), Candidate(p.salary2.day, now);
      && (c1 < c2 ==> r == NextIncome(c1, p.salary1.amount, p.salary1.labelText))
      && (c1 >= c2 ==> r == NextIncome(c2, p.salary2.amount, p.salary2.labelText))
  {
    var c1, c2 := Candidate(p.salary1.day, now), Candidate(p.salary2.day, now);
    if c1 < c2 then NextIncome(c1, p.salary1.amount, p.salary1.labelText)
    else NextIncome(c2, p.salary2.amount, p.salary2.labelText)
  }

  /** For paydays on day 1 or later, each candidate, and so the chosen payday, lies after now
    * and is the earlier of the two. */
  lemma NextSalaryIsAhead(p: Profile, now: Now)
    requires now.Valid() && p.salary1.day >= 1 && p.salary2.day >= 1
    ensures Candidate(p.salary1.day, now) > now.Instant() && Candidate(p.salary2.day, now) > now.Instant()
    ensures var r := CalculateNextSalaryInfo(p, now);
      r.target > now.Instant() && r.target <= Candidate(p.salary1.day, now) && r.target <= Candidate(p.salary2.day, now)
  {
    CandidateIsAhead(p.salary1.day, now);
    CandidateIsAhead(p.salary2.day, now);
  }

  lemma CandidateIsAhead(day: int, now: Now)
    requires now.Valid() && day >= 1
    ensures Candidate(day, now) > now.Instant()
  {
    if now.day >= day {
      NextMonthIsLater(now.year, now.month, now.day, day);
    } else {
      LaterDayIsLater(now, day);
    }
  }

  // ---------------------------------------------------------------------------------------------
  // calculateDailyLimit

  /** `Math.ceil(max(0, next - now) / day)`. */
  function DaysRemaining(next: int, now: Now): (d: int)
    ensures d >= 0
    ensures d > 0 <==> next > now.Instant()
  {
    var diff := if next - now.Instant() > 0 then next - now.Instant() else 0;
    CeilDivBounds(diff, MsPerDay);
    CeilDiv(diff, MsPerDay)
  }

  /** The balance spread evenly over the days left until the next payday; 0 when nothing is
    * left to spread or no day is left. */
  function CalculateDailyLimit(netBalance: real, next: int, now: Now): (r: real)
    ensures r >= 0.0
    ensures r > 0.0 <==> netBalance > 0.0 && next > now.Instant()
    ensures r > 0.0 ==> r * DaysRemaining(next, now) as real == netBalance && r <= netBalance
  {
    var days := DaysRemaining(next, now);
    if days > 0 && netBalance > 0.0 then
      assert netBalance / days as real <= netBalance by {
        var q := netBalance / days as real;
        assert q * days as real == netBalance;
        assert q * days as real - q == q * (days - 1) as real;
        assert q * (days - 1) as real >= 0.0;
      }
      netBalance / days as real
    else 0.0
  }

  // ---------------------------------------------------------------------------------------------
  // getChartData

  /** The first `forEach` of `getChartData`: each category's total, keys in order of first appearance. */
  method TallyCategories(expenses: seq<Transaction>) returns (categoryMap: Tally<string>)
    ensures categoryMap == TallyOf(ByCategory(expenses))
    ensures SumOver(categoryMap.keys, categoryMap.totals) == Sum(expenses)
  {
    categoryMap := Tally([], map[]);
    for i := 0 to |expenses|
      invariant categoryMap == TallyOf(ByCategory(expenses[..i]))
    {
      var item := expenses[i];
      ghost var before := categoryMap;
      if item.category in categoryMap.totals {
        categoryMap := Tally(categoryMap.keys, categoryMap.totals[item.category := categoryMap.totals[item.category] + item.amount]);
      } else {
        categoryMap := Tally(categoryMap.keys + [item.category], categoryMap.totals[item.category := item.amount]);
      }
      assert categoryMap == Add(before, item.category, item.amount);
      assert expenses[..i + 1][..i] == expenses[..i];
      assert ByCategory(expenses[..i + 1]) == ByCategory(expenses[..i]) + [(item.category, item.amount)];
      assert TallyOf(ByCategory(expenses[..i + 1])) == Add(TallyOf(ByCategory(expenses[..i])), item.category, item.amount);
    }
    assert expenses[..|expenses|] == expenses;
    TallyTotal(ByCategory(expenses));
    PairsTotal(expenses, ByCategory(expenses));
  }

  /** The second `forEach` of `getChartData`: each date string's total, keys in order of first appearance. */
  method TallyDates(expenses: seq<Transaction>) returns (dateMap: Tally<string>)
    ensures dateMap == TallyOf(ByDate(expenses))
    ensures SumOver(dateMap.keys, dateMap.totals) == Sum(expenses)
  {
    dateMap := Tally([], map[]);
    for i := 0 to |expenses|
      invariant dateMap == TallyOf(ByDate(expenses[..i]))
    {
      var item := expenses[i];
      ghost var before := dateMap;
      if item.date in dateMap.totals {
        dateMap := Tally(dateMap.keys, dateMap.totals[item.date := dateMap.totals[item.date] + item.amount]);
      } else {
        dateMap := Tally(dateMap.keys + [item.date], dateMap.totals[item.date := item.amount]);
      }
      assert dateMap == Add(before, item.date, item.amount);
      assert expenses[..i + 1][..i] == expenses[..i];
      assert ByDate(expenses[..i + 1]) == ByDate(expenses[..i]) + [(item.date, item.amount)];
      assert TallyOf(ByDate(expenses[..i + 1])) == Add(TallyOf(ByDate(expenses[..i])), item.date, item.amount);
    }
    assert expenses[..|expenses|] == expenses;
    TallyTotal(ByDate(expenses));
    PairsTotal(expenses, ByDate(expenses));
  }

  /** `getChartData`: totals per category and per date string; each map's values add up to the whole spend. */
  method GetChartData(expenses: seq<Transaction>) returns (categoryMap: Tally<string>, dateMap: Tally<string>)
    ensures categoryMap == TallyOf(ByCategory(expenses)) && dateMap == TallyOf(ByDate(expenses))
    ensures SumOver(categoryMap.keys, categoryMap.totals) == Sum(expenses)
    ensures SumOver(dateMap.keys, dateMap.totals) == Sum(expenses)
  {
    categoryMap := TallyCategories(expenses);
    dateMap := TallyDates(expenses);
  }

  // ---------------------------------------------------------------------------------------------
  // getTrendData and getCategoryTrendData: the last `count` months, oldest first

  /** The month of the `k`-th point (from 0, oldest first) of a `count`-month series ending in the
    * current month: `new Date(year, month - i, 1)` with `i = count - 1 - k`. */
  function TrendMonth(now: Now, count: int, k: int): MonthRef {
    ShiftMonth(now.year, now.month, k - (count - 1))
  }

  /** One point of the income/expense series. `rawDate` is the first of the month. */
  datatype TrendPoint = TrendPoint(month: int, year: int, rawDate: int, income: real, expense: real)

  /** The point of month `r`: the incomes and expenses whose `DD.MM.YYYY` fields name that month. */
  function PointOf(incomes: seq<Transaction>, expenses: seq<Transaction>, r: MonthRef): TrendPoint {
    TrendPoint(r.month, r.year, MakeDate(r.year, r.month, 1), Sum(OfSplitMonth(incomes, r)), Sum(OfSplitMonth(expenses, r)))
  }

  /** How many times `for (i = 0; i < n; i++)` runs. */
  function Count(n: int): nat {
    if n > 0 then n else 0
  }

  /**
   * One pass of `getTrendData`'s loop, `i` months before the current one: the first of that month
   * (`d`), its month and year, and the sums of the incomes and expenses whose date fields name it.
   */
  method MonthPoint(incomes: seq<Transaction>, expenses: seq<Transaction>, now: Now, monthsCount: int, i: int)
    returns (point: TrendPoint)
    ensures point == PointOf(incomes, expenses, TrendMonth(now, monthsCount, monthsCount - 1 - i))
  {
    var d := MakeDate(now.year, now.month - i, 1);
    var r := ShiftMonth(now.year, now.month, -i);
    MonthNormal(now.year, now.month - i, 1);
    var monthlyIncomes := OfSplitMonth(incomes, r);
    var monthlyExpenses := OfSplitMonth(expenses, r);
    point := TrendPoint(r.month, r.year, d, Sum(monthlyIncomes), Sum(monthlyExpenses));
  }

  /** `[f(0), ..., f(n - 1)]`: the values a counting loop appends, in order. */
  function Series<T>(f: int -> T, n: nat): (s: seq<T>)
    ensures |s| == n
  {
    if n == 0 then [] else Series(f, n - 1) + [f(n - 1)]
  }

  lemma {:induction false} SeriesAt<T>(f: int -> T, n: nat)
    ensures forall k :: 0 <= k < n ==> Series(f, n)[k] == f(k)
  {
    if n > 0 {
      SeriesAt(f, n - 1);
    }
  }

  method GetTrendData(incomes: seq<Transaction>, expenses: seq<Transaction>, monthsCount: int, now: Now)
    returns (result: seq<TrendPoint>)
    ensures |result| == Count(monthsCount)
    ensures forall k :: 0 <= k < |result| ==> result[k] == PointOf(incomes, expenses, TrendMonth(now, monthsCount, k))
  {
    ghost var pointAt := (k: int) => PointOf(incomes, expenses, TrendMonth(now, monthsCount, k));
    result := [];
    var i := monthsCount - 1;
    while i >= 0
      invariant |result| == monthsCount - 1 - i
      invariant monthsCount <= 0 ==> i == monthsCount - 1
      invariant monthsCount > 0 ==> -1 <= i
      invariant result == Series(pointAt, |result|)
    {
      var point := MonthPoint(incomes, expenses, now, monthsCount, i);
      result := result + [point];
      i := i - 1;
    }
    SeriesAt(pointAt, |result|);
  }

  /** The series runs over consecutive months and its last point is the current month. */
  lemma TrendMonthsConsecutive(now: Now, count: int, k: int)
    requires now.Valid()
    ensures TrendMonth(now, count, k).Valid()
    ensures NextMonth(TrendMonth(now, count, k)) == TrendMonth(now, count, k + 1)
    ensures TrendMonth(now, count, count - 1) == MonthRef(now.month, now.year)
  {
    ShiftStep(now.year, now.month, k - (count - 1));
  }

  /** One category's line in the category trend chart. */
  datatype Dataset = Dataset(labelText: string, data: seq<real>)

  /** A category's spend in month `r`, by the same field test as the trend series. */
  function CategoryCell(expenses: seq<Transaction>, r: MonthRef, cat: string): real {
    Sum(OfCategory(OfSplitMonth(expenses, r), cat))
  }

  /** The first `n` values of a category's line. */
  function Column(expenses: seq<Transaction>, now: Now, count: int, cat: string, n: nat): (col: seq<real>)
    ensures |col| == n
  {
    if n == 0 then [] else Column(expenses, now, count, cat, n - 1) + [CategoryCell(expenses, TrendMonth(now, count, n - 1), cat)]
  }

  /** Value `k` of a category's line is the category's spend in the `k`-th month of the series. */
  lemma {:induction false} ColumnCells(expenses: seq<Transaction>, now: Now, count: int, cat: string, n: nat)
    ensures forall k :: 0 <= k < n ==> Column(expenses, now, count, cat, n)[k] == CategoryCell(expenses, TrendMonth(now, count, k), cat)
  {
    if n > 0 {
      ColumnCells(expenses, now, count, cat, n - 1);
      var col, prev := Column(expenses, now, count, cat, n), Column(expenses, now, count, cat, n - 1);
      var last := CategoryCell(expenses, TrendMonth(now, count, n - 1), cat);
      assert col == prev + [last];
      forall k | 0 <= k < n ensures col[k] == CategoryCell(expenses, TrendMonth(now, count, k), cat) {
        if k < n - 1 {
          assert col[k] == prev[k];
        }
      }
    }
  }

  /** `categories.forEach(cat => dataByCat[cat].push(total))`: each category's line grows by its
    * spend among `monthly`; other keys keep their lines. */
  method PushMonth(dataByCat: map<string, seq<real>>, categories: seq<string>, monthly: seq<Transaction>)
    returns (r: map<string, seq<real>>)
    requires forall i, j :: 0 <= i < j < |categories| ==> categories[i] != categories[j]
    requires forall c :: 0 <= c < |categories| ==> categories[c] in dataByCat
    ensures forall c :: 0 <= c < |categories| ==>
      categories[c] in r && r[categories[c]] == dataByCat[categories[c]] + [Sum(OfCategory(monthly, categories[c]))]
  {
    r := dataByCat;
    for j := 0 to |categories|
      invariant forall c :: 0 <= c < j ==>
        categories[c] in r && r[categories[c]] == dataByCat[categories[c]] + [Sum(OfCategory(monthly, categories[c]))]
      invariant forall c :: j <= c < |categories| ==> categories[c] in r && r[categories[c]] == dataByCat[categories[c]]
    {
      var cat := categories[j];
      var total := Sum(OfCategory(monthly, cat));
      r := r[cat := r[cat] + [total]];
    }
  }

  /** One line per distinct category (first-seen order), one value per month, oldest first. */
  method GetCategoryTrendData(expenses: seq<Transaction>, monthsCount: int, now: Now)
    returns (rawDates: seq<int>, datasets: seq<Dataset>)
    ensures |rawDates| == Count(monthsCount)
    ensures forall k :: 0 <= k < |rawDates| ==>
      rawDates[k] == MakeDate(TrendMonth(now, monthsCount, k).year, TrendMonth(now, monthsCount, k).month, 1)
    ensures |datasets| == |Distinct(Categories(expenses))|
    ensures forall c :: 0 <= c < |datasets| ==>
      datasets[c] == Dataset(Distinct(Categories(expenses))[c], Column(expenses, now, monthsCount, Distinct(Categories(expenses))[c], Count(monthsCount)))
  {
    var categories := Distinct(Categories(expenses));
    var dataByCat: map<string, seq<real>> := map c | c in categories :: [];
    rawDates, dataByCat := FillMonths(expenses, categories, dataByCat, monthsCount, now);
    datasets := seq(|categories|, c requires 0 <= c < |categories| => Dataset(categories[c], dataByCat[categories[c]]));
  }

  /** The month loop of `getCategoryTrendData`: one raw date per month and one value per month on
    * every category's (initially empty) line. */
  method FillMonths(expenses: seq<Transaction>, categories: seq<string>, init: map<string, seq<real>>, monthsCount: int, now: Now)
    returns (rawDates: seq<int>, dataByCat: map<string, seq<real>>)
    requires forall i, j :: 0 <= i < j < |categories| ==> categories[i] != categories[j]
    requires forall c :: 0 <= c < |categories| ==> categories[c] in init && init[categories[c]] == []
    ensures |rawDates| == Count(monthsCount)
    ensures forall k :: 0 <= k < |rawDates| ==>
      rawDates[k] == MakeDate(TrendMonth(now, monthsCount, k).year, TrendMonth(now, monthsCount, k).month, 1)
    ensures forall c :: 0 <= c < |categories| ==>
      categories[c] in dataByCat && dataByCat[categories[c]] == Column(expenses, now, monthsCount, categories[c], Count(monthsCount))
  {
    dataByCat := init;
    rawDates := [];
    var i := monthsCount - 1;
    while i >= 0
      invariant |rawDates| == monthsCount - 1 - i
      invariant monthsCount <= 0 ==> i == monthsCount - 1
      invariant monthsCount > 0 ==> -1 <= i
      invariant forall k :: 0 <= k < |rawDates| ==>
        rawDates[k] == MakeDate(TrendMonth(now, monthsCount, k).year, TrendMonth(now, monthsCount, k).month, 1)
      invariant forall c :: 0 <= c < |categories| ==>
        categories[c] in dataByCat && dataByCat[categories[c]] == Column(expenses, now, monthsCount, categories[c], |rawDates|)
    {
      var r := ShiftMonth(now.year, now.month, -i);
      MonthNormal(now.year, now.month - i, 1);
      assert r == TrendMonth(now, monthsCount, |rawDates|);
      ghost var done := |rawDates|;
      var d := MakeDate(now.year, now.month - i, 1);
      assert d == MakeDate(r.year, r.month, 1);
      rawDates := rawDates + [d];
      var monthlyExpenses := OfSplitMonth(expenses, r);
      dataByCat := PushMonth(dataByCat, categories, monthlyExpenses);
      forall c | 0 <= c < |categories|
        ensures dataByCat[categories[c]] == Column(expenses, now, monthsCount, categories[c], done + 1)
      {
        assert Column(expenses, now, monthsCount, categories[c], done + 1)
          == Column(expenses, now, monthsCount, categories[c], done) + [Sum(OfCategory(monthlyExpenses, categories[c]))];
      }
      i := i - 1;
    }
  }

  /** Stacking the category lines of a month gives that month's expense in the trend series. */
  lemma CategoryTrendAddsUp(incomes: seq<Transaction>, expenses: seq<Transaction>, r: MonthRef)
    ensures CategorySums(OfSplitMonth(expenses, r), Distinct(Categories(expenses))) == PointOf(incomes, expenses, r).expense
  {
    var monthly := OfSplitMonth(expenses, r);
    var cs := Distinct(Categories(expenses));
    forall i | 0 <= i < |monthly| ensures monthly[i].category in cs {
      assert monthly[i] in expenses;
      var j :| 0 <= j < |expenses| && expenses[j] == monthly[i];
      assert Categories(expenses)[j] == monthly[i].category;
    }
    CategorySumsCover(monthly, cs);
  }

  // ---------------------------------------------------------------------------------------------
  // generateAnalyticInsights

  datatype Severity = High | Medium | Positive

  /** The insight cards, each with the parameters its text is filled with. */
  datatype Insight =
    | HighSpending(avg: real, target: real)
    | BudgetControl(avg: real)
    | CriticalBalance(balance: real)
    | CategoryWarning(category: string, percent: int, amount: real)
    | PaymentApproaching(source: string, days: int)
    | UpcomingPayment(name: string, days: int)
  {
    function Level(): Severity {
      match this
      case HighSpending(_, _) => High
      case BudgetControl(_) => Positive
      case CriticalBalance(_) => High
      case CategoryWarning(_, _, _) => Medium
      case PaymentApproaching(_, _) => Positive
      case UpcomingPayment(_, _) => High
    }
  }

  /** `Object.keys(uniqueDates).length`: how many distinct date texts the expenses carry. */
  function SpendingDays(expenses: seq<Transaction>): (n: nat)
    ensures n == 0 <==> |expenses| == 0
  {
    var ds := Dates(expenses);
    assert |expenses| > 0 ==> ds[0] in Distinct(ds);
    |Distinct(ds)|
  }

  /** The total spend spread over the days that have any spending (at least one day). */
  function AvgDailySpend(expenses: seq<Transaction>, totalExpense: real): (avg: real)
    ensures |expenses| == 0 ==> avg == totalExpense
    ensures |expenses| > 0 ==> avg * SpendingDays(expenses) as real == totalExpense
    ensures totalExpense >= 0.0 ==> 0.0 <= avg <= totalExpense
  {
    var days := SpendingDays(expenses);
    if days == 0 then totalExpense / 1.0
    else
      EvenShare(totalExpense, days);
      totalExpense / days as real
  }

  /** An amount spread evenly over `n >= 1` parts. */
  lemma EvenShare(total: real, n: int)
    requires n >= 1
    ensures (total / n as real) * n as real == total
    ensures total >= 0.0 ==> 0.0 <= total / n as real <= total
  {
    var q := total / n as real;
    assert q * n as real == total;
    if total >= 0.0 {
      assert q * n as real - q == q * (n - 1) as real;
    }
  }

  /** The largest entry among the first `n` keys of a tally, scanning in key order and replacing
    * only on a strictly larger amount; ("", 0) when no amount is positive. */
  function TopOf(t: Tally<string>, n: nat): (top: (string, real))
    requires n <= |t.keys|
  {
    if n == 0 then ("", 0.0)
    else
      var prev := TopOf(t, n - 1);
      var k := t.keys[n - 1];
      if Get(t, k) > prev.1 then (k, Get(t, k)) else prev
  }

  /** The top entry is the first key holding the largest amount, when that amount is positive. */
  lemma {:induction false} TopIsFirstMaximum(t: Tally<string>, n: nat)
    requires n <= |t.keys|
    ensures var top := TopOf(t, n);
      && top.1 >= 0.0
      && (forall j :: 0 <= j < n ==> Get(t, t.keys[j]) <= top.1)
      && (top.1 == 0.0 ==> top.0 == "")
      && (top.1 > 0.0 ==> exists w :: 0 <= w < n && t.keys[w] == top.0 && Get(t, top.0) == top.1
                                       && forall j :: 0 <= j < w ==> Get(t, t.keys[j]) < top.1)
  {
    if n > 0 {
      TopIsFirstMaximum(t, n - 1);
      var prev := TopOf(t, n - 1);
      var k := t.keys[n - 1];
      if Get(t, k) > prev.1 {
        assert t.keys[n - 1] == TopOf(t, n).0;
      } else if prev.1 > 0.0 {
        var w :| 0 <= w < n - 1 && t.keys[w] == prev.0 && Get(t, prev.0) == prev.1
                 && forall j :: 0 <= j < w ==> Get(t, t.keys[j]) < prev.1;
        assert 0 <= w < n && t.keys[w] == TopOf(t, n).0;
      }
    }
  }

  /** `Number(x.toFixed(0))`: the nearest integer, halves rounded away from zero. */
  function ToFixed0(x: real): (n: int)
    ensures x >= 0.0 ==> n >= 0 && n as real - 0.5 <= x < n as real + 0.5
    ensures x < 0.0 ==> n <= 0 && n as real - 0.5 < x <= n as real + 0.5
  {
    if x >= 0.0 then (x + 0.5).Floor else -((-x + 0.5).Floor)
  }

  /** The top category's share of the total, in whole percent; 0 when nothing was spent. */
  function TopShare(amount: real, totalExpense: real): int {
    if totalExpense > 0.0 then ToFixed0((amount / totalExpense) * 100.0) else 0
  }

  /** Rule 1: the balance. A positive balance is compared with the daily limit (10 % over it is
    * high spending, 15 % under it is praise); a balance of zero or less is critical. */
  function BalanceRule(netBalance: real, avg: real, dailyLimit: real): (r: seq<Insight>)
    ensures |r| <= 1
    ensures netBalance <= 0.0 <==> r == [CriticalBalance(netBalance)]
    ensures netBalance > 0.0 ==> (r == [] <==> dailyLimit * 0.85 <= avg <= dailyLimit * 1.1)
    ensures r != [] && r[0].HighSpending? ==> avg > dailyLimit * 1.1 && r[0] == HighSpending(avg, dailyLimit)
    ensures r != [] && r[0].BudgetControl? ==> avg < dailyLimit * 0.85 && r[0] == BudgetControl(avg)
  {
    if netBalance > 0.0 then
      if avg > dailyLimit * 1.1 then [HighSpending(avg, dailyLimit)]
      else if avg < dailyLimit * 0.85 then [BudgetControl(avg)]
      else []
    else [CriticalBalance(netBalance)]
  }

  /** Rule 2: one category holding more than 35 % (after rounding) of the spend. The name must be
    * non-empty, as the source tests its truthiness. */
  function CategoryRule(name: string, amount: real, totalExpense: real): (r: seq<Insight>)
    ensures |r| <= 1
    ensures r != [] <==> name != "" && TopShare(amount, totalExpense) > 35
    ensures r != [] ==> r[0] == CategoryWarning(name, TopShare(amount, totalExpense), amount)
    ensures r != [] ==> totalExpense > 0.0 && amount * 100.0 >= 35.5 * totalExpense
  {
    var share := TopShare(amount, totalExpense);
    if name != "" && share > 35 then
      assert totalExpense > 0.0 && amount * 100.0 >= 35.5 * totalExpense by {
        var x := (amount / totalExpense) * 100.0;
        assert x >= 35.5;
        assert x * totalExpense == amount * 100.0;
      }
      [CategoryWarning(name, share, amount)]
    else []
  }

  /** Whole days (rounded up) until the next payday. */
  function DaysToPayday(p: Profile, now: Now): int {
    CeilDiv(CalculateNextSalaryInfo(p, now).target - now.Instant(), MsPerDay)
  }

  /** Rule 3: the next payday is one to seven days away; an empty payday label shows as "Gelir". */
  function SalaryRule(p: Profile, now: Now): (r: seq<Insight>)
    ensures |r| <= 1
    ensures r != [] <==> 0 < DaysToPayday(p, now) <= 7
    ensures r != [] ==> r[0].PaymentApproaching? && r[0].days == DaysToPayday(p, now) && r[0].source != ""
    ensures r != [] && CalculateNextSalaryInfo(p, now).source != "" ==> r[0].source == CalculateNextSalaryInfo(p, now).source
  {
    var next := CalculateNextSalaryInfo(p, now);
    var days := DaysToPayday(p, now);
    if days <= 7 && days > 0 then [PaymentApproaching(if next.source == "" then "Gelir" else next.source, days)] else []
  }

  /** With paydays on day 1 or later, the reminder shows exactly when the payday is at most a week
    * (seven times 24 hours) away. */
  lemma PaydayReminderWithinWeek(p: Profile, now: Now)
    requires now.Valid() && p.salary1.day >= 1 && p.salary2.day >= 1
    ensures SalaryRule(p, now) != [] <==> CalculateNextSalaryInfo(p, now).target - now.Instant() <= 7 * MsPerDay
  {
    NextSalaryIsAhead(p, now);
    var a := CalculateNextSalaryInfo(p, now).target - now.Instant();
    CeilDivBounds(a, MsPerDay);
  }

  /** A recurring payment's next due date: this month's, or next month's once today is past it
    * (unlike the paydays, a payment due today stays on today). */
  function DueDate(day: int, now: Now): int {
    if now.day > day then MakeDate(now.year, now.month + 1, day) else MakeDate(now.year, now.month, day)
  }

  function DaysUntilDue(day: int, now: Now): int {
    CeilDiv(DueDate(day, now) - now.Instant(), MsPerDay)
  }

  /** Rule 4: a reminder for each recurring payment due within five days, in profile order. */
  function RecurringRule(ps: seq<RecurringPayment>, now: Now): (r: seq<Insight>)
    ensures |r| <= |ps|
    ensures forall x :: x in r ==> x.UpcomingPayment? && 0 <= x.days <= 5
    ensures |ps| == 1 ==> r == Reminder(ps[0], now)
  {
    if |ps| == 0 then [] else RecurringRule(ps[..|ps| - 1], now) + Reminder(ps[|ps| - 1], now)
  }

  /** The reminder of one payment: shown when it is due in zero to five days. */
  function Reminder(payment: RecurringPayment, now: Now): (r: seq<Insight>)
    ensures |r| <= 1
    ensures r != [] <==> 0 <= DaysUntilDue(payment.day, now) <= 5
    ensures r != [] ==> r[0] == UpcomingPayment(payment.name, DaysUntilDue(payment.day, now))
  {
    var days := DaysUntilDue(payment.day, now);
    if days >= 0 && days <= 5 then [UpcomingPayment(payment.name, days)] else []
  }

  /** Every payment due within five days gets its reminder. */
  lemma {:induction false} RecurringAnnounced(ps: seq<RecurringPayment>, now: Now, i: int)
    requires 0 <= i < |ps| && 0 <= DaysUntilDue(ps[i].day, now) <= 5
    ensures UpcomingPayment(ps[i].name, DaysUntilDue(ps[i].day, now)) in RecurringRule(ps, now)
  {
    if i < |ps| - 1 {
      RecurringAnnounced(ps[..|ps| - 1], now, i);
    }
  }

  /** The reminders come in profile order: the rule distributes over concatenation. */
  lemma {:induction false} RecurringRuleAppend(a: seq<RecurringPayment>, b: seq<RecurringPayment>, now: Now)
    ensures RecurringRule(a + b, now) == RecurringRule(a, now) + RecurringRule(b, now)
  {
    if |b| == 0 {
      assert a + b == a;
    } else {
      assert (a + b)[..|a + b| - 1] == a + b[..|b| - 1];
      assert (a + b)[|a + b| - 1] == b[|b| - 1];
      RecurringRuleAppend(a, b[..|b| - 1], now);
    }
  }

  /** Every reminder is the reminder of one of the payments, and nothing else is announced. */
  lemma {:induction false} RemindersFromPayments(ps: seq<RecurringPayment>, now: Now)
    ensures forall x :: x in RecurringRule(ps, now) <==> exists i :: 0 <= i < |ps| && Reminder(ps[i], now) == [x]
  {
    if |ps| > 0 {
      var init := ps[..|ps| - 1];
      RemindersFromPayments(init, now);
      forall x | x in RecurringRule(ps, now)
        ensures exists i :: 0 <= i < |ps| && Reminder(ps[i], now) == [x]
      {
        if x in RecurringRule(init, now) {
          var i :| 0 <= i < |init| && Reminder(init[i], now) == [x];
          assert ps[i] == init[i];
        } else {
          assert Reminder(ps[|ps| - 1], now) == [x];
        }
      }
      forall x | exists i :: 0 <= i < |ps| && Reminder(ps[i], now) == [x]
        ensures x in RecurringRule(ps, now)
      {
        var i :| 0 <= i < |ps| && Reminder(ps[i], now) == [x];
        if i < |ps| - 1 {
          assert init[i] == ps[i];
          assert x in RecurringRule(init, now);
        }
      }
    }
  }

  /** A payment due today or later this month is `day - today` days away, whatever the time of day. */
  lemma DueThisMonth(day: int, now: Now)
    requires now.Valid() && now.day <= day
    ensures DaysUntilDue(day, now) == day - now.day
  {
    DayLinear(now.year, now.month, now.day, day - now.day);
    assert DueDate(day, now) - now.Instant() == (day - now.day) * MsPerDay - now.msOfDay;
  }

  /** `Object.keys(uniqueDates).length`: the number of distinct date texts. */
  method CountSpendingDays(expenses: seq<Transaction>) returns (daysWithSpending: nat)
    ensures daysWithSpending == SpendingDays(expenses)
  {
    var uniqueDates: seq<string> := [];
    for i := 0 to |expenses|
      invariant uniqueDates == Distinct(Dates(expenses[..i]))
    {
      var e := expenses[i];
      if e.date !in uniqueDates {
        uniqueDates := uniqueDates + [e.date];
      }
      assert expenses[..i + 1][..i] == expenses[..i];
      assert Dates(expenses[..i + 1]) == Dates(expenses[..i]) + [e.date];
    }
    assert expenses[..|expenses|] == expenses;
    daysWithSpending := |uniqueDates|;
  }

  /** The scan for the largest category over `Object.entries(categoryMap)`. */
  method TopCategory(categoryMap: Tally<string>) returns (maxCatName: string, maxCatTotal: real)
    ensures (maxCatName, maxCatTotal) == TopOf(categoryMap, |categoryMap.keys|)
  {
    maxCatName, maxCatTotal := "", 0.0;
    for i := 0 to |categoryMap.keys|
      invariant (maxCatName, maxCatTotal) == TopOf(categoryMap, i)
    {
      var cat := categoryMap.keys[i];
      var amount := Get(categoryMap, cat);
      if amount > maxCatTotal {
        maxCatTotal := amount;
        maxCatName := cat;
      }
    }
  }

  /** The `recurringPayments.forEach`: the reminders appended to `insights`. */
  method RemindPayments(insights: seq<Insight>, payments: seq<RecurringPayment>, now: Now) returns (r: seq<Insight>)
    ensures r == insights + RecurringRule(payments, now)
  {
    r := insights;
    for i := 0 to |payments|
      invariant r == insights + RecurringRule(payments[..i], now)
    {
      var reminder := RemindPayment(payments[i], now);
      r := r + reminder;
      assert payments[..i + 1][..i] == payments[..i];
    }
    assert payments[..|payments|] == payments;
  }

  /** One pass of the loop: the payment's due date this month, or next month when its day has
    * passed, and the reminder when that is zero to five days away. */
  method RemindPayment(payment: RecurringPayment, now: Now) returns (reminder: seq<Insight>)
    ensures reminder == Reminder(payment, now)
  {
    var targetDate := MakeDate(now.year, now.month, payment.day);
    if now.day > payment.day {
      targetDate := MakeDate(now.year, now.month + 1, payment.day);
    }
    var daysUntil := CeilDiv(targetDate - now.Instant(), MsPerDay);
    reminder := [];
    if daysUntil >= 0 && daysUntil <= 5 {
      reminder := [UpcomingPayment(payment.name, daysUntil)];
    }
  }

  /** `generateAnalyticInsights`: the four rules' cards in order. */
  method GenerateAnalyticInsights(expenses: seq<Transaction>, totalExpense: real, netBalance: real,
                                  categoryMap: Tally<string>, dailyLimit: real, userProfile: Profile, now: Now)
    returns (insights: seq<Insight>)
    ensures var top := TopOf(categoryMap, |categoryMap.keys|);
      insights == BalanceRule(netBalance, AvgDailySpend(expenses, totalExpense), dailyLimit)
                  + CategoryRule(top.0, top.1, totalExpense)
                  + SalaryRule(userProfile, now)
                  + RecurringRule(userProfile.recurring, now)
  {
    var daysWithSpending := CountSpendingDays(expenses);
    var avgDailySpend := totalExpense / (if daysWithSpending == 0 then 1 else daysWithSpending) as real;
    var maxCatName, maxCatTotal := TopCategory(categoryMap);
    var topCatPerc := if totalExpense > 0.0 then ToFixed0((maxCatTotal / totalExpense) * 100.0) else 0;
    var nextSal := CalculateNextSalaryInfo(userProfile, now);
    var daysLeft := CeilDiv(nextSal.target - now.Instant(), MsPerDay);
    assert avgDailySpend == AvgDailySpend(expenses, totalExpense);
    assert daysLeft == DaysToPayday(userProfile, now);
    assert topCatPerc == TopShare(maxCatTotal, totalExpense);

    insights := BalanceCard(netBalance, avgDailySpend, dailyLimit);
    insights := CategoryCard(insights, maxCatName, maxCatTotal, topCatPerc, totalExpense);
    insights := PaydayCard(insights, nextSal.source, daysLeft, userProfile, now);
    insights := RemindPayments(insights, userProfile.recurring, now);
  }

  /** The balance card: critical when the balance is not positive, otherwise high spending above
    * 110 % of the daily limit, budget control below 85 % of it. */
  method BalanceCard(netBalance: real, avgDailySpend: real, dailyLimit: real) returns (result: seq<Insight>)
    ensures result == BalanceRule(netBalance, avgDailySpend, dailyLimit)
  {
    result := [];
    if netBalance > 0.0 {
      if avgDailySpend > dailyLimit * 1.1 {
        result := result + [HighSpending(avgDailySpend, dailyLimit)];
      } else if avgDailySpend < dailyLimit * 0.85 {
        result := result + [BudgetControl(avgDailySpend)];
      }
    } else {
      result := result + [CriticalBalance(netBalance)];
    }
  }

  /** The category card, when there is a top category holding more than 35 % of the spend. */
  method CategoryCard(insights: seq<Insight>, maxCatName: string, maxCatTotal: real, topCatPerc: int, totalExpense: real)
    returns (result: seq<Insight>)
    requires topCatPerc == TopShare(maxCatTotal, totalExpense)
    ensures result == insights + CategoryRule(maxCatName, maxCatTotal, totalExpense)
  {
    result := insights;
    if maxCatName != "" && topCatPerc > 35 {
      result := result + [CategoryWarning(maxCatName, topCatPerc, maxCatTotal)];
    }
  }

  /** The payday card, one to seven days before the next payday. */
  method PaydayCard(insights: seq<Insight>, source: string, daysLeft: int, userProfile: Profile, now: Now)
    returns (result: seq<Insight>)
    requires source == CalculateNextSalaryInfo(userProfile, now).source
    requires daysLeft == DaysToPayday(userProfile, now)
    ensures result == insights + SalaryRule(userProfile, now)
  {
    result := insights;
    if daysLeft <= 7 && daysLeft > 0 {
      result := result + [PaymentApproaching(if source == "" then "Gelir" else source, daysLeft)];
    }
  }

  // ---------------------------------------------------------------------------------------------
  // getWeeklyBreakdown: rolling seven-day windows ending now

  const WeekMs: int := 604800000  // seven days

  /** `d = parseDate(date); d >= start && d < end`; an invalid date lies in no window. */
  predicate InWindow(date: string, start: int, end: int, now: Now) {
    match ParseDate(date, now)
    case None => false
    case Some(mo) => start <= mo.instant < end
  }

  function Within(xs: seq<Transaction>, start: int, end: int, now: Now): seq<Transaction> {
    if |xs| == 0 then []
    else
      var init := xs[..|xs| - 1];
      var last := xs[|xs| - 1];
      Within(init, start, end, now) + (if InWindow(last.date, start, end, now) then [last] else [])
  }

  /** Adjacent windows split the spend of their union. */
  lemma {:induction false} WithinSplit(xs: seq<Transaction>, a: int, b: int, c: int, now: Now)
    requires a <= b <= c
    ensures Sum(Within(xs, a, c, now)) == Sum(Within(xs, a, b, now)) + Sum(Within(xs, b, c, now))
  {
    if |xs| > 0 {
      var init, last := xs[..|xs| - 1], xs[|xs| - 1];
      WithinSplit(init, a, b, c, now);
      var tail := (if InWindow(last.date, a, c, now) then [last] else []);
      var left := (if InWindow(last.date, a, b, now) then [last] else []);
      var right := (if InWindow(last.date, b, c, now) then [last] else []);
      SumAppend(Within(init, a, c, now), tail);
      SumAppend(Within(init, a, b, now), left);
      SumAppend(Within(init, b, c, now), right);
    }
  }

  datatype WeekRow = WeekRow(labelText: string, amount: real)

  /** Row `k` (oldest first) of an `n`-week breakdown: the `(k + 1)`-th week, covering
    * `[now - (n - k) weeks, now - (n - 1 - k) weeks)`. */
  function WeekRowOf(expenses: seq<Transaction>, now: Now, n: int, k: nat): WeekRow {
    WeekRow(NatToString(k + 1) + ". Hafta", WeekAmount(expenses, now, now.Instant(), n, k))
  }

  /** The spend of week `k` of the `n` weeks before the instant `t`. */
  function WeekAmount(expenses: seq<Transaction>, now: Now, t: int, n: int, k: nat): real {
    Sum(Within(expenses, WeekEdge(t, n - k), WeekEdge(t, n - 1 - k), now))
  }

  /** The instant `j` weeks before `t`. */
  function WeekEdge(t: int, j: int): int {
    t - j * WeekMs
  }

  method GetWeeklyBreakdown(expenses: seq<Transaction>, weeksCount: int, now: Now) returns (result: seq<WeekRow>)
    ensures |result| == Count(weeksCount)
    ensures forall k :: 0 <= k < |result| ==> result[k] == WeekRowOf(expenses, now, |result|, k)
  {
    var n := Count(weeksCount);
    ghost var rows := seq(n, k requires 0 <= k < n => WeekRowOf(expenses, now, n, k));
    result := [];
    for i := 0 to n
      invariant result == rows[n - i..]
    {
      var row := WeekRowBack(expenses, weeksCount, now, i);
      SuffixStep(result, rows, row, n - 1 - i);
      result := [row] + result;
    }
  }

  /** A suffix of the rows grows by the row before it. */
  lemma SuffixStep<T>(suffix: seq<T>, rows: seq<T>, x: T, j: int)
    requires 0 <= j < |rows| && suffix == rows[j + 1..] && x == rows[j]
    ensures [x] + suffix == rows[j..]
  {
  }

  /** One pass of the loop: the row of the week that ends `i` weeks before now. */
  method WeekRowBack(expenses: seq<Transaction>, weeksCount: int, now: Now, i: nat) returns (row: WeekRow)
    requires i < Count(weeksCount)
    ensures row == WeekRowOf(expenses, now, Count(weeksCount), Count(weeksCount) - 1 - i)
  {
    var start := MakeDate(now.year, now.month, now.day - (i + 1) * 7) + now.msOfDay;
    var end := MakeDate(now.year, now.month, now.day - i * 7) + now.msOfDay;
    WeeksBack(now.year, now.month, now.day, i + 1);
    WeeksBack(now.year, now.month, now.day, i);
    var weekExpenses := Within(expenses, start, end, now);
    var total := Sum(weekExpenses);
    row := WeekRow(NatToString(weeksCount - i) + ". Hafta", total);
  }

  /** Going back `j` weeks in days moves the date back `j` weeks in milliseconds. */
  lemma WeeksBack(y: int, m: int, d: int, j: int)
    ensures MakeDate(y, m, d - j * 7) == MakeDate(y, m, d) - j * WeekMs
  {
    DayLinear(y, m, d - j * 7, j * 7);
    var x := MakeDay(y, m, d);
    assert MakeDay(y, m, d - j * 7) == x - j * 7;
    assert (x - j * 7) * MsPerDay == x * MsPerDay - j * WeekMs;
  }

  function RowsTotal(rows: seq<WeekRow>): real {
    if |rows| == 0 then 0.0 else RowsTotal(rows[..|rows| - 1]) + rows[|rows| - 1].amount
  }

  /** The amounts of the first `m` rows of an `n`-week breakdown, added up. */
  function WeeksTotal(expenses: seq<Transaction>, now: Now, t: int, n: int, m: nat): real {
    if m == 0 then 0.0 else WeeksTotal(expenses, now, t, n, m - 1) + WeekAmount(expenses, now, t, n, m - 1)
  }

  /** Going further back reaches an earlier instant. */
  lemma WeekEdgeEarlier(t: int, i: int, j: int)
    requires i <= j
    ensures WeekEdge(t, j) <= WeekEdge(t, i)
  {
    assert j * WeekMs == i * WeekMs + (j - i) * WeekMs;
  }

  /** The first `m` weeks together cover `[t - n weeks, t - (n - m) weeks)`. */
  lemma {:induction false} WeeksAddUp(expenses: seq<Transaction>, now: Now, t: int, n: int, m: nat)
    ensures WeeksTotal(expenses, now, t, n, m) == Sum(Within(expenses, WeekEdge(t, n), WeekEdge(t, n - m), now))
  {
    var lo := WeekEdge(t, n);
    if m == 0 {
      WithinSplit(expenses, lo, lo, lo, now);
    } else {
      WeeksAddUp(expenses, now, t, n, m - 1);
      var b := WeekEdge(t, n - (m - 1));
      var c := WeekEdge(t, n - m);
      assert n - 1 - (m - 1) == n - m;
      WeekEdgeEarlier(t, n - (m - 1), n);
      WeekEdgeEarlier(t, n - m, n - (m - 1));
      WithinSplit(expenses, lo, b, c, now);
    }
  }

  lemma {:induction false} RowsAreWeeks(expenses: seq<Transaction>, now: Now, rows: seq<WeekRow>, n: int, m: nat)
    requires m <= |rows|
    requires forall k :: 0 <= k < |rows| ==> rows[k] == WeekRowOf(expenses, now, n, k)
    ensures RowsTotal(rows[..m]) == WeeksTotal(expenses, now, now.Instant(), n, m)
  {
    if m > 0 {
      RowsAreWeeks(expenses, now, rows, n, m - 1);
      assert rows[..m][..m - 1] == rows[..m - 1];
    }
  }

  /** The whole breakdown adds up to the spend dated in the last `n` weeks before now. */
  lemma WeeklyTotal(expenses: seq<Transaction>, now: Now, rows: seq<WeekRow>)
    requires forall k :: 0 <= k < |rows| ==> rows[k] == WeekRowOf(expenses, now, |rows|, k)
    ensures RowsTotal(rows) == Sum(Within(expenses, now.Instant() - |rows| * WeekMs, now.Instant(), now))
  {
    RowsAreWeeks(expenses, now, rows, |rows|, |rows|);
    WeeksAddUp(expenses, now, now.Instant(), |rows|, |rows|);
    assert rows[..|rows|] == rows;
  }

  // ---------------------------------------------------------------------------------------------
  // getCategoryVsBudget

  datatype BudgetRow = BudgetRow(category: string, spent: real, budget: real)

  /** The fixed budget every row shows; the profile's budget is not consulted. */
  const PlaceholderBudget: real := 5000.0

  function Spent(row: BudgetRow): real {
    row.spent
  }

  /** The row of category `c` among `current`. */
  function RowFor(current: seq<Transaction>, c: string): BudgetRow {
    BudgetRow(c, Sum(OfCategory(current, c)), PlaceholderBudget)
  }

  /** One row per category spent on in the current month (by `parseDate`), largest spend first;
    * `userProfile` is not read. */
  function GetCategoryVsBudget(expenses: seq<Transaction>, userProfile: Profile, now: Now): (rows: seq<BudgetRow>)
    ensures var current := OfMonth(expenses, MonthRef(now.month, now.year), now);
      && Sorting.Sorted(rows, Spent, true)
      && (forall c :: c in Categories(current) ==> RowFor(current, c) in rows)
      && (forall row :: row in rows ==> row.category in Categories(current) && row == RowFor(current, row.category))
      && (forall i, j :: 0 <= i < j < |rows| ==> rows[i].category != rows[j].category)
  {
    var current := OfMonth(expenses, MonthRef(now.month, now.year), now);
    var categories := Distinct(Categories(current));
    var unsorted := seq(|categories|, i requires 0 <= i < |categories| => RowFor(current, categories[i]));
    var rows := Sorting.SortBy(unsorted, Spent, true);
    BudgetRowsFacts(current, categories, unsorted, rows);
    rows
  }

  lemma BudgetRowsFacts(current: seq<Transaction>, categories: seq<string>, unsorted: seq<BudgetRow>, rows: seq<BudgetRow>)
    requires categories == Distinct(Categories(current))
    requires |unsorted| == |categories| && forall i :: 0 <= i < |categories| ==> unsorted[i] == RowFor(current, categories[i])
    requires multiset(rows) == multiset(unsorted)
    ensures forall c :: c in Categories(current) ==> RowFor(current, c) in rows
    ensures forall row :: row in rows ==> row.category in Categories(current) && row == RowFor(current, row.category)
    ensures forall i, j :: 0 <= i < j < |rows| ==> rows[i].category != rows[j].category
  {
    RowsMembers(current, categories, unsorted, rows);
    forall i, j | 0 <= i < j < |unsorted| ensures unsorted[i] != unsorted[j] {
      assert unsorted[i].category == categories[i] && unsorted[j].category == categories[j];
    }
    Sorting.PermutationKeepsDistinct(unsorted, rows);
    forall i, j | 0 <= i < j < |rows| ensures rows[i].category != rows[j].category {
      assert rows[i] in rows && rows[j] in rows;
    }
  }

  lemma RowsMembers(current: seq<Transaction>, categories: seq<string>, unsorted: seq<BudgetRow>, rows: seq<BudgetRow>)
    requires categories == Distinct(Categories(current))
    requires |unsorted| == |categories| && forall i :: 0 <= i < |categories| ==> unsorted[i] == RowFor(current, categories[i])
    requires multiset(rows) == multiset(unsorted)
    ensures forall c :: c in Categories(current) ==> RowFor(current, c) in rows
    ensures forall row :: row in rows ==> row.category in Categories(current) && row == RowFor(current, row.category)
  {
    forall c | c in Categories(current) ensures RowFor(current, c) in rows {
      assert c in categories;
      var i :| 0 <= i < |categories| && categories[i] == c;
      assert unsorted[i] in multiset(unsorted);
    }
    forall row | row in rows ensures row.category in Categories(current) && row == RowFor(current, row.category) {
      assert row in multiset(rows);
      assert row in unsorted;
      var i :| 0 <= i < |unsorted| && unsorted[i] == row;
      assert categories[i] in categories;
    }
  }
}

/**
 * The expenses page and the incomes page: each holds a selected month, moved one month back or
 * forth, and derives from the list it is given the month's transactions, their groups by date,
 * the dates newest first and the month's total; the expenses page also sums the month by category.
 */
module MonthPages {
  import opened Calendar
  import opened Domain
  import opened Ledger
  import opened MonthView

  class MonthPage {
    var selectedMonth: MonthRef

    /** A page opens on the current month. */
    constructor(now: Now)
      requires now.Valid()
      ensures selectedMonth == MonthRef(now.month, now.year) && selectedMonth.Valid()
    {
      selectedMonth := MonthRef(now.month, now.year);
    }

    /** `filteredExpenses` / `filteredIncomes`: exactly the transactions whose parsed date falls in
      * the selected month and year, in input order. */
    function Filtered(xs: seq<Transaction>, now: Now): (r: seq<Transaction>)
      reads this
      ensures forall t :: t in r <==> t in xs && InMonth(t.date, selectedMonth, now)
    {
      OfMonth(xs, selectedMonth, now)
    }

    /** `groupedExpenses` / `groupedIncomes`: one group per date of the month, holding that date's
      * transactions of the month in input order. */
    function Grouped(xs: seq<Transaction>, now: Now): (g: Grouping)
      reads this
      ensures forall d :: d in g.groups <==> d in Dates(Filtered(xs, now))
      ensures forall d :: d in g.groups ==> g.groups[d] == OnDate(Filtered(xs, now), d)
    {
      MonthGroupsPartition(xs, selectedMonth, now);
      MonthGroups(xs, selectedMonth, now)
    }

    /** `sortedDates`: each group's date once, newest first. */
    function SortedDates(xs: seq<Transaction>, now: Now): (sorted: seq<string>)
      reads this
      ensures forall d :: d in sorted <==> d in Grouped(xs, now).groups
      ensures forall i, j :: 0 <= i < j < |sorted| ==> sorted[i] != sorted[j]
      ensures forall i, j :: 0 <= i < j < |sorted| ==> DateRank(sorted[i], now) >= DateRank(sorted[j], now)
    {
      MonthGroupsPartition(xs, selectedMonth, now);
      MonthSortedDates(xs, selectedMonth, now)
    }

    /** `categoryMap` of the expenses page: the month's sum per category, whose values add up to
      * the month's total (`totalExpense`). */
    function CategoryMap(xs: seq<Transaction>, now: Now): (m: Tally<string>)
      reads this
      ensures SumOver(m.keys, m.totals) == Sum(Filtered(xs, now))
      ensures forall c :: Get(m, c) == Sum(OfCategory(Filtered(xs, now), c))
    {
      MonthCategoriesTotal(xs, selectedMonth, now);
      var inMonth := OfMonth(xs, selectedMonth, now);
      forall c ensures Get(MonthCategoryMap(xs, selectedMonth, now), c) == Sum(OfCategory(inMonth, c)) {
        TallyValue(ByCategory(inMonth), c);
        CategoryAmount(inMonth, c);
      }
      MonthCategoryMap(xs, selectedMonth, now)
    }

    /** `goToPrevMonth()`: the month before, December of the year before after January. */
    method GoToPrevMonth()
      modifies this
      ensures selectedMonth == PrevMonth(old(selectedMonth))
      ensures old(selectedMonth).Valid() ==> selectedMonth.Valid() && NextMonth(selectedMonth) == old(selectedMonth)
    {
      if selectedMonth.month == 0 {
        selectedMonth := MonthRef(11, selectedMonth.year - 1);
      } else {
        selectedMonth := MonthRef(selectedMonth.month - 1, selectedMonth.year);
      }
    }

    /** `goToNextMonth()`: the month after, January of the year after after December. */
    method GoToNextMonth()
      modifies this
      ensures selectedMonth == NextMonth(old(selectedMonth))
      ensures old(selectedMonth).Valid() ==> selectedMonth.Valid() && PrevMonth(selectedMonth) == old(selectedMonth)
    {
      if selectedMonth.month == 11 {
        selectedMonth := MonthRef(0, selectedMonth.year + 1);
      } else {
        selectedMonth := MonthRef(selectedMonth.month + 1, selectedMonth.year);
      }
    }
  }

  /** `totalExpense` / `totalIncome`: the sum of the month's amounts, which is also what the
    * per-category sums of `categoryMap` add up to. */
  function MonthTotal(page: MonthPage, xs: seq<Transaction>, now: Now): (total: real)
    reads page
    ensures total == SumOver(page.CategoryMap(xs, now).keys, page.CategoryMap(xs, now).totals)
    ensures total == Sum(page.Filtered(xs, now))
  {
    MonthSum(xs, page.selectedMonth, now)
  }
}

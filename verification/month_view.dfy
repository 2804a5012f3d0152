/**
 * The month pages' derived lists, shared by the expenses page, the incomes page and the dashboard:
 * the selected month's transactions, grouped by date text, the group keys newest first, the total
 * and the per-category sums. Each is a `filter`/`reduce`/`sort` over the list, so each is a function.
 */
module MonthView {
  import opened Calendar
  import opened Domain
  import opened Ledger

  /** The selected month's groups by date text (`reduce` into `acc[t.date].push(t)`). */
  function MonthGroups(xs: seq<Transaction>, sel: MonthRef, now: Now): Grouping {
    GroupByDate(OfMonth(xs, sel, now))
  }

  /** `Object.keys(groups).sort((a, b) => parseDate(b) - parseDate(a))`. */
  function MonthSortedDates(xs: seq<Transaction>, sel: MonthRef, now: Now): seq<string> {
    NewestFirst(MonthGroups(xs, sel, now).keys, now)
  }

  /** `filtered.reduce((acc, t) => { acc[t.category] = (acc[t.category] || 0) + t.amount }, {})`. */
  function MonthCategoryMap(xs: seq<Transaction>, sel: MonthRef, now: Now): Tally<string> {
    TallyOf(ByCategory(OfMonth(xs, sel, now)))
  }

  /**
   * The month's groups partition its transactions: a key for each date of the month, each group
   * holding exactly that date's transactions of the month in input order; and the sorted dates
   * list each key exactly once, newest first.
   */
  lemma MonthGroupsPartition(xs: seq<Transaction>, sel: MonthRef, now: Now)
    ensures var inMonth := OfMonth(xs, sel, now);
            var g := MonthGroups(xs, sel, now);
            && (forall d :: d in g.groups <==> d in Dates(inMonth))
            && (forall d :: d in g.groups ==> g.groups[d] == OnDate(inMonth, d))
    ensures var g := MonthGroups(xs, sel, now);
            var sorted := MonthSortedDates(xs, sel, now);
            && (forall d :: d in sorted <==> d in g.groups)
            && (forall i, j :: 0 <= i < j < |sorted| ==> sorted[i] != sorted[j])
            && (forall i, j :: 0 <= i < j < |sorted| ==> DateRank(sorted[i], now) >= DateRank(sorted[j], now))
  {
    var inMonth := OfMonth(xs, sel, now);
    GroupByDatePartitions(inMonth);
    NewestFirstDistinct(GroupByDate(inMonth).keys, now);
  }

  /** The category sums of the month add up to the month's total (`totalExpense`). */
  lemma MonthCategoriesTotal(xs: seq<Transaction>, sel: MonthRef, now: Now)
    ensures var m := MonthCategoryMap(xs, sel, now);
            SumOver(m.keys, m.totals) == Sum(OfMonth(xs, sel, now))
  {
    var inMonth := OfMonth(xs, sel, now);
    TallyTotal(ByCategory(inMonth));
    PairsTotal(inMonth, ByCategory(inMonth));
  }
}

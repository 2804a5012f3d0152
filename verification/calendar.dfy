/**
 * Calendar and clock arithmetic as JavaScript's `Date` performs it in a time zone with no offset and
 * no daylight saving: an instant is an integer number of milliseconds since 1 January 1970, and
 * `new Date(y, m, d)` is midnight of day `MakeDay(y, m, d)`, where a month outside 0..11 rolls the
 * year and a day outside the month rolls into the neighbouring months.
 */
module Calendar {

  const MsPerDay: int := 86400000

  predicate IsLeapYear(y: int) {
    y % 4 == 0 && (y % 100 != 0 || y % 400 == 0)
  }

  function YearLength(y: int): int {
    if IsLeapYear(y) then 366 else 365
  }

  /** Days in month `m` (0 = January .. 11 = December) of year `y`. */
  function DaysInMonth(y: int, m: int): (n: int)
    requires 0 <= m < 12
    ensures 28 <= n <= 31
  {
    if m == 1 then (if IsLeapYear(y) then 29 else 28)
    else if m == 3 || m == 5 || m == 8 || m == 10 then 30
    else 31
  }

  /** Day number of 1 January of year `y`, counted from 1 January 1970. */
  function DayFromYear(y: int): int
    decreases if y < 1970 then 1970 - y else y - 1970
  {
    if y == 1970 then 0
    else if y > 1970 then DayFromYear(y - 1) + YearLength(y - 1)
    else DayFromYear(y + 1) - YearLength(y)
  }

  /** Days of year `y` before the first of month `m`. */
  function DaysBeforeMonth(y: int, m: int): int
    requires 0 <= m <= 12
  {
    if m == 0 then 0 else DaysBeforeMonth(y, m - 1) + DaysInMonth(y, m - 1)
  }

  /** The day number of `new Date(y, m, d)`: months and days out of range roll over. */
  function MakeDay(y: int, m: int, d: int): int {
    DayFromYear(y + m / 12) + DaysBeforeMonth(y + m / 12, m % 12) + d - 1
  }

  /** Midnight of `new Date(y, m, d)`, in milliseconds. */
  function MakeDate(y: int, m: int, d: int): int {
    MakeDay(y, m, d) * MsPerDay
  }

  predicate ValidDate(y: int, m: int, d: int) {
    0 <= m < 12 && 1 <= d <= DaysInMonth(y, m)
  }

  /** The current moment: a calendar date and the milliseconds elapsed since its midnight. */
  datatype Now = Now(year: int, month: int, day: int, msOfDay: int) {
    predicate Valid() {
      ValidDate(year, month, day) && 0 <= msOfDay < MsPerDay
    }

    function Instant(): int {
      MakeDate(year, month, day) + msOfDay
    }
  }

  /** A month of a year, as the month selectors hold it. */
  datatype MonthRef = MonthRef(month: int, year: int) {
    predicate Valid() { 0 <= month < 12 }
  }

  function PrevMonth(r: MonthRef): MonthRef {
    if r.month == 0 then MonthRef(11, r.year - 1) else MonthRef(r.month - 1, r.year)
  }

  function NextMonth(r: MonthRef): MonthRef {
    if r.month == 11 then MonthRef(0, r.year + 1) else MonthRef(r.month + 1, r.year)
  }

  /** The month and year of `new Date(y, m + k, 1)`. */
  function ShiftMonth(y: int, m: int, k: int): MonthRef {
    MonthRef((m + k) % 12, y + (m + k) / 12)
  }

  /** `Math.ceil(a / b)` for a positive integer divisor. */
  function CeilDiv(a: int, b: int): int
    requires b > 0
  {
    -((-a) / b)
  }

  /** `getDay()` of any instant of day number `dn`: 0 = Sunday .. 6 = Saturday (1 January 1970 was a Thursday). */
  function Weekday(dn: int): (w: int)
    ensures 0 <= w <= 6
  {
    (dn + 4) % 7
  }

  // ---------------------------------------------------------------------------------------------
  // Properties

  lemma PrevMonthWraps(r: MonthRef)
    requires r.Valid()
    ensures PrevMonth(r).Valid()
    ensures r.month == 0 ==> PrevMonth(r) == MonthRef(11, r.year - 1)
    ensures r.month > 0 ==> PrevMonth(r) == MonthRef(r.month - 1, r.year)
    ensures NextMonth(PrevMonth(r)) == r
  {
  }

  lemma NextMonthWraps(r: MonthRef)
    requires r.Valid()
    ensures NextMonth(r).Valid()
    ensures r.month == 11 ==> NextMonth(r) == MonthRef(0, r.year + 1)
    ensures r.month < 11 ==> NextMonth(r) == MonthRef(r.month + 1, r.year)
    ensures PrevMonth(NextMonth(r)) == r
  {
  }

  /** Both navigation steps agree with `new Date(y, m ± 1, 1)`. */
  lemma NavigationIsShift(r: MonthRef)
    requires r.Valid()
    ensures PrevMonth(r) == ShiftMonth(r.year, r.month, -1)
    ensures NextMonth(r) == ShiftMonth(r.year, r.month, 1)
  {
  }

  /** Stepping `new Date(y, m + k, 1)` one month further is the next-month step. */
  lemma ShiftStep(y: int, m: int, k: int)
    ensures NextMonth(ShiftMonth(y, m, k)) == ShiftMonth(y, m, k + 1)
  {
    var t := m + k;
    var q, r := t / 12, t % 12;
    assert t == 12 * q + r && 0 <= r < 12;
    if r == 11 {
      assert t + 1 == 12 * (q + 1);
      assert (t + 1) / 12 == q + 1 && (t + 1) % 12 == 0;
    } else {
      assert t + 1 == 12 * q + (r + 1);
      assert (t + 1) / 12 == q && (t + 1) % 12 == r + 1;
    }
  }

  lemma {:induction false} YearStep(y: int)
    ensures DayFromYear(y + 1) == DayFromYear(y) + YearLength(y)
  {
    if y + 1 > 1970 {
    } else if y + 1 == 1970 {
      assert DayFromYear(y) == DayFromYear(y + 1) - YearLength(y);
    } else {
    }
  }

  lemma DaysBeforeDecember(y: int)
    ensures DaysBeforeMonth(y, 11) + 31 == YearLength(y)
  {
    var feb := DaysInMonth(y, 1);
    assert DaysBeforeMonth(y, 1) == 31;
    assert DaysBeforeMonth(y, 2) == 31 + feb;
    assert DaysBeforeMonth(y, 3) == 62 + feb;
    assert DaysBeforeMonth(y, 4) == 92 + feb;
    assert DaysBeforeMonth(y, 5) == 123 + feb;
    assert DaysBeforeMonth(y, 6) == 153 + feb;
    assert DaysBeforeMonth(y, 7) == 184 + feb;
    assert DaysBeforeMonth(y, 8) == 215 + feb;
    assert DaysBeforeMonth(y, 9) == 245 + feb;
    assert DaysBeforeMonth(y, 10) == 276 + feb;
    assert DaysBeforeMonth(y, 11) == 306 + feb;
  }

  /** The first of the next month lies exactly `DaysInMonth` days after the first of this one. */
  lemma {:induction false} MonthStep(y: int, m: int)
    requires 0 <= m < 12
    ensures MakeDay(y, m + 1, 1) == MakeDay(y, m, 1) + DaysInMonth(y, m)
  {
    if m == 11 {
      assert (m + 1) / 12 == 1 && (m + 1) % 12 == 0;
      YearStep(y);
      DaysBeforeDecember(y);
    } else {
      assert (m + 1) / 12 == 0 && (m + 1) % 12 == m + 1;
    }
  }

  /** `MakeDay` rolls its month argument into the year in steps of twelve. */
  lemma MonthNormal(y: int, m: int, d: int)
    ensures MakeDay(y, m, d) == MakeDay(y + m / 12, m % 12, d)
  {
  }

  /** Day overflow: day `d` of a month is `d - 1` days after its first. */
  lemma DayLinear(y: int, m: int, d: int, k: int)
    ensures MakeDay(y, m, d + k) == MakeDay(y, m, d) + k
  {
  }

  /** `new Date(y, m + 1, 0)` is the last day of month `m`: its `getDate()` is `DaysInMonth(y, m)`. */
  lemma LastDayOfMonth(y: int, m: int)
    requires 0 <= m < 12
    ensures MakeDay(y, m + 1, 0) == MakeDay(y, m, DaysInMonth(y, m))
  {
    MonthStep(y, m);
  }

  /** Any day `d >= 1` of month `m + 1` comes after every valid day of month `m`. */
  lemma NextMonthIsLater(y: int, m: int, cd: int, d: int)
    requires ValidDate(y, m, cd) && d >= 1
    ensures MakeDay(y, m + 1, d) > MakeDay(y, m, cd)
  {
    MonthStep(y, m);
  }

  /** Any day 1..28 of month `m - 1` comes before every valid day of month `m`. */
  lemma PrevMonthIsEarlier(y: int, m: int, cd: int, d: int)
    requires ValidDate(y, m, cd) && 1 <= d <= 28
    ensures MakeDay(y, m - 1, d) < MakeDay(y, m, cd)
  {
    assert MakeDay(y, m, 1) <= MakeDay(y, m, cd) by { DayLinear(y, m, 1, cd - 1); }
    if m == 0 {
      assert MakeDay(y, -1, d) == MakeDay(y - 1, 11, d) by { MonthNormal(y, -1, d); }
      assert MakeDay(y - 1, 12, 1) == MakeDay(y, 0, 1) by { MonthNormal(y - 1, 12, 1); }
      assert MakeDay(y - 1, 11, d) < MakeDay(y - 1, 12, 1) by {
        MonthStep(y - 1, 11);
        DayLinear(y - 1, 11, 1, d - 1);
      }
    } else {
      assert MakeDay(y, m - 1, d) < MakeDay(y, m, 1) by {
        MonthStep(y, m - 1);
        DayLinear(y, m - 1, 1, d - 1);
      }
    }
  }

  /** `ceil(a / b)` is the least integer `q` with `q * b >= a`. */
  lemma CeilDivBounds(a: int, b: int)
    requires b > 0
    ensures CeilDiv(a, b) * b >= a
    ensures (CeilDiv(a, b) - 1) * b < a
  {
  }
}

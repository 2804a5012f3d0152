/**
 * Forecasting: the least-squares line through a series (x = 0, 1, 2, ...), moving average and
 * trend, the next-month expense forecast, budget depletion, goal completion, net-income
 * projection and the daily spending heatmap. The current moment is a parameter.
 */
module Predictions {
  import opened Wrappers
  import opened Calendar
  import opened Domain
  import opened Ledger
  import opened Text

  // ---------------------------------------------------------------------------------------------
  // linearRegression

  /** The `reduce` sums of the regression, each a left fold over the series. */
  function SumY(ys: seq<real>): real {
    if |ys| == 0 then 0.0 else SumY(ys[..|ys| - 1]) + ys[|ys| - 1]
  }

  function SumXY(ys: seq<real>): real {
    if |ys| == 0 then 0.0 else SumXY(ys[..|ys| - 1]) + (|ys| - 1) as real * ys[|ys| - 1]
  }

  /** 0 + 1 + ... + (n - 1): the sum of the x values. */
  function SumX(n: nat): real {
    if n == 0 then 0.0 else SumX(n - 1) + (n - 1) as real
  }

  /** 0² + 1² + ... + (n - 1)². */
  function SumX2(n: nat): real {
    if n == 0 then 0.0 else SumX2(n - 1) + (n - 1) as real * (n - 1) as real
  }

  lemma {:induction false} SumXClosed(n: nat)
    ensures SumX(n) * 2.0 == n as real * (n as real - 1.0)
  {
    if n > 0 {
      SumXClosed(n - 1);
      var m := (n - 1) as real;
      assert m * (m - 1.0) + 2.0 * m == (m + 1.0) * m;
    }
  }

  lemma {:induction false} SumX2Closed(n: nat)
    ensures SumX2(n) * 6.0 == (n as real - 1.0) * n as real * (2.0 * n as real - 1.0)
  {
    if n > 0 {
      SumX2Closed(n - 1);
      SquaresStep((n - 1) as real);
    }
  }

  lemma SquaresStep(m: real)
    ensures (m - 1.0) * m * (2.0 * m - 1.0) + 6.0 * (m * m) == m * (m + 1.0) * (2.0 * m + 1.0)
  {
    assert (m - 1.0) * m * (2.0 * m - 1.0) == m * (2.0 * m * m - 3.0 * m + 1.0);
    assert m * (m + 1.0) * (2.0 * m + 1.0) == m * (2.0 * m * m + 3.0 * m + 1.0);
  }

  /** `n·Σx² − (Σx)²`, the regression's denominator. */
  function Spread(n: nat): real {
    n as real * SumX2(n) - SumX(n) * SumX(n)
  }

  /** The denominator is `n²(n² − 1) / 12`. */
  lemma Denominator(n: nat)
    ensures 12.0 * Spread(n) == n as real * n as real * (n as real - 1.0) * (n as real + 1.0)
  {
    SumXClosed(n);
    SumX2Closed(n);
    SpreadAlgebra(n as real, SumX(n), SumX2(n));
  }

  lemma SpreadAlgebra(n: real, a: real, b: real)
    requires a * 2.0 == n * (n - 1.0) && b * 6.0 == (n - 1.0) * n * (2.0 * n - 1.0)
    ensures 12.0 * (n * b - a * a) == n * n * (n - 1.0) * (n + 1.0)
  {
    var k := n * (n - 1.0);
    assert 12.0 * (n * b - a * a) == 2.0 * n * (b * 6.0) - 3.0 * (a * 2.0) * (a * 2.0);
    assert 2.0 * n * (k * (2.0 * n - 1.0)) == k * (4.0 * n * n - 2.0 * n);
    assert 3.0 * k * k == k * (3.0 * n * n - 3.0 * n);
    assert n * n * (n - 1.0) * (n + 1.0) == k * (n * n + n);
  }

  /** From two points on the denominator is positive, so the slope is defined. */
  lemma SpreadPositive(n: nat)
    requires n >= 2
    ensures Spread(n) > 0.0
  {
    Denominator(n);
    var r := n as real;
    assert r * r > 0.0 && (r - 1.0) * (r + 1.0) > 0.0;
    assert r * r * (r - 1.0) * (r + 1.0) == (r * r) * ((r - 1.0) * (r + 1.0));
  }

  /** A fitted line: `predict(x) = slope * x + intercept`. */
  datatype Line = Line(slope: real, intercept: real) {
    function Predict(x: real): real {
      slope * x + intercept
    }
  }

  /**
   * `linearRegression(values)`: fewer than two values give the flat line at the first value (0 for
   * none); otherwise the least-squares line over x = 0, 1, ..., n - 1.
   */
  function LinearRegression(values: seq<real>): (line: Line)
    ensures |values| == 0 ==> line == Line(0.0, 0.0)
    ensures |values| == 1 ==> line == Line(0.0, values[0])
  {
    var n := |values|;
    if n < 2 then Line(0.0, if n == 1 then values[0] else 0.0)
    else
      SpreadPositive(n);
      FitLine(n as real, SumX(n), Spread(n), SumY(values), SumXY(values))
  }

  /** Slope and intercept from the sums: `n` points, `Σx`, the spread `n·Σx² − (Σx)²`, `Σy`, `Σxy`. */
  function FitLine(n: real, sumX: real, spread: real, sumY: real, sumXY: real): Line
    requires n != 0.0 && spread != 0.0
  {
    var slope := (n * sumXY - sumX * sumY) / spread;
    var intercept := (sumY - slope * sumX) / n;
    Line(slope, intercept)
  }

  /** The fitted slope and intercept solve the normal equations of least squares. */
  lemma FitSolves(n: real, sumX: real, spread: real, sumY: real, sumXY: real)
    requires n != 0.0 && spread != 0.0
    ensures FitLine(n, sumX, spread, sumY, sumXY).slope * spread == n * sumXY - sumX * sumY
    ensures FitLine(n, sumX, spread, sumY, sumXY).intercept * n
              == sumY - FitLine(n, sumX, spread, sumY, sumXY).slope * sumX
  {
    var line := FitLine(n, sumX, spread, sumY, sumXY);
    DivideThenMultiply(n * sumXY - sumX * sumY, spread);
    DivideThenMultiply(sumY - line.slope * sumX, n);
  }

  /** From two values on, `linearRegression` is the fit over the series' sums. */
  lemma Regression(values: seq<real>)
    requires |values| >= 2
    ensures Spread(|values|) > 0.0
    ensures LinearRegression(values)
              == FitLine(|values| as real, SumX(|values|), Spread(|values|), SumY(values), SumXY(values))
  {
    SpreadPositive(|values|);
  }

  lemma DivideThenMultiply(a: real, b: real)
    requires b != 0.0
    ensures (a / b) * b == a
  {
  }

  /** `q · n == r · n` with `n != 0` gives `q == r`. */
  lemma Cancel(q: real, r: real, n: real)
    requires n != 0.0 && q * n == r * n
    ensures q == r
  {
    assert (q - r) * n == 0.0;
  }

  /** The fitted line passes through the mean point: at x = (n - 1) / 2 it predicts the mean. */
  lemma ThroughMeanPoint(values: seq<real>)
    requires |values| >= 2
    ensures LinearRegression(values).Predict((|values| - 1) as real / 2.0) == SumY(values) / |values| as real
  {
    var n := |values|;
    Regression(values);
    SumXClosed(n);
    FitThroughMean(n as real, SumX(n), Spread(n), SumY(values), SumXY(values));
  }

  lemma FitThroughMean(n: real, sumX: real, spread: real, sumY: real, sumXY: real)
    requires n != 0.0 && spread != 0.0 && sumX * 2.0 == n * (n - 1.0)
    ensures FitLine(n, sumX, spread, sumY, sumXY).Predict((n - 1.0) / 2.0) == sumY / n
  {
    var line := FitLine(n, sumX, spread, sumY, sumXY);
    FitSolves(n, sumX, spread, sumY, sumXY);
    var s, c := line.slope, line.intercept;
    var mid := (n - 1.0) / 2.0;
    assert (s * mid + c) * n == s * (mid * n) + c * n;
    assert mid * n == sumX;
    DivideThenMultiply(sumY, n);
    Cancel(s * mid + c, sumY / n, n);
  }

  /** A series lying exactly on a line `a + b·i` gives back that line. */
  lemma LineRecovered(values: seq<real>, a: real, b: real)
    requires |values| >= 2 && OnLine(values, a, b)
    ensures LinearRegression(values) == Line(b, a)
  {
    var n := |values|;
    SumsOfLine(values, a, b);
    Regression(values);
    SpreadIs(n);
    FitRecovers(a, b, n as real, SumX(n), SumX2(n), Spread(n), SumY(values), SumXY(values));
  }

  /** `spread` is `n·Σx² − (Σx)²`. */
  predicate IsSpread(n: real, sumX: real, sumX2: real, spread: real) {
    spread == n * sumX2 - sumX * sumX
  }

  lemma SpreadIs(n: nat)
    ensures IsSpread(n as real, SumX(n), SumX2(n), Spread(n))
  {
  }

  /** The sums of `n` points on the line `a + b·x`. */
  predicate LineSums(n: real, sumX: real, sumX2: real, sumY: real, sumXY: real, a: real, b: real) {
    sumY == n * a + b * sumX && sumXY == a * sumX + b * sumX2
  }

  lemma FitRecovers(a: real, b: real, n: real, x: real, x2: real, spread: real, y: real, xy: real)
    requires n != 0.0 && spread != 0.0 && IsSpread(n, x, x2, spread) && LineSums(n, x, x2, y, xy, a, b)
    ensures FitLine(n, x, spread, y, xy) == Line(b, a)
  {
    var line := FitLine(n, x, spread, y, xy);
    FitSolves(n, x, spread, y, xy);
    var s, c := line.slope, line.intercept;
    assert n * xy - x * y == n * (a * x) + n * (b * x2) - x * (n * a) - x * (b * x);
    assert n * (a * x) == x * (n * a);
    assert n * (b * x2) - x * (b * x) == b * spread;
    Cancel(s, b, spread);
    assert c * n == n * a + b * x - b * x;
    Cancel(c, a, n);
  }

  /** A constant series has slope 0, and its intercept is that constant. */
  lemma ConstantHasNoSlope(values: seq<real>, c: real)
    requires |values| >= 2 && forall i :: 0 <= i < |values| ==> values[i] == c
    ensures LinearRegression(values) == Line(0.0, c)
  {
    assert OnLine(values, c, 0.0);
    LineRecovered(values, c, 0.0);
  }

  /** The sums of a series with one more value. */
  lemma SumsUnfold(ys: seq<real>)
    requires |ys| > 0
    ensures SumY(ys) == SumY(ys[..|ys| - 1]) + ys[|ys| - 1]
    ensures SumXY(ys) == SumXY(ys[..|ys| - 1]) + (|ys| - 1) as real * ys[|ys| - 1]
  {
  }

  /** The series lies on the line `a + b·i`. */
  predicate OnLine(values: seq<real>, a: real, b: real) {
    forall i :: 0 <= i < |values| ==> values[i] == a + b * i as real
  }

  lemma OnLinePrefix(values: seq<real>, a: real, b: real)
    requires OnLine(values, a, b) && |values| > 0
    ensures OnLine(values[..|values| - 1], a, b)
    ensures values[|values| - 1] == a + b * (|values| - 1) as real
  {
  }

  lemma SumsOfLine(values: seq<real>, a: real, b: real)
    requires OnLine(values, a, b)
    ensures LineSums(|values| as real, SumX(|values|), SumX2(|values|), SumY(values), SumXY(values), a, b)
  {
    SumYOfLine(values, a, b);
    SumXYOfLine(values, a, b);
  }

  lemma {:induction false} SumYOfLine(values: seq<real>, a: real, b: real)
    requires OnLine(values, a, b)
    ensures SumY(values) == |values| as real * a + b * SumX(|values|)
  {
    var n := |values|;
    if n > 0 {
      var prefix := values[..n - 1];
      OnLinePrefix(values, a, b);
      SumYOfLine(prefix, a, b);
      SumsUnfold(values);
      var x, sx := (n - 1) as real, SumX(n - 1);
      assert SumY(values) == x * a + b * sx + (a + b * x);
      assert SumX(n) == sx + x;
    }
  }

  /** One more point on the line adds `x · (a + b·x)` to `Σxy`. */
  lemma XYStep(a: real, b: real, x: real, sx: real, sx2: real, before: real, last: real, after: real)
    requires before == a * sx + b * sx2 && last == a + b * x && after == before + x * last
    ensures after == a * (sx + x) + b * (sx2 + x * x)
  {
  }

  lemma {:induction false} SumXYOfLine(values: seq<real>, a: real, b: real)
    requires OnLine(values, a, b)
    ensures SumXY(values) == a * SumX(|values|) + b * SumX2(|values|)
  {
    var n := |values|;
    if n > 0 {
      var prefix := values[..n - 1];
      OnLinePrefix(values, a, b);
      SumXYOfLine(prefix, a, b);
      SumsUnfold(values);
      var x := (n - 1) as real;
      XYStep(a, b, x, SumX(n - 1), SumX2(n - 1), SumXY(prefix), values[n - 1], SumXY(values));
    }
  }

  // ---------------------------------------------------------------------------------------------
  // movingAverage, calculateTrend

  /** `Math.max(0, x)`. */
  function Max0(x: real): (r: real)
    ensures r >= 0.0 && r >= x && (r == x || r == 0.0)
  {
    if x > 0.0 then x else 0.0
  }

  /**
   * `movingAverage(values, window)`: the mean of the last `window` values, or of all of them when
   * there are fewer. `None` stands for a result that is not a finite number (a division by zero:
   * no values, or a zero window). A negative window drops that many leading values
   * (`slice(-window)`) and divides by the negative window, as the code does.
   */
  function MovingAverage(values: seq<real>, window: int): (r: Option<real>)
    ensures window >= 1 && |values| >= window ==> r.Some? && r.value * window as real == SumY(values[|values| - window..])
    ensures 1 <= |values| < window ==> r.Some? && r.value * |values| as real == SumY(values)
    ensures r == None <==> (|values| == 0 && window >= 1) || window == 0
  {
    if |values| < window then
      if |values| == 0 then None
      else
        DivideThenMultiply(SumY(values), |values| as real);
        Some(SumY(values) / |values| as real)
    else if window == 0 then None
    else if window > 0 then
      DivideThenMultiply(SumY(values[|values| - window..]), window as real);
      Some(SumY(values[|values| - window..]) / window as real)
    else
      var drop := if -window < |values| then -window else |values|;
      Some(SumY(values[drop..]) / window as real)
  }

  /** The moving average of a constant series is that constant, whatever the (positive) window. */
  lemma MovingAverageOfConstant(values: seq<real>, c: real, window: int)
    requires |values| >= 1 && window >= 1
    requires forall i :: 0 <= i < |values| ==> values[i] == c
    ensures MovingAverage(values, window) == Some(c)
  {
    var r := MovingAverage(values, window).value;
    if |values| < window {
      ConstantSum(values, c);
      assert r * |values| as real == c * |values| as real;
      Cancel(r, c, |values| as real);
    } else {
      var recent := values[|values| - window..];
      ConstantSum(recent, c);
      assert r * window as real == c * window as real;
      Cancel(r, c, window as real);
    }
  }

  lemma ConstantSum(values: seq<real>, c: real)
    requires forall i :: 0 <= i < |values| ==> values[i] == c
    ensures SumY(values) == c * |values| as real
  {
    assert OnLine(values, c, 0.0);
    SumYOfLine(values, c, 0.0);
  }

  /** `calculateTrend(values)`: the regression slope, 0 below two values. */
  function CalculateTrend(values: seq<real>): (r: real)
    ensures |values| < 2 ==> r == 0.0
  {
    if |values| < 2 then 0.0 else LinearRegression(values).slope
  }

  /** A constant series has no trend. */
  lemma FlatHasNoTrend(values: seq<real>, c: real)
    requires forall i :: 0 <= i < |values| ==> values[i] == c
    ensures CalculateTrend(values) == 0.0
  {
    if |values| >= 2 {
      ConstantHasNoSlope(values, c);
    }
  }

  /** The trend of a series on a line is that line's slope. */
  lemma TrendOfLine(values: seq<real>, a: real, b: real)
    requires |values| >= 2 && OnLine(values, a, b)
    ensures CalculateTrend(values) == b
  {
    LineRecovered(values, a, b);
  }

  // ---------------------------------------------------------------------------------------------
  // predictNextMonthExpense

  /** `{ predicted, min, max, confidence }`. */
  datatype Forecast = Forecast(predicted: real, min: real, max: real, confidence: real)

  /** The regression's value one step past the last month. */
  function PointForecast(totals: seq<real>): real {
    LinearRegression(totals).Predict(|totals| as real)
  }

  /**
   * `predictNextMonthExpense(monthlyTotals)`: below two months all zeros; otherwise the point
   * forecast `p` clamped at 0, a band of ±15% of `p` whose lower end is clamped at 0 and whose
   * upper end is not, and a fixed confidence of 0.85.
   */
  function PredictNextMonthExpense(totals: seq<real>): (f: Forecast)
    ensures |totals| < 2 ==> f == Forecast(0.0, 0.0, 0.0, 0.0)
    ensures |totals| >= 2 ==> f.confidence == 0.85 && f.predicted == Max0(PointForecast(totals))
    ensures |totals| >= 2 ==> 0.0 <= f.min <= f.predicted
    ensures |totals| >= 2 && PointForecast(totals) >= 0.0 ==>
              f.min == 0.85 * f.predicted && f.max == 1.15 * f.predicted
    ensures |totals| >= 2 && PointForecast(totals) < 0.0 ==> f.predicted == 0.0 && f.min == 0.0 && f.max < 0.0
  {
    if |totals| < 2 then Forecast(0.0, 0.0, 0.0, 0.0)
    else
      var predicted := PointForecast(totals);
      var confidence := predicted * 0.15;
      Forecast(Max0(predicted), Max0(predicted - confidence), predicted + confidence, 0.85)
  }

  /** Months on a line `a + b·i` forecast the line's next value (clamped at 0). */
  lemma ForecastFollowsLine(totals: seq<real>, a: real, b: real)
    requires |totals| >= 2 && OnLine(totals, a, b)
    ensures PredictNextMonthExpense(totals).predicted == Max0(a + b * |totals| as real)
  {
    PointForecastOfLine(totals, a, b);
  }

  lemma PointForecastOfLine(totals: seq<real>, a: real, b: real)
    requires |totals| >= 2 && OnLine(totals, a, b)
    ensures PointForecast(totals) == a + b * |totals| as real
  {
    LineRecovered(totals, a, b);
  }

  // ---------------------------------------------------------------------------------------------
  // addDays, addMonths

  /** `addDays(now, days)`: the same time of day, `days` calendar days later (day overflow rolls). */
  function AddDays(now: Now, days: int): (t: int)
    ensures t == now.Instant() + days * MsPerDay
  {
    DayLinear(now.year, now.month, now.day, days);
    MakeDate(now.year, now.month, now.day + days) + now.msOfDay
  }

  /** `addMonths(now, months)`: `setMonth(getMonth() + months)` keeps the day of month, which rolls
    * into the following month when the target month is shorter. */
  function AddMonths(now: Now, months: int): int {
    MakeDate(now.year, now.month + months, now.day) + now.msOfDay
  }

  /** Moving the month argument one step forward moves at least 28 days forward. */
  lemma MonthAdvance(y: int, m: int, d: int)
    ensures MakeDay(y, m + 1, d) >= MakeDay(y, m, d) + 28
  {
    var q, r := m / 12, m % 12;
    MonthStep(y + q, r);
    if r == 11 {
      assert m + 1 == 12 * (q + 1);
      assert (m + 1) / 12 == q + 1 && (m + 1) % 12 == 0;
    } else {
      assert m + 1 == 12 * q + (r + 1);
      assert (m + 1) / 12 == q && (m + 1) % 12 == r + 1;
    }
  }

  /** `k >= 1` months later is at least `28·k` days later. */
  lemma {:induction false} AddMonthsIsLater(now: Now, k: int)
    requires k >= 0
    ensures AddMonths(now, k) >= now.Instant() + 28 * k * MsPerDay
    decreases k
  {
    if k > 0 {
      AddMonthsIsLater(now, k - 1);
      MonthAdvance(now.year, now.month + k - 1, now.day);
    }
  }

  /** For a day that every month has, `addMonths` lands on that day of the shifted month. */
  lemma AddMonthsKeepsDay(now: Now, k: int)
    requires now.Valid() && now.day <= 28
    ensures ShiftMonth(now.year, now.month, k).Valid()
    ensures ValidDate(ShiftMonth(now.year, now.month, k).year, ShiftMonth(now.year, now.month, k).month, now.day)
    ensures AddMonths(now, k)
              == MakeDate(ShiftMonth(now.year, now.month, k).year, ShiftMonth(now.year, now.month, k).month, now.day) + now.msOfDay
  {
  }

  // ---------------------------------------------------------------------------------------------
  // calculateBudgetDepletion

  /** The depletion estimate; `depletionDate` is `None` for `null`. */
  datatype Depletion = Depletion(
    daysLeft: int,
    depletionDate: Option<int>,
    safeSpendingRate: real,
    currentSpendingRate: real,
    isOnTrack: bool,
    percentUsed: real)

  /** `Math.floor(a / b)` brackets `a` between two consecutive multiples of a positive `b`. */
  lemma FloorDivBounds(a: real, b: real)
    requires b > 0.0
    ensures (a / b).Floor as real * b <= a < ((a / b).Floor + 1) as real * b
  {
    var q := a / b;
    var f := q.Floor;
    DivideThenMultiply(a, b);
    ScaleBracket(f as real, q, (f + 1) as real, b, a);
  }

  /** Scaling `lo <= q < hi` by a positive `b`. */
  lemma ScaleBracket(lo: real, q: real, hi: real, b: real, a: real)
    requires lo <= q < hi && b > 0.0 && q * b == a
    ensures lo * b <= a < hi * b
  {
    MultiplyKeepsOrder(lo, q, b);
    MultiplyKeepsStrictOrder(q, hi, b);
  }

  lemma MultiplyKeepsOrder(x: real, y: real, b: real)
    requires x <= y && b > 0.0
    ensures x * b <= y * b
  {
  }

  lemma MultiplyKeepsStrictOrder(x: real, y: real, b: real)
    requires x < y && b > 0.0
    ensures x * b < y * b
  {
  }

  /** The spend per day so far: the spend over the day of the month, 0 for a negative day. */
  function DailyAverage(currentSpent: real, currentDay: int): (r: real)
    requires currentDay != 0
    ensures currentDay > 0 ==> r * currentDay as real == currentSpent
    ensures currentDay < 0 ==> r == 0.0
  {
    if currentDay > 0 then
      DivideThenMultiply(currentSpent, currentDay as real);
      currentSpent / currentDay as real
    else 0.0
  }

  /**
   * The whole days the remaining budget lasts at the daily average: `Math.floor(remaining / rate)`
   * when both are positive, 0 otherwise.
   */
  function DaysUntilDepletion(remaining: real, rate: real): (n: int)
    ensures n >= 0
    ensures n > 0 ==> remaining > 0.0 && rate > 0.0
    ensures remaining > 0.0 && rate > 0.0 ==>
              n as real * rate <= remaining < (n + 1) as real * rate
  {
    if remaining > 0.0 && rate > 0.0 then
      FloorDivBounds(remaining, rate);
      assert remaining / rate > 0.0;
      (remaining / rate).Floor
    else 0
  }

  /** What is left spread over the rest of the month (at least one day), clamped at 0. */
  function SafeSpendingRate(remaining: real, daysRemaining: int): (r: real)
    ensures r >= 0.0
    ensures remaining <= 0.0 ==> r == 0.0
    ensures remaining > 0.0 ==> r * (if daysRemaining > 1 then daysRemaining else 1) as real == remaining
  {
    var spread := if daysRemaining > 1 then daysRemaining else 1;
    DivideThenMultiply(remaining, spread as real);
    if remaining <= 0.0 then
      assert remaining / spread as real <= 0.0;
      Max0(remaining / spread as real)
    else
      assert remaining / spread as real > 0.0;
      Max0(remaining / spread as real)
  }

  /** On track when the daily average does not exceed an even spread of a positive budget. */
  function OnTrack(dailyAverage: real, budget: real, daysInMonth: int): (b: bool)
    requires daysInMonth >= 1
    ensures budget <= 0.0 ==> b
    ensures budget > 0.0 ==> (b <==> dailyAverage * daysInMonth as real <= budget)
  {
    if budget > 0.0 then
      DivideOrder(dailyAverage, budget, daysInMonth as real);
      dailyAverage <= budget / daysInMonth as real
    else true
  }

  /** The share of a positive budget already spent, in percent; 0 otherwise. */
  function PercentUsed(currentSpent: real, budget: real): (r: real)
    ensures budget <= 0.0 ==> r == 0.0
    ensures budget > 0.0 ==> r * budget == currentSpent * 100.0
  {
    if budget > 0.0 then
      DivideThenMultiply(currentSpent, budget);
      (currentSpent / budget) * 100.0
    else 0.0
  }

  /**
   * `calculateBudgetDepletion(currentSpent, budget, currentDay, daysInMonth)` at the moment `now`.
   * Day 0 gives the fresh-month record. Otherwise the days until depletion are the whole days the
   * remaining budget lasts at the daily average, the depletion date lies that many days after `now`,
   * and the safe rate spreads what is left over the rest of the month.
   */
  function CalculateBudgetDepletion(currentSpent: real, budget: real, currentDay: int, daysInMonth: int, now: Now): (d: Depletion)
    requires daysInMonth >= 1
    ensures currentDay == 0 ==>
              d == Depletion(daysInMonth, None, budget / daysInMonth as real, 0.0, true, 0.0)
    ensures currentDay != 0 ==>
              d.daysLeft == DaysUntilDepletion(budget - currentSpent, d.currentSpendingRate)
              && d.depletionDate == Some(now.Instant() + d.daysLeft * MsPerDay)
              && d.currentSpendingRate == DailyAverage(currentSpent, currentDay)
              && d.safeSpendingRate == SafeSpendingRate(budget - currentSpent, daysInMonth - currentDay)
              && d.isOnTrack == OnTrack(d.currentSpendingRate, budget, daysInMonth)
              && d.percentUsed == PercentUsed(currentSpent, budget)
  {
    if currentDay == 0 then
      Depletion(daysInMonth, None, budget / daysInMonth as real, 0.0, true, 0.0)
    else
      var remaining := budget - currentSpent;
      var dailyAverage := DailyAverage(currentSpent, currentDay);
      var daysLeft := DaysUntilDepletion(remaining, dailyAverage);
      var date := if daysLeft > 0 then AddDays(now, daysLeft) else now.Instant();
      Depletion(
        daysLeft,
        Some(date),
        SafeSpendingRate(remaining, daysInMonth - currentDay),
        dailyAverage,
        OnTrack(dailyAverage, budget, daysInMonth),
        PercentUsed(currentSpent, budget))
  }

  /** `x <= y / b` exactly when `x * b <= y`, for a positive `b`. */
  lemma DivideOrder(x: real, y: real, b: real)
    requires b > 0.0
    ensures x <= y / b <==> x * b <= y
  {
    DivideThenMultiply(y, b);
    if x <= y / b {
      MultiplyKeepsOrder(x, y / b, b);
    }
    if x * b <= y {
      MultiplyKeepsOrder(x * b, y, 1.0 / b);
      assert x * b * (1.0 / b) == x;
      assert y * (1.0 / b) == y / b;
    }
  }

  // ---------------------------------------------------------------------------------------------
  // predictGoalCompletion

  /** The prediction for a goal; `monthsRemaining` is `None` for `Infinity` and `isCompleted` is
    * `None` where the record has no such field. */
  datatype GoalForecast = GoalForecast(
    completionDate: Option<int>,
    monthsRemaining: Option<int>,
    requiredMonthlySaving: real,
    isPossible: bool,
    isCompleted: Option<bool>)

  /** `Math.ceil(x)`. */
  function Ceil(x: real): int {
    -((-x).Floor)
  }

  /** `Math.ceil(a / b)` is the least whole number of `b`s that reaches `a`. */
  lemma CeilDivBracket(a: real, b: real)
    requires b > 0.0
    ensures Ceil(a / b) as real * b >= a > (Ceil(a / b) - 1) as real * b
  {
    var f := ((-a) / b).Floor;
    FloorDivBounds(-a, b);
    assert (-a) / b == -(a / b);
    assert Ceil(a / b) == -f;
    assert (-f) as real * b == -(f as real * b);
    assert (-f - 1) as real * b == -((f + 1) as real * b);
  }

  /** An even share `r / m` of what is left is at most a saving `s` that covers it in `m` months. */
  lemma ShareWithinSaving(remaining: real, s: real, m: real)
    requires m > 0.0 && m * s >= remaining
    ensures remaining / m * m == remaining
    ensures remaining / m <= s
  {
    DivideThenMultiply(remaining, m);
    if remaining / m > s {
      MultiplyKeepsStrictOrder(s, remaining / m, m);
    }
  }

  /**
   * `predictGoalCompletion(goal, monthlySavings)` at the moment `now`: without a goal or a positive
   * saving the goal is impossible; a goal already reached completes now; otherwise the months needed
   * are the least whole number whose savings reach what is left, the goal completes that many
   * months after `now`, and the required saving spreads what is left evenly over them.
   */
  function PredictGoalCompletion(goal: Option<Goal>, monthlySavings: real, now: Now): (g: GoalForecast)
    ensures goal.None? || monthlySavings <= 0.0 ==> g == GoalForecast(None, None, 0.0, false, None)
    ensures goal.Some? && monthlySavings > 0.0 && goal.value.target - goal.value.current <= 0.0 ==>
              g == GoalForecast(Some(now.Instant()), Some(0), 0.0, true, Some(true))
    ensures goal.Some? && monthlySavings > 0.0 && goal.value.target - goal.value.current > 0.0 ==>
              var remaining := goal.value.target - goal.value.current;
              && g.isPossible && g.isCompleted == Some(false) && g.monthsRemaining.Some?
              && g.monthsRemaining.value >= 1
              && g.monthsRemaining.value as real * monthlySavings >= remaining
              && (g.monthsRemaining.value - 1) as real * monthlySavings < remaining
              && g.requiredMonthlySaving * g.monthsRemaining.value as real == remaining
              && 0.0 < g.requiredMonthlySaving <= monthlySavings
              && g.completionDate == Some(AddMonths(now, g.monthsRemaining.value))
  {
    if goal.None? || monthlySavings <= 0.0 then GoalForecast(None, None, 0.0, false, None)
    else
      var remaining := goal.value.target - goal.value.current;
      if remaining <= 0.0 then GoalForecast(Some(now.Instant()), Some(0), 0.0, true, Some(true))
      else
        var monthsNeeded := Ceil(remaining / monthlySavings);
        CeilDivBracket(remaining, monthlySavings);
        assert monthsNeeded >= 1 by {
          if monthsNeeded <= 0 {
            MultiplyKeepsOrder(monthsNeeded as real, 0.0, monthlySavings);
          }
        }
        ShareWithinSaving(remaining, monthlySavings, monthsNeeded as real);
        GoalForecast(
          Some(AddMonths(now, monthsNeeded)),
          Some(monthsNeeded),
          remaining / monthsNeeded as real,
          true,
          Some(false))
  }

  // ---------------------------------------------------------------------------------------------
  // projectNetIncome

  /** One month of history: `{ income, expense }`. */
  datatype MonthFlow = MonthFlow(income: real, expense: real)

  /** One projected month: `{ month, income, expense, net }`, `month` an instant. */
  datatype Projection = Projection(month: int, income: real, expense: real, net: real)

  function Incomes(history: seq<MonthFlow>): (r: seq<real>)
    ensures |r| == |history| && forall i :: 0 <= i < |history| ==> r[i] == history[i].income
  {
    seq(|history|, i requires 0 <= i < |history| => history[i].income)
  }

  function Expenses(history: seq<MonthFlow>): (r: seq<real>)
    ensures |r| == |history| && forall i :: 0 <= i < |history| ==> r[i] == history[i].expense
  {
    seq(|history|, i requires 0 <= i < |history| => history[i].expense)
  }

  /**
   * The `i`-th projected month (0-based) of a history of at least two months: income and expense
   * are their regressions continued `i` steps past the history, each clamped at 0, and the net is
   * their difference.
   */
  function ProjectionAt(history: seq<MonthFlow>, now: Now, i: nat): (p: Projection)
    requires |history| >= 2
    ensures p.month == AddMonths(now, i + 1)
    ensures p.income >= 0.0 && p.expense >= 0.0 && p.net == p.income - p.expense
  {
    var x := (|history| + i) as real;
    var income := Max0(LinearRegression(Incomes(history)).Predict(x));
    var expense := Max0(LinearRegression(Expenses(history)).Predict(x));
    Projection(AddMonths(now, i + 1), income, expense, income - expense)
  }

  /** A history whose incomes lie on `a + b·k` and expenses on `c + e·k` projects both lines forward. */
  lemma ProjectionFollowsLines(history: seq<MonthFlow>, now: Now, i: nat, a: real, b: real, c: real, e: real)
    requires |history| >= 2 && OnLine(Incomes(history), a, b) && OnLine(Expenses(history), c, e)
    ensures ProjectionAt(history, now, i).income == Max0(a + b * (|history| + i) as real)
    ensures ProjectionAt(history, now, i).expense == Max0(c + e * (|history| + i) as real)
  {
    PointOfLine(Incomes(history), (|history| + i) as real, a, b);
    PointOfLine(Expenses(history), (|history| + i) as real, c, e);
  }

  /** The regression of values on a line `a + b·k` predicts the line at any `x`. */
  lemma PointOfLine(values: seq<real>, x: real, a: real, b: real)
    requires |values| >= 2 && OnLine(values, a, b)
    ensures LinearRegression(values).Predict(x) == a + b * x
  {
    LineRecovered(values, a, b);
  }

  /**
   * `projectNetIncome(historicalData, months)` at the moment `now`: `months` entries, one per month
   * after `now`; a history shorter than two months projects zeros, a longer one projects its
   * regressions.
   */
  method ProjectNetIncome(history: seq<MonthFlow>, months: nat, now: Now) returns (projections: seq<Projection>)
    ensures |projections| == months
    ensures |history| < 2 ==>
              forall i :: 0 <= i < months ==> projections[i] == Projection(AddMonths(now, i + 1), 0.0, 0.0, 0.0)
    ensures |history| >= 2 ==>
              forall i :: 0 <= i < months ==> projections[i] == ProjectionAt(history, now, i)
  {
    if |history| < 2 {
      return seq(months, i => Projection(AddMonths(now, i + 1), 0.0, 0.0, 0.0));
    }
    var incomeRegression := LinearRegression(Incomes(history));
    var expenseRegression := LinearRegression(Expenses(history));
    var baseIndex := |history|;
    projections := [];
    for i := 0 to months
      invariant |projections| == i
      invariant forall k :: 0 <= k < i ==> projections[k] == ProjectionAt(history, now, k)
    {
      var futureIndex := (baseIndex + i) as real;
      var projectedIncome := Max0(incomeRegression.Predict(futureIndex));
      var projectedExpense := Max0(expenseRegression.Predict(futureIndex));
      projections := projections + [Projection(AddMonths(now, i + 1), projectedIncome, projectedExpense,
                                               projectedIncome - projectedExpense)];
    }
  }

  // ---------------------------------------------------------------------------------------------
  // calculateDailyHeatmap

  /** `{ x, y, d }`: the ISO date, its weekday (0 = Sunday) and the amount spent that day. */
  datatype HeatPoint = HeatPoint(x: string, y: int, d: real)

  /** The year as `toISOString` writes it: four digits, or a sign and six digits outside 0..9999. */
  function IsoYear(y: int): (s: string)
    ensures 0 <= y <= 9999 ==> |s| == 4
  {
    if 0 <= y <= 9999 then Pad(y, 4)
    else if y < 0 then "-" + Pad(-y, 6)
    else "+" + Pad(y, 6)
  }

  /** The date part of `toISOString()` at midnight of a valid day. */
  function IsoDate(y: int, m: int, d: int): (s: string)
    requires ValidDate(y, m, d)
    ensures 0 <= y <= 9999 ==> |s| == 10 && s[4] == '-' && s[7] == '-'
  {
    IsoYear(y) + "-" + Pad(m + 1, 2) + "-" + Pad(d, 2)
  }

  /** The day of month an expense's date decodes to (0 for an invalid date). */
  function DayOf(date: string, now: Now): int {
    match ParseDate(date, now)
    case Some(mo) => mo.day
    case None => 0
  }

  function DayPairs(xs: seq<Transaction>, now: Now): (pairs: seq<(int, real)>)
    ensures |pairs| == |xs|
    ensures forall i :: 0 <= i < |xs| ==> pairs[i] == (DayOf(xs[i].date, now), xs[i].amount)
  {
    if |xs| == 0 then [] else DayPairs(xs[..|xs| - 1], now) + [(DayOf(xs[|xs| - 1].date, now), xs[|xs| - 1].amount)]
  }

  /** Pairing expenses with their days keeps their total. */
  lemma {:induction false} DayPairsTotal(xs: seq<Transaction>, now: Now)
    ensures Total(DayPairs(xs, now)) == Sum(xs)
  {
    if |xs| > 0 {
      DayPairsTotal(xs[..|xs| - 1], now);
      assert DayPairs(xs, now)[..|xs| - 1] == DayPairs(xs[..|xs| - 1], now);
    }
  }

  /** A date of the selected month decodes to a real day of it (given a valid clock). */
  lemma InMonthDay(date: string, sel: MonthRef, now: Now)
    requires now.Valid() && InMonth(date, sel, now)
    ensures ValidDate(sel.year, sel.month, DayOf(date, now))
  {
  }

  /** Every expense of the selected month falls on a real day of that month (given a valid clock). */
  lemma DaysOfMonth(xs: seq<Transaction>, sel: MonthRef, now: Now)
    requires now.Valid()
    ensures forall k :: k in KeysOf(DayPairs(OfMonth(xs, sel, now), now)) ==> ValidDate(sel.year, sel.month, k)
  {
    var f := OfMonth(xs, sel, now);
    var ks := KeysOf(DayPairs(f, now));
    forall k | k in ks
      ensures ValidDate(sel.year, sel.month, k)
    {
      var i :| 0 <= i < |ks| && ks[i] == k;
      assert f[i] in f;
      InMonthDay(f[i].date, sel, now);
    }
  }

  /** The point of one day: its ISO date, its weekday and its total (`value` of the entry). */
  function HeatPointOf(day: int, totals: map<int, real>, month: int, year: int): HeatPoint
    requires ValidDate(year, month, day)
  {
    HeatPoint(IsoDate(year, month, day), Weekday(MakeDay(year, month, day)), if day in totals then totals[day] else 0.0)
  }

  /** `Object.entries(dailyTotals).map(...)`: one point per day, in the order the days first appear. */
  function HeatPoints(days: seq<int>, totals: map<int, real>, month: int, year: int): (r: seq<HeatPoint>)
    requires forall k :: k in days ==> ValidDate(year, month, k)
    ensures |r| == |days|
    ensures forall i :: 0 <= i < |days| ==> r[i] == HeatPointOf(days[i], totals, month, year)
  {
    if |days| == 0 then []
    else HeatPoints(days[..|days| - 1], totals, month, year) + [HeatPointOf(days[|days| - 1], totals, month, year)]
  }

  /** The amounts of the points together. */
  function HeatTotal(points: seq<HeatPoint>): real {
    if |points| == 0 then 0.0 else HeatTotal(points[..|points| - 1]) + points[|points| - 1].d
  }

  /** The points carry exactly the totals listed under their days. */
  lemma {:induction false} HeatPointsTotal(days: seq<int>, totals: map<int, real>, month: int, year: int)
    requires forall k :: k in days ==> ValidDate(year, month, k)
    ensures HeatTotal(HeatPoints(days, totals, month, year)) == SumOver(days, totals)
  {
    if |days| > 0 {
      HeatPointsTotal(days[..|days| - 1], totals, month, year);
      assert HeatPoints(days, totals, month, year)[..|days| - 1] == HeatPoints(days[..|days| - 1], totals, month, year);
    }
  }

  /** The heat map of the selected month, as a value: the points of its per-day tally. */
  function Heatmap(expenses: seq<Transaction>, month: int, year: int, now: Now): seq<HeatPoint>
    requires now.Valid()
  {
    var days := TallyOf(DayPairs(OfMonth(expenses, MonthRef(month, year), now), now));
    HeatmapDays(expenses, month, year, now);
    HeatPoints(days.keys, days.totals, month, year)
  }

  /** The tally's days are the distinct days of the month's expenses, each a real day of it. */
  lemma HeatmapDays(expenses: seq<Transaction>, month: int, year: int, now: Now)
    requires now.Valid()
    ensures var pairs := DayPairs(OfMonth(expenses, MonthRef(month, year), now), now);
            && TallyOf(pairs).keys == Distinct(KeysOf(pairs))
            && forall k :: k in TallyOf(pairs).keys ==> ValidDate(year, month, k)
  {
    var pairs := DayPairs(OfMonth(expenses, MonthRef(month, year), now), now);
    DaysOfMonth(expenses, MonthRef(month, year), now);
    TallyKeys(pairs);
  }

  /**
   * What the heat map holds: one point per distinct day of the selected month's expenses, in the
   * order the days first appear; each point has that day's ISO date, its weekday and the sum of
   * that day's amounts; and the points together hold the month's whole spend.
   */
  lemma HeatmapMeaning(expenses: seq<Transaction>, month: int, year: int, now: Now)
    requires now.Valid()
    ensures var inMonth := OfMonth(expenses, MonthRef(month, year), now);
            var days := Distinct(KeysOf(DayPairs(inMonth, now)));
            var points := Heatmap(expenses, month, year, now);
            && (forall k :: k in days ==> ValidDate(year, month, k))
            && |points| == |days|
            && (forall i :: 0 <= i < |points| ==>
                  points[i].x == IsoDate(year, month, days[i])
                  && points[i].y == Weekday(MakeDay(year, month, days[i]))
                  && points[i].d == AmountFor(DayPairs(inMonth, now), days[i]))
            && HeatTotal(points) == Sum(inMonth)
  {
    var inMonth := OfMonth(expenses, MonthRef(month, year), now);
    var pairs := DayPairs(inMonth, now);
    HeatmapDays(expenses, month, year, now);
    PointsOfTally(pairs, month, year);
    DayPairsTotal(inMonth, now);
  }

  /** The points of a tally of (day, amount) pairs whose days are real days of the month. */
  lemma PointsOfTally(pairs: seq<(int, real)>, month: int, year: int)
    requires forall k :: k in TallyOf(pairs).keys ==> ValidDate(year, month, k)
    ensures var tally := TallyOf(pairs);
            var points := HeatPoints(tally.keys, tally.totals, month, year);
            && (forall i :: 0 <= i < |points| ==> points[i].d == AmountFor(pairs, tally.keys[i]))
            && HeatTotal(points) == Total(pairs)
  {
    var tally := TallyOf(pairs);
    var points := HeatPoints(tally.keys, tally.totals, month, year);
    forall i | 0 <= i < |points|
      ensures points[i].d == AmountFor(pairs, tally.keys[i])
    {
      TallyValue(pairs, tally.keys[i]);
    }
    assert HeatTotal(points) == SumOver(tally.keys, tally.totals) by {
      HeatPointsTotal(tally.keys, tally.totals, month, year);
    }
    assert SumOver(tally.keys, tally.totals) == Total(pairs) by {
      TallyTotal(pairs);
    }
  }

  /** `calculateDailyHeatmap(expenses, month, year, parseDate)` with the clock at `now`. */
  method CalculateDailyHeatmap(expenses: seq<Transaction>, month: int, year: int, now: Now) returns (points: seq<HeatPoint>)
    requires now.Valid()
    ensures points == Heatmap(expenses, month, year, now)
  {
    var inMonth := FilterMonth(expenses, MonthRef(month, year), now);
    var dailyTotals := DailyTotals(DayPairs(inMonth, now));
    HeatmapDays(expenses, month, year, now);
    points := HeatPoints(dailyTotals.keys, dailyTotals.totals, month, year);
  }

  /** The `forEach` of `calculateDailyHeatmap` over each expense's (day, amount):
    * `dailyTotals[day] = (dailyTotals[day] || 0) + amount`. */
  method DailyTotals(pairs: seq<(int, real)>) returns (dailyTotals: Tally<int>)
    ensures dailyTotals == TallyOf(pairs)
  {
    dailyTotals := Tally([], map[]);
    for i := 0 to |pairs|
      invariant dailyTotals == TallyOf(pairs[..i])
    {
      var (day, amount) := pairs[i];
      if day in dailyTotals.totals {
        dailyTotals := Tally(dailyTotals.keys, dailyTotals.totals[day := dailyTotals.totals[day] + amount]);
      } else {
        dailyTotals := Tally(dailyTotals.keys + [day], dailyTotals.totals[day := amount]);
      }
      assert pairs[..i + 1][..i] == pairs[..i];
    }
    assert pairs[..|pairs|] == pairs;
  }

  /** The `filter` of `calculateDailyHeatmap`: the expenses whose date falls in the selected month. */
  method FilterMonth(expenses: seq<Transaction>, sel: MonthRef, now: Now) returns (inMonth: seq<Transaction>)
    ensures inMonth == OfMonth(expenses, sel, now)
  {
    inMonth := [];
    for i := 0 to |expenses|
      invariant inMonth == OfMonth(expenses[..i], sel, now)
    {
      assert expenses[..i + 1][..i] == expenses[..i];
      if InMonth(expenses[i].date, sel, now) {
        inMonth := inMonth + [expenses[i]];
      }
    }
    assert expenses[..|expenses|] == expenses;
  }
}

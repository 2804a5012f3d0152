/**
 * What every view derives from a list of transactions: amount sums, the `DD.MM.YYYY` date
 * decoder (`parseDate`), month filters, per-key tallies (the `obj[key] += amount` maps), grouping
 * by date string, and the newest-first order of date keys.
 */
module Ledger {
  import opened Wrappers
  import opened Calendar
  import opened Text
  import opened Domain
  import Sorting

  // ---------------------------------------------------------------------------------------------
  // Sums

  /** `xs.reduce((acc, t) => acc + t.amount, 0)`. */
  function Sum(xs: seq<Transaction>): real {
    if |xs| == 0 then 0.0 else Sum(xs[..|xs| - 1]) + xs[|xs| - 1].amount
  }

  lemma {:induction false} SumAppend(a: seq<Transaction>, b: seq<Transaction>)
    ensures Sum(a + b) == Sum(a) + Sum(b)
    decreases |b|
  {
    if |b| == 0 {
      assert a + b == a;
    } else {
      assert (a + b)[..|a + b| - 1] == a + b[..|b| - 1];
      SumAppend(a, b[..|b| - 1]);
    }
  }

  // ---------------------------------------------------------------------------------------------
  // Dates

  /** A decoded date: its calendar fields and its instant in milliseconds. */
  datatype Moment = Moment(year: int, month: int, day: int, instant: int)

  /** A date field: one to `width` decimal digits. */
  predicate DigitField(p: string, width: nat) {
    1 <= |p| <= width && forall k :: 0 <= k < |p| ==> IsDigit(p[k])
  }

  /**
   * `parseDate(text)`: the empty text is the current moment; otherwise the text must be
   * `dd.MM.yyyy` (one or two digits of day, one or two of month, one to four of year) naming a
   * real calendar day, which decodes to that day's midnight. Anything else is an invalid date
   * (`None`), which no month, week or day bucket contains.
   */
  function ParseDate(s: string, now: Now): (r: Option<Moment>)
    ensures s == "" ==> r == Some(Moment(now.year, now.month, now.day, now.Instant()))
    ensures s != "" && r.Some? ==>
      ValidDate(r.value.year, r.value.month, r.value.day) && r.value.instant == MakeDate(r.value.year, r.value.month, r.value.day)
  {
    if s == "" then Some(Moment(now.year, now.month, now.day, now.Instant()))
    else
      var f := Split(s, '.');
      if |f| != 3 || !DigitField(f[0], 2) || !DigitField(f[1], 2) || !DigitField(f[2], 4) then None
      else
        var d := RunValue(f[0], false);
        var m := RunValue(f[1], false) - 1;
        var y := RunValue(f[2], false);
        if ValidDate(y, m, d) then Some(Moment(y, m, d, MakeDate(y, m, d))) else None
  }

  /** The `DD.MM.YYYY` text of a day, month and year, as the views write and compare it
    * (`toLocaleDateString('tr-TR')` with two-digit day and month). The fields need not name a real
    * day: 31.02.2024 is text an import or a typed entry can hold. */
  function FormatDate(y: nat, m: int, d: int): (s: string)
    requires 0 <= m < 12 && 1 <= d <= 31 && y <= 9999
    ensures |s| == 10
  {
    Pad(d, 2) + "." + Pad(m + 1, 2) + "." + Pad(y, 4)
  }

  lemma FormattedFields(y: nat, m: int, d: int)
    requires 0 <= m < 12 && 1 <= d <= 31 && y <= 9999
    ensures Split(FormatDate(y, m, d), '.') == [Pad(d, 2), Pad(m + 1, 2), Pad(y, 4)]
    ensures RunValue(Pad(d, 2), false) == d && RunValue(Pad(m + 1, 2), false) == m + 1
    ensures RunValue(Pad(y, 4), false) == y
  {
    var parts := [Pad(d, 2), Pad(m + 1, 2), Pad(y, 4)];
    forall k | 0 <= k < 3 ensures '.' !in parts[k] {
      DigitsExclude(parts[k], '.');
    }
    assert Join(parts, '.') == FormatDate(y, m, d) by {
      assert Join(parts[2..], '.') == Pad(y, 4);
      assert Join(parts[1..], '.') == Pad(m + 1, 2) + "." + Pad(y, 4);
    }
    JoinSplit(parts, '.');
    assert Pow10(2) == 100 && Pow10(4) == 10000;
    PadValue(d, 2);
    PadValue(m + 1, 2);
    PadValue(y, 4);
  }

  /** Writing a date and decoding it gives the same day back. */
  lemma ParseFormatted(y: nat, m: int, d: int, now: Now)
    requires ValidDate(y, m, d) && y <= 9999
    ensures ParseDate(FormatDate(y, m, d), now) == Some(Moment(y, m, d, MakeDate(y, m, d)))
  {
    FormattedFields(y, m, d);
    assert FormatDate(y, m, d) != "";
  }

  /** A formatted day past the month's end is not a date to `parseDate`. */
  lemma ParseRejectsOverflowDay(y: nat, m: int, d: int, now: Now)
    requires 0 <= m < 12 && DaysInMonth(y, m) < d <= 31 && y <= 9999
    ensures ParseDate(FormatDate(y, m, d), now) == None
  {
    FormattedFields(y, m, d);
    assert FormatDate(y, m, d) != "";
  }

  /**
   * The sort key of `groupExpensesByDate`: the date's fields reversed into `YYYY-MM-DD` and read
   * as an ISO date. This model reads only the padded form (exactly four, two and two digits) that
   * the ISO reader accepts: the month must be 1..12 and the day 1..31, and a day past the month's
   * end rolls into the next month. Unpadded fields (`5.3.2024` becomes `2024-3-5`) are left to the
   * engine's non-standard fallback parser, which this model does not describe; here that text and
   * any other is not a date (`None`).
   */
  function IsoDateInstant(s: string): (r: Option<int>)
    ensures r.Some? ==> exists y, m, d :: 0 <= m < 12 && 1 <= d <= 31 && r.value == MakeDate(y, m, d)
  {
    var f := Split(s, '.');
    if |f| != 3 || |f[0]| != 2 || |f[1]| != 2 || |f[2]| != 4 then None
    else if !DigitField(f[0], 2) || !DigitField(f[1], 2) || !DigitField(f[2], 4) then None
    else
      var d := RunValue(f[0], false);
      var m := RunValue(f[1], false) - 1;
      var y := RunValue(f[2], false);
      if 0 <= m < 12 && 1 <= d <= 31 then Some(MakeDate(y, m, d)) else None
  }

  /** On the text the views write, the ISO reading and `parseDate` agree. */
  lemma IsoAgreesOnFormatted(y: nat, m: int, d: int, now: Now)
    requires ValidDate(y, m, d) && y <= 9999
    ensures IsoDateInstant(FormatDate(y, m, d)) == Some(MakeDate(y, m, d))
    ensures ParseDate(FormatDate(y, m, d), now).Some?
    ensures ParseDate(FormatDate(y, m, d), now).value.instant == IsoDateInstant(FormatDate(y, m, d)).value
  {
    FormattedFields(y, m, d);
    ParseFormatted(y, m, d, now);
  }

  // ---------------------------------------------------------------------------------------------
  // Month filters

  /** `d = parseDate(date); d.getMonth() === sel.month && d.getFullYear() === sel.year`. */
  predicate InMonth(date: string, sel: MonthRef, now: Now) {
    match ParseDate(date, now)
    case None => false
    case Some(mo) => mo.month == sel.month && mo.year == sel.year
  }

  /** The transactions of the selected month, in input order. */
  function OfMonth(xs: seq<Transaction>, sel: MonthRef, now: Now): (r: seq<Transaction>)
    ensures |r| <= |xs|
    ensures forall t :: t in r <==> t in xs && InMonth(t.date, sel, now)
  {
    if |xs| == 0 then []
    else
      var init := xs[..|xs| - 1];
      var last := xs[|xs| - 1];
      assert xs == init + [last];
      OfMonth(init, sel, now) + (if InMonth(last.date, sel, now) then [last] else [])
  }

  /** The sum of the amounts of the selected month (`filter(...).reduce((sum, t) => sum + t.amount, 0)`). */
  function MonthSum(xs: seq<Transaction>, sel: MonthRef, now: Now): real {
    Sum(OfMonth(xs, sel, now))
  }

  /**
   * The trend series' test: `parseInt(date.split('.')[1]) - 1 === m && parseInt(date.split('.')[2]) === y`.
   * A missing field reads as `NaN`, which matches nothing.
   */
  predicate InSplitMonth(date: string, sel: MonthRef) {
    var f := Split(date, '.');
    |f| >= 3 && ParseInt(f[1]) == Some(sel.month + 1) && ParseInt(f[2]) == Some(sel.year)
  }

  function OfSplitMonth(xs: seq<Transaction>, sel: MonthRef): (r: seq<Transaction>)
    ensures |r| <= |xs|
    ensures forall t :: t in r <==> t in xs && InSplitMonth(t.date, sel)
  {
    if |xs| == 0 then []
    else
      var init := xs[..|xs| - 1];
      var last := xs[|xs| - 1];
      assert xs == init + [last];
      OfSplitMonth(init, sel) + (if InSplitMonth(last.date, sel) then [last] else [])
  }

  /** On well-formed dates, the field-splitting test and the `parseDate` test pick the same month. */
  lemma SplitMonthAgrees(y: nat, m: int, d: int, sel: MonthRef, now: Now)
    requires ValidDate(y, m, d) && y <= 9999
    ensures InSplitMonth(FormatDate(y, m, d), sel) <==> InMonth(FormatDate(y, m, d), sel, now)
  {
    var s := FormatDate(y, m, d);
    SplitFieldsOfFormatted(y, m, d, sel);
    assert InMonth(s, sel, now) <==> m == sel.month && y == sel.year by {
      ParseFormatted(y, m, d, now);
    }
  }

  /** The fields of a formatted date name its month and year. */
  lemma SplitFieldsOfFormatted(y: nat, m: int, d: int, sel: MonthRef)
    requires 0 <= m < 12 && 1 <= d <= 31 && y <= 9999
    ensures InSplitMonth(FormatDate(y, m, d), sel) <==> m == sel.month && y == sel.year
  {
    var f := Split(FormatDate(y, m, d), '.');
    assert |f| == 3 && ParseInt(f[1]) == Some(m + 1) && ParseInt(f[2]) == Some(y as int) by {
      FormattedFields(y, m, d);
      ParseIntOfDigits(Pad(m + 1, 2));
      ParseIntOfDigits(Pad(y, 4));
    }
    SplitMonthFields(FormatDate(y, m, d), sel, m + 1, y);
  }

  /** A date whose second and third fields read `a` and `b` is in the month `a - 1` of year `b`. */
  lemma SplitMonthFields(date: string, sel: MonthRef, a: int, b: int)
    requires |Split(date, '.')| >= 3
    requires ParseInt(Split(date, '.')[1]) == Some(a) && ParseInt(Split(date, '.')[2]) == Some(b)
    ensures InSplitMonth(date, sel) <==> a == sel.month + 1 && b == sel.year
  {
  }

  /** They differ on a day past the month's end (31.02.2024, say): the trend series count it in
    * the month its fields name, while `parseDate` rejects it. */
  lemma SplitMonthAcceptsOverflowDay(y: nat, m: int, d: int, now: Now)
    requires 0 <= m < 12 && DaysInMonth(y, m) < d <= 31 && y <= 9999
    ensures InSplitMonth(FormatDate(y, m, d), MonthRef(m, y))
    ensures ParseDate(FormatDate(y, m, d), now) == None
  {
    SplitFieldsOfFormatted(y, m, d, MonthRef(m, y));
    ParseRejectsOverflowDay(y, m, d, now);
  }

  // ---------------------------------------------------------------------------------------------
  // Distinct keys in first-occurrence order

  /** The distinct elements of `ks`, each at its first occurrence (`Object.keys` of a map filled
    * in that order, or `Array.from(new Set(ks))`). */
  function Distinct<K(==, !new)>(ks: seq<K>): (r: seq<K>)
    ensures forall i, j :: 0 <= i < j < |r| ==> r[i] != r[j]
    ensures forall k :: k in r <==> k in ks
  {
    if |ks| == 0 then []
    else
      var init := ks[..|ks| - 1];
      assert ks == init + [ks[|ks| - 1]];
      var d := Distinct(init);
      if ks[|ks| - 1] in d then d else d + [ks[|ks| - 1]]
  }

  // ---------------------------------------------------------------------------------------------
  // Tallies: `acc[key] = (acc[key] || 0) + amount` over a list

  /** A JavaScript object used as a map from keys to running totals: its keys in insertion order
    * and the total under each. */
  datatype Tally<K> = Tally(keys: seq<K>, totals: map<K, real>)

  /** The total under `k`; an absent key reads as 0 (`acc[k] || 0`). */
  function Get<K>(t: Tally<K>, k: K): real {
    if k in t.totals then t.totals[k] else 0.0
  }

  /** Adding an amount under a key: a new key is appended to the key order. */
  function Add<K>(t: Tally<K>, k: K, v: real): Tally<K> {
    if k in t.totals then Tally(t.keys, t.totals[k := t.totals[k] + v])
    else Tally(t.keys + [k], t.totals[k := v])
  }

  function KeysOf<K>(pairs: seq<(K, real)>): (ks: seq<K>)
    ensures |ks| == |pairs| && forall i :: 0 <= i < |pairs| ==> ks[i] == pairs[i].0
  {
    if |pairs| == 0 then [] else KeysOf(pairs[..|pairs| - 1]) + [pairs[|pairs| - 1].0]
  }

  /** The tally of a list of (key, amount) pairs, added left to right. */
  function TallyOf<K(==)>(pairs: seq<(K, real)>): Tally<K> {
    if |pairs| == 0 then Tally([], map[])
    else Add(TallyOf(pairs[..|pairs| - 1]), pairs[|pairs| - 1].0, pairs[|pairs| - 1].1)
  }

  /** A tally's keys are the distinct keys of its pairs, in first-seen order, each holding a total. */
  lemma {:induction false} TallyKeys<K(!new)>(pairs: seq<(K, real)>)
    ensures TallyOf(pairs).keys == Distinct(KeysOf(pairs))
    ensures KeyedOnce(TallyOf(pairs))
    ensures forall k :: k in TallyOf(pairs).totals <==> k in TallyOf(pairs).keys
  {
    if |pairs| > 0 {
      var p := pairs[|pairs| - 1];
      TallyKeys(pairs[..|pairs| - 1]);
      assert KeysOf(pairs) == KeysOf(pairs[..|pairs| - 1]) + [p.0];
    }
  }

  /** The sum of the amounts paired with `k`. */
  function AmountFor<K(==)>(pairs: seq<(K, real)>, k: K): real {
    if |pairs| == 0 then 0.0
    else AmountFor(pairs[..|pairs| - 1], k) + (if pairs[|pairs| - 1].0 == k then pairs[|pairs| - 1].1 else 0.0)
  }

  /** The sum of all amounts. */
  function Total<K>(pairs: seq<(K, real)>): real {
    if |pairs| == 0 then 0.0 else Total(pairs[..|pairs| - 1]) + pairs[|pairs| - 1].1
  }

  /** The sum of the totals listed under `ks` (`Object.values(m)` summed when `ks` are its keys). */
  function SumOver<K>(ks: seq<K>, m: map<K, real>): real {
    if |ks| == 0 then 0.0
    else SumOver(ks[..|ks| - 1], m) + (if ks[|ks| - 1] in m then m[ks[|ks| - 1]] else 0.0)
  }

  /** Each key's total is the sum of the amounts paired with it. */
  lemma {:induction false} TallyValue<K(!new)>(pairs: seq<(K, real)>, k: K)
    ensures Get(TallyOf(pairs), k) == AmountFor(pairs, k)
  {
    if |pairs| > 0 {
      TallyValue(pairs[..|pairs| - 1], k);
    }
  }

  /** The totals together add up to the sum of all amounts: a tally loses and duplicates nothing. */
  lemma {:induction false} TallyTotal<K(!new)>(pairs: seq<(K, real)>)
    ensures SumOver(TallyOf(pairs).keys, TallyOf(pairs).totals) == Total(pairs)
  {
    if |pairs| > 0 {
      var init := pairs[..|pairs| - 1];
      var p := pairs[|pairs| - 1];
      TallyTotal(init);
      TallyKeys(init);
      AddTotal(TallyOf(init), p.0, p.1);
    }
  }

  /** The keys of a tally are distinct and are exactly the keys holding a total. */
  predicate KeyedOnce<K>(t: Tally<K>) {
    (forall k :: k in t.keys ==> k in t.totals)
    && (forall i, j :: 0 <= i < j < |t.keys| ==> t.keys[i] != t.keys[j])
  }

  lemma AddTotal<K>(t: Tally<K>, k: K, v: real)
    requires KeyedOnce(t) && forall x :: x in t.totals ==> x in t.keys
    ensures KeyedOnce(Add(t, k, v))
    ensures SumOver(Add(t, k, v).keys, Add(t, k, v).totals) == SumOver(t.keys, t.totals) + v
  {
    AddKeyedOnce(t, k, v);
    AddSum(t, k, v);
  }

  lemma AddSum<K>(t: Tally<K>, k: K, v: real)
    requires KeyedOnce(t) && forall x :: x in t.totals ==> x in t.keys
    ensures SumOver(Add(t, k, v).keys, Add(t, k, v).totals) == SumOver(t.keys, t.totals) + v
  {
    if k in t.totals {
      assert k in t.keys;
      SumOverBump(t.keys, t.totals, k, v);
    } else {
      AddNewKeyTotal(t, k, v);
    }
  }

  lemma AddKeyedOnce<K>(t: Tally<K>, k: K, v: real)
    requires KeyedOnce(t) && forall x :: x in t.totals ==> x in t.keys
    ensures KeyedOnce(Add(t, k, v))
  {
  }

  /** A new key's total is listed last and adds to the sum. */
  lemma AddNewKeyTotal<K>(t: Tally<K>, k: K, v: real)
    requires forall x :: x in t.keys ==> x in t.totals
    requires k !in t.totals
    ensures SumOver(t.keys + [k], t.totals[k := v]) == SumOver(t.keys, t.totals) + v
  {
    var m := t.totals[k := v];
    assert SumOver(t.keys, m) == SumOver(t.keys, t.totals) by {
      SumOverFrame(t.keys, t.totals, m);
    }
    assert (t.keys + [k])[..|t.keys|] == t.keys;
  }

  /** Raising one listed key's total raises the sum by the same amount. */
  lemma {:induction false} SumOverBump<K>(ks: seq<K>, m: map<K, real>, k: K, v: real)
    requires forall x :: x in ks ==> x in m
    requires forall i, j :: 0 <= i < j < |ks| ==> ks[i] != ks[j]
    requires k in ks
    ensures SumOver(ks, m[k := m[k] + v]) == SumOver(ks, m) + v
  {
    var init := ks[..|ks| - 1];
    var last := ks[|ks| - 1];
    assert ks == init + [last];
    if last == k {
      assert k !in init;
      SumOverFrame(init, m, m[k := m[k] + v]);
    } else {
      SumOverBump(init, m, k, v);
    }
  }

  /** The sum reads only the listed keys. */
  lemma {:induction false} SumOverFrame<K>(ks: seq<K>, m: map<K, real>, m': map<K, real>)
    requires forall x :: x in ks ==> x in m && x in m' && m[x] == m'[x]
    ensures SumOver(ks, m) == SumOver(ks, m')
  {
    if |ks| > 0 {
      SumOverFrame(ks[..|ks| - 1], m, m');
    }
  }

  /** (category, amount) for each transaction. */
  function ByCategory(xs: seq<Transaction>): (pairs: seq<(string, real)>)
    ensures |pairs| == |xs|
    ensures forall i :: 0 <= i < |xs| ==> pairs[i] == (xs[i].category, xs[i].amount)
  {
    if |xs| == 0 then [] else ByCategory(xs[..|xs| - 1]) + [(xs[|xs| - 1].category, xs[|xs| - 1].amount)]
  }

  /** (date text, amount) for each transaction. */
  function ByDate(xs: seq<Transaction>): (pairs: seq<(string, real)>)
    ensures |pairs| == |xs|
    ensures forall i :: 0 <= i < |xs| ==> pairs[i] == (xs[i].date, xs[i].amount)
  {
    if |xs| == 0 then [] else ByDate(xs[..|xs| - 1]) + [(xs[|xs| - 1].date, xs[|xs| - 1].amount)]
  }

  /** Any pairing of transactions with keys carries the same total amount as the transactions. */
  lemma {:induction false} PairsTotal(xs: seq<Transaction>, pairs: seq<(string, real)>)
    requires |pairs| == |xs| && forall i :: 0 <= i < |xs| ==> pairs[i].1 == xs[i].amount
    ensures Total(pairs) == Sum(xs)
  {
    if |xs| > 0 {
      PairsTotal(xs[..|xs| - 1], pairs[..|pairs| - 1]);
    }
  }

  function OfCategory(xs: seq<Transaction>, c: string): (r: seq<Transaction>)
    ensures forall t :: t in r <==> t in xs && t.category == c
  {
    if |xs| == 0 then []
    else
      var init := xs[..|xs| - 1];
      var last := xs[|xs| - 1];
      assert xs == init + [last];
      OfCategory(init, c) + (if last.category == c then [last] else [])
  }

  /** A category's tally is the sum of that category's transactions. */
  lemma {:induction false} CategoryAmount(xs: seq<Transaction>, c: string)
    ensures AmountFor(ByCategory(xs), c) == Sum(OfCategory(xs, c))
  {
    if |xs| > 0 {
      var init := xs[..|xs| - 1];
      var last := xs[|xs| - 1];
      CategoryAmount(init, c);
      var pairs := ByCategory(xs);
      assert pairs == ByCategory(init) + [(last.category, last.amount)];
      assert pairs[..|pairs| - 1] == ByCategory(init);
      assert AmountFor(pairs, c) == AmountFor(ByCategory(init), c) + (if last.category == c then last.amount else 0.0);
      assert OfCategory(xs, c) == OfCategory(init, c) + (if last.category == c then [last] else []);
      SumAppend(OfCategory(init, c), if last.category == c then [last] else []);
    }
  }

  /** The category sums of `xs` added up over the categories `cs`. */
  function CategorySums(xs: seq<Transaction>, cs: seq<string>): real {
    if |cs| == 0 then 0.0 else CategorySums(xs, cs[..|cs| - 1]) + Sum(OfCategory(xs, cs[|cs| - 1]))
  }

  /** One more transaction adds its amount to its own category's sum only. */
  lemma CategoryStep(xs: seq<Transaction>, t: Transaction, c: string)
    ensures Sum(OfCategory(xs + [t], c)) == Sum(OfCategory(xs, c)) + (if t.category == c then t.amount else 0.0)
  {
    assert (xs + [t])[..|xs|] == xs;
    assert OfCategory(xs + [t], c) == OfCategory(xs, c) + (if t.category == c then [t] else []);
    SumAppend(OfCategory(xs, c), if t.category == c then [t] else []);
  }

  lemma {:induction false} CategorySumsStep(xs: seq<Transaction>, t: Transaction, cs: seq<string>)
    requires forall i, j :: 0 <= i < j < |cs| ==> cs[i] != cs[j]
    ensures CategorySums(xs + [t], cs) == CategorySums(xs, cs) + (if t.category in cs then t.amount else 0.0)
    decreases |cs|
  {
    if |cs| > 0 {
      var init, c := cs[..|cs| - 1], cs[|cs| - 1];
      assert CategorySums(xs + [t], init) == CategorySums(xs, init) + (if t.category in init then t.amount else 0.0) by {
        CategorySumsStep(xs, t, init);
      }
      CategoryStep(xs, t, c);
      assert c !in init;
    }
  }

  lemma {:induction false} CategorySumsOfNothing(cs: seq<string>)
    ensures CategorySums([], cs) == 0.0
    decreases |cs|
  {
    if |cs| > 0 {
      CategorySumsOfNothing(cs[..|cs| - 1]);
    }
  }

  /** Splitting a list by category loses nothing: over distinct categories that cover every
    * transaction, the category sums add up to the whole sum. */
  lemma {:induction false} CategorySumsCover(xs: seq<Transaction>, cs: seq<string>)
    requires forall i, j :: 0 <= i < j < |cs| ==> cs[i] != cs[j]
    requires forall i :: 0 <= i < |xs| ==> xs[i].category in cs
    ensures CategorySums(xs, cs) == Sum(xs)
    decreases |xs|
  {
    if |xs| == 0 {
      CategorySumsOfNothing(cs);
    } else {
      var init, last := xs[..|xs| - 1], xs[|xs| - 1];
      assert CategorySums(init, cs) == Sum(init) by {
        CategorySumsCover(init, cs);
      }
      assert last.category in cs;
      assert xs == init + [last];
      CategorySumsStep(init, last, cs);
    }
  }

  // ---------------------------------------------------------------------------------------------
  // Grouping by date text

  /** `groups[date]` lists, in input order, the transactions carrying that date text; `keys` are the
    * group keys in insertion order. */
  datatype Grouping = Grouping(keys: seq<string>, groups: map<string, seq<Transaction>>)

  function Dates(xs: seq<Transaction>): (ds: seq<string>)
    ensures |ds| == |xs| && forall i :: 0 <= i < |xs| ==> ds[i] == xs[i].date
  {
    if |xs| == 0 then [] else Dates(xs[..|xs| - 1]) + [xs[|xs| - 1].date]
  }

  function Categories(xs: seq<Transaction>): (cs: seq<string>)
    ensures |cs| == |xs| && forall i :: 0 <= i < |xs| ==> cs[i] == xs[i].category
  {
    if |xs| == 0 then [] else Categories(xs[..|xs| - 1]) + [xs[|xs| - 1].category]
  }

  function OnDate(xs: seq<Transaction>, date: string): (r: seq<Transaction>)
    ensures forall t :: t in r <==> t in xs && t.date == date
  {
    if |xs| == 0 then []
    else
      var init := xs[..|xs| - 1];
      var last := xs[|xs| - 1];
      assert xs == init + [last];
      OnDate(init, date) + (if last.date == date then [last] else [])
  }

  /** One transaction pushed onto the group of its date. */
  function Push(g: Grouping, t: Transaction): Grouping {
    if t.date in g.groups then Grouping(g.keys, g.groups[t.date := g.groups[t.date] + [t]])
    else Grouping(g.keys + [t.date], g.groups[t.date := [t]])
  }

  /** `xs.reduce((acc, t) => { (acc[t.date] ||= []).push(t); return acc }, {})`. */
  function GroupByDate(xs: seq<Transaction>): Grouping {
    if |xs| == 0 then Grouping([], map[]) else Push(GroupByDate(xs[..|xs| - 1]), xs[|xs| - 1])
  }

  /** Grouping is a partition: the keys are the distinct dates in first-seen order, and each group
    * holds exactly the transactions of its date, in input order. */
  lemma {:induction false} GroupByDatePartitions(xs: seq<Transaction>)
    ensures GroupByDate(xs).keys == Distinct(Dates(xs))
    ensures forall d :: d in GroupByDate(xs).groups <==> d in GroupByDate(xs).keys
    ensures forall d :: d in GroupByDate(xs).groups ==> GroupByDate(xs).groups[d] == OnDate(xs, d)
  {
    GroupKeys(xs);
    GroupsOnDate(xs);
  }

  lemma {:induction false} GroupKeys(xs: seq<Transaction>)
    ensures GroupByDate(xs).keys == Distinct(Dates(xs))
    ensures forall d :: d in GroupByDate(xs).groups <==> d in GroupByDate(xs).keys
  {
    if |xs| > 0 {
      var init := xs[..|xs| - 1];
      GroupKeys(init);
      assert Dates(xs) == Dates(init) + [xs[|xs| - 1].date];
    }
  }

  lemma {:induction false} GroupsOnDate(xs: seq<Transaction>)
    ensures forall d :: d in GroupByDate(xs).groups ==> GroupByDate(xs).groups[d] == OnDate(xs, d)
  {
    if |xs| > 0 {
      var init, last := xs[..|xs| - 1], xs[|xs| - 1];
      GroupsOnDate(init);
      GroupKeys(init);
      var g := GroupByDate(init);
      forall d | d in GroupByDate(xs).groups
        ensures GroupByDate(xs).groups[d] == OnDate(xs, d)
      {
        assert OnDate(xs, d) == OnDate(init, d) + (if last.date == d then [last] else []);
        if d !in g.groups {
          EmptyOnDate(init, d);
        }
      }
    }
  }

  lemma {:induction false} EmptyOnDate(xs: seq<Transaction>, d: string)
    requires d !in Dates(xs)
    ensures OnDate(xs, d) == []
  {
    if |xs| > 0 {
      assert Dates(xs) == Dates(xs[..|xs| - 1]) + [xs[|xs| - 1].date];
      EmptyOnDate(xs[..|xs| - 1], d);
    }
  }

  // ---------------------------------------------------------------------------------------------
  // Newest-first order of date keys

  /** Below every instant a parsed date can have: where keys that do not parse are ranked. In the
    * source such a key makes the comparator return `NaN`, which leaves its place to the engine;
    * the model fixes this one. */
  const Unparsed: real := -1.0e30

  function RankOf(r: Option<int>): real {
    match r
    case Some(i) => i as real
    case None => Unparsed
  }

  /** `keys.sort((a, b) => parseDate(b) - parseDate(a))`: a rearrangement of the keys, newest
    * first (stable among equal instants). */
  function NewestFirst(keys: seq<string>, now: Now): (r: seq<string>)
    ensures multiset(r) == multiset(keys)
    ensures forall i, j :: 0 <= i < j < |r| ==> DateRank(r[i], now) >= DateRank(r[j], now)
  {
    var key := k => DateRank(k, now);
    Sorting.SortBy(keys, key, true)
  }

  function DateRank(s: string, now: Now): real {
    RankOf(match ParseDate(s, now) case Some(mo) => Some(mo.instant) case None => None)
  }

  /** Sorting a group's distinct keys lists each date exactly once. */
  lemma NewestFirstDistinct(keys: seq<string>, now: Now)
    requires forall i, j :: 0 <= i < j < |keys| ==> keys[i] != keys[j]
    ensures forall i, j :: 0 <= i < j < |NewestFirst(keys, now)| ==> NewestFirst(keys, now)[i] != NewestFirst(keys, now)[j]
    ensures forall k :: k in NewestFirst(keys, now) <==> k in keys
  {
    Sorting.PermutationKeepsDistinct(keys, NewestFirst(keys, now));
  }
}

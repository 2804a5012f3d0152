/**
 * The application shell: the colour arithmetic of the custom theme, and the top-level data state
 * (expenses, incomes, accounts, cash and the profile) with the backup import that merges into it or
 * replaces it, the id back-filling done when the stored lists are loaded, and the full reset.
 */
module App {
  import opened Wrappers
  import opened Text
  import opened Domain

  // ---------------------------------------------------------------------------------------------
  // Colours

  datatype Rgb = Rgb(r: int, g: int, b: int) {
    predicate InRange() {
      0 <= r < 256 && 0 <= g < 256 && 0 <= b < 256
    }
  }

  /** The text after one optional leading `#`. */
  function StripHash(hex: string): (body: string)
    ensures |hex| > 0 && hex[0] == '#' ==> hex == "#" + body
    ensures !(|hex| > 0 && hex[0] == '#') ==> body == hex
  {
    if |hex| > 0 && hex[0] == '#' then hex[1..] else hex
  }

  /** What `/^#?([a-f\d]{2})([a-f\d]{2})([a-f\d]{2})$/i` accepts: six hex digits of either case,
    * after an optional `#`. */
  predicate IsColorText(hex: string) {
    var body := StripHash(hex);
    |body| == 6 && forall k :: 0 <= k < 6 ==> IsHexDigit(body[k])
  }

  /** The value of the two hex digits at `i`. */
  function ByteAt(s: string, i: nat): (v: int)
    requires i + 1 < |s| && IsHexDigit(s[i]) && IsHexDigit(s[i + 1])
    ensures 0 <= v < 256
  {
    HexValue(s[i]) * 16 + HexValue(s[i + 1])
  }

  /** `hexToRgb(hex)`: the three channels of a colour text, or `None` (`null`) for anything else. */
  function HexToRgb(hex: string): (c: Option<Rgb>)
    ensures c.Some? <==> IsColorText(hex)
    ensures c.Some? ==> c.value.InRange()
    ensures c.Some? ==> var body := StripHash(hex);
                        c.value == Rgb(ByteAt(body, 0), ByteAt(body, 2), ByteAt(body, 4))
  {
    var body := StripHash(hex);
    if IsColorText(hex) then Some(Rgb(ByteAt(body, 0), ByteAt(body, 2), ByteAt(body, 4))) else None
  }

  /** A lower-case hex digit (`toString(16)`). */
  function HexChar(d: nat): (c: char)
    requires d < 16
    ensures IsHexDigit(c) && HexValue(c) == d
  {
    if d < 10 then DigitChar(d) else ('a' as int + d - 10) as char
  }

  /** `('0' + v.toString(16)).substr(-2)` for `0 <= v < 256`: exactly two hex digits. */
  function HexByte(v: int): (s: string)
    requires 0 <= v < 256
    ensures |s| == 2 && IsHexDigit(s[0]) && IsHexDigit(s[1]) && ByteAt(s, 0) == v
  {
    [HexChar(v / 16), HexChar(v % 16)]
  }

  /** The `#rrggbb` text of a colour. */
  function RgbText(c: Rgb): (s: string)
    requires c.InRange()
    ensures |s| == 7 && s[0] == '#'
  {
    "#" + HexByte(c.r) + HexByte(c.g) + HexByte(c.b)
  }

  /** Reading back the text of a colour gives the colour. */
  lemma ColorRoundTrip(c: Rgb)
    requires c.InRange()
    ensures HexToRgb(RgbText(c)) == Some(c)
  {
    var s := RgbText(c);
    var body := StripHash(s);
    assert body == HexByte(c.r) + HexByte(c.g) + HexByte(c.b);
    assert body[0..2] == HexByte(c.r) && body[2..4] == HexByte(c.g) && body[4..6] == HexByte(c.b);
    assert IsColorText(s);
  }

  /** The characters `.` does not match. */
  predicate IsLineTerminator(c: char) {
    c == '\n' || c == '\r' || c == '\U{2028}' || c == '\U{2029}'
  }

  /** `parseInt(s, 16)`: leading white space, an optional sign, an optional `0x`, then the longest
    * run of hex digits; `None` for `NaN`. */
  function ParseHex(s: string): Option<int> {
    if |s| > 0 && IsJsSpace(s[0]) then ParseHex(s[1..])
    else
      var u := if |s| > 0 && (s[0] == '-' || s[0] == '+') then s[1..] else s;
      var v := if |u| >= 2 && u[0] == '0' && (u[1] == 'x' || u[1] == 'X') then u[2..] else u;
      match ParseRun(v, true)
      case None => None
      case Some(n) => Some(if |s| > 0 && s[0] == '-' then -n else n)
  }

  /** Two hex digits read as their byte. */
  lemma ParseHexPair(s: string)
    requires |s| == 2 && IsHexDigit(s[0]) && IsHexDigit(s[1])
    ensures ParseHex(s) == Some(ByteAt(s, 0))
  {
    assert !IsJsSpace(s[0]);
    assert s[0] != '-' && s[0] != '+' && s[1] != 'x' && s[1] != 'X';
    DigitRunAll(s, true);
    assert ParseRun(s, true) == Some(RunValue(s[..2], true));
    assert s[..2] == s && s[..2][..1] == [s[0]] && [s[0]][..0] == [];
    assert RunValue([s[0]], true) == HexValue(s[0]);
    assert RunValue(s, true) == HexValue(s[0]) * 16 + HexValue(s[1]);
  }

  /** `Math.min(255, Math.max(0, v))`. */
  function Clamp(v: int): (r: int)
    ensures 0 <= r < 256
    ensures 0 <= v < 256 ==> r == v
  {
    if v > 255 then 255 else if v < 0 then 0 else v
  }

  /** One replaced pair of `adjustColor`: the channel shifted by `amount` and clamped, as two hex
    * digits; a pair that is no number gives `"aN"`, the last two characters of `'0' + NaN`. */
  function AdjustPair(parsed: Option<int>, amount: int): (s: string)
    ensures |s| == 2
  {
    match parsed
    case None => "aN"
    case Some(v) => HexByte(Clamp(v + amount))
  }

  /** `body.replace(/../g, …)` from index `i` on: every two characters, scanning from the left,
    * replaced by their adjusted channel; a character next to a line terminator, and a final odd one,
    * stay as they are. */
  function AdjustFrom(body: string, i: nat, amount: int): string
    requires i <= |body|
    decreases |body| - i
  {
    if i + 2 <= |body| && !IsLineTerminator(body[i]) && !IsLineTerminator(body[i + 1]) then
      AdjustPair(ParseHex(body[i..i + 2]), amount) + AdjustFrom(body, i + 2, amount)
    else if i < |body| then [body[i]] + AdjustFrom(body, i + 1, amount)
    else ""
  }

  /** `adjustColor(color, amount)`. */
  function AdjustColor(color: string, amount: int): (s: string)
    ensures |s| > 0 && s[0] == '#'
  {
    "#" + AdjustFrom(StripHash(color), 0, amount)
  }

  function Shifted(c: Rgb, amount: int): (d: Rgb)
    ensures d.InRange()
  {
    Rgb(Clamp(c.r + amount), Clamp(c.g + amount), Clamp(c.b + amount))
  }

  /** A pair of hex digits at `i` is replaced by its adjusted byte. */
  lemma AdjustHexPair(body: string, i: nat, amount: int)
    requires i + 2 <= |body| && IsHexDigit(body[i]) && IsHexDigit(body[i + 1])
    ensures AdjustFrom(body, i, amount) == HexByte(Clamp(ByteAt(body, i) + amount)) + AdjustFrom(body, i + 2, amount)
  {
    var p := body[i..i + 2];
    assert !IsLineTerminator(body[i]) && !IsLineTerminator(body[i + 1]);
    assert p[0] == body[i] && p[1] == body[i + 1];
    ParseHexPair(p);
  }

  /** Adjusting a colour writes the shifted and clamped channels as `#rrggbb` in lower case. */
  lemma AdjustedText(color: string, amount: int)
    requires IsColorText(color)
    ensures AdjustColor(color, amount) == RgbText(Shifted(HexToRgb(color).value, amount))
  {
    var c := HexToRgb(color).value;
    var body := StripHash(color);
    AdjustThreePairs(body, amount);
    var d := Shifted(c, amount);
    assert d == Rgb(Clamp(ByteAt(body, 0) + amount), Clamp(ByteAt(body, 2) + amount), Clamp(ByteAt(body, 4) + amount));
    RgbTextParts(d);
  }

  lemma RgbTextParts(d: Rgb)
    requires d.InRange()
    ensures RgbText(d) == "#" + (HexByte(d.r) + HexByte(d.g) + HexByte(d.b))
  {
  }

  /** Adjusting a colour is a colour text again, whose channels are the old ones shifted by the
    * amount and clamped to 0..255. */
  lemma AdjustShiftsChannels(color: string, amount: int)
    requires IsColorText(color)
    ensures HexToRgb(AdjustColor(color, amount)) == Some(Shifted(HexToRgb(color).value, amount))
  {
    AdjustedText(color, amount);
    ColorRoundTrip(Shifted(HexToRgb(color).value, amount));
  }

  /** Two pairs of hex digits at `i` become their two adjusted bytes. */
  lemma AdjustTwoPairs(body: string, i: nat, amount: int)
    requires i + 4 <= |body| && IsHexDigit(body[i]) && IsHexDigit(body[i + 1])
    requires IsHexDigit(body[i + 2]) && IsHexDigit(body[i + 3])
    ensures AdjustFrom(body, i, amount) == HexByte(Clamp(ByteAt(body, i) + amount)) + HexByte(Clamp(ByteAt(body, i + 2) + amount))
                                           + AdjustFrom(body, i + 4, amount)
  {
    AdjustHexPair(body, i + 2, amount);
    AdjustHexPair(body, i, amount);
  }

  /** The three pairs of six hex digits become their three adjusted bytes. */
  lemma AdjustThreePairs(body: string, amount: int)
    requires |body| == 6 && forall k :: 0 <= k < 6 ==> IsHexDigit(body[k])
    ensures AdjustFrom(body, 0, amount) == HexByte(Clamp(ByteAt(body, 0) + amount))
                                           + HexByte(Clamp(ByteAt(body, 2) + amount))
                                           + HexByte(Clamp(ByteAt(body, 4) + amount))
  {
    AdjustLastPair(body, amount);
    AdjustTwoPairs(body, 0, amount);
  }

  /** The last pair of six hex digits becomes its adjusted byte, and nothing follows it. */
  lemma AdjustLastPair(body: string, amount: int)
    requires |body| == 6 && IsHexDigit(body[4]) && IsHexDigit(body[5])
    ensures AdjustFrom(body, 4, amount) == HexByte(Clamp(ByteAt(body, 4) + amount))
  {
    AdjustHexPair(body, 4, amount);
    assert AdjustFrom(body, 6, amount) == [];
  }

  const Black: string := "#000000"
  const White: string := "#ffffff"

  /** The YIQ brightness test: `(299 r + 587 g + 114 b) / 1000 >= 128`. */
  predicate IsLight(c: Rgb) {
    (299 * c.r + 587 * c.g + 114 * c.b) as real / 1000.0 >= 128.0
  }

  /** `getContrastColor(hex)`: black text on a light colour, white text on a dark one and on
    * anything that is not a colour. */
  function ContrastColor(hex: string): (s: string)
    ensures s == Black <==> HexToRgb(hex).Some? && 299 * HexToRgb(hex).value.r + 587 * HexToRgb(hex).value.g + 114 * HexToRgb(hex).value.b >= 128000
    ensures s == White <==> !(s == Black)
  {
    match HexToRgb(hex)
    case None => White
    case Some(c) => if IsLight(c) then Black else White
  }

  /** Pure white takes black text and pure black white text; lightening any colour all the way takes
    * black text. */
  lemma ContrastExtremes(color: string)
    requires IsColorText(color)
    ensures ContrastColor(White) == Black && ContrastColor(Black) == White
    ensures ContrastColor(AdjustColor(color, 255)) == Black
  {
    assert IsColorText(White) && IsColorText(Black);
    assert StripHash(White) == "ffffff" && StripHash(Black) == "000000";
    AdjustShiftsChannels(color, 255);
  }

  // ---------------------------------------------------------------------------------------------
  // Ids

  /** Fresh ids from `generateId()`, one per position of a list of `n` items; none is empty. */
  predicate FreshIds(ids: seq<string>, n: nat) {
    |ids| >= n && forall k :: 0 <= k < |ids| ==> ids[k] != ""
  }

  /** `xs.map(e => e.id ? e : { ...e, id: generateId() })`: every record without an id is given the
    * fresh id of its position; records with an id and all other fields are untouched. */
  function WithIds(xs: seq<Transaction>, ids: seq<string>): (r: seq<Transaction>)
    requires FreshIds(ids, |xs|)
    ensures |r| == |xs|
    ensures forall i :: 0 <= i < |xs| ==> r[i].id != "" && r[i].(id := xs[i].id) == xs[i]
    ensures forall i :: 0 <= i < |xs| && xs[i].id != "" ==> r[i] == xs[i]
  {
    seq(|xs|, i requires 0 <= i < |xs| => if xs[i].id != "" then xs[i] else xs[i].(id := ids[i]))
  }

  /** Back-filling is done once: a list whose records all have ids is left alone. */
  lemma WithIdsIdempotent(xs: seq<Transaction>, ids: seq<string>, again: seq<string>)
    requires FreshIds(ids, |xs|) && FreshIds(again, |xs|)
    ensures WithIds(WithIds(xs, ids), again) == WithIds(xs, ids)
  {
  }

  // ---------------------------------------------------------------------------------------------
  // Merging transactions

  /** The duplicate key `${date}-${amount}-${desc}`; a missing description reads `undefined`. */
  datatype DedupKey = DedupKey(date: string, amount: real, desc: string)

  function KeyOf(t: Transaction): DedupKey {
    DedupKey(t.date, t.amount, t.desc.GetOr("undefined"))
  }

  function IdSet(xs: seq<Transaction>): set<string> {
    set t | t in xs :: t.id
  }

  function KeySet(xs: seq<Transaction>): set<DedupKey> {
    set t | t in xs :: KeyOf(t)
  }

  /** Whether an incoming record is new to `prev`: neither its id nor its key is already there. */
  predicate IsNew(prev: seq<Transaction>, t: Transaction) {
    t.id !in IdSet(prev) && KeyOf(t) !in KeySet(prev)
  }

  /** `uniqueNew`: the incoming records that are new to `prev`, in their order; duplicates among the
    * incoming records themselves all stay. */
  function UniqueNew(prev: seq<Transaction>, incoming: seq<Transaction>): (r: seq<Transaction>)
    ensures forall t :: multiset(r)[t] == if IsNew(prev, t) then multiset(incoming)[t] else 0
    ensures forall t :: t in r <==> t in incoming && IsNew(prev, t)
  {
    if |incoming| == 0 then []
    else
      var init, last := incoming[..|incoming| - 1], incoming[|incoming| - 1];
      assert incoming == init + [last];
      UniqueNew(prev, init) + if IsNew(prev, last) then [last] else []
  }

  /** The merged list: `[...prev, ...uniqueNew]`. */
  function Merged(prev: seq<Transaction>, incoming: seq<Transaction>): (r: seq<Transaction>)
    ensures |r| >= |prev| && r[..|prev|] == prev
    ensures forall t :: t in r <==> t in prev || (t in incoming && IsNew(prev, t))
  {
    prev + UniqueNew(prev, incoming)
  }

  /** Importing the same backup twice in merge mode adds nothing the second time. */
  lemma MergeIdempotent(prev: seq<Transaction>, incoming: seq<Transaction>)
    ensures Merged(Merged(prev, incoming), incoming) == Merged(prev, incoming)
  {
    var m := Merged(prev, incoming);
    forall t | t in incoming
      ensures !IsNew(m, t)
    {
      if IsNew(prev, t) {
        assert t in m;
        assert t.id in IdSet(m);
      } else if t.id in IdSet(prev) {
        var u :| u in prev && u.id == t.id;
        assert u in m;
      } else {
        var u :| u in prev && KeyOf(u) == KeyOf(t);
        assert u in m;
      }
    }
    var extra := UniqueNew(m, incoming);
    assert extra == [];
    assert m + extra == m;
  }

  // ---------------------------------------------------------------------------------------------
  // Upserting accounts

  /** Accounts are matched by bank and type. */
  function AccountKey(a: Account): (string, string) {
    (a.bank, a.kind)
  }

  function AccountKeys(accts: seq<Account>): set<(string, string)> {
    set a | a in accts :: AccountKey(a)
  }

  predicate UniqueKeys(accts: seq<Account>) {
    forall i, j :: 0 <= i < j < |accts| ==> AccountKey(accts[i]) != AccountKey(accts[j])
  }

  /** `updated.findIndex(a => a.bank === newAcc.bank && a.type === newAcc.type)`. */
  function FindAccount(accts: seq<Account>, key: (string, string)): (r: Option<nat>)
    ensures r.Some? ==> r.value < |accts| && AccountKey(accts[r.value]) == key
                        && forall j :: 0 <= j < r.value ==> AccountKey(accts[j]) != key
    ensures r.None? <==> key !in AccountKeys(accts)
  {
    if |accts| == 0 then None
    else if AccountKey(accts[0]) == key then Some(0)
    else
      match FindAccount(accts[1..], key)
      case None =>
        assert accts == [accts[0]] + accts[1..];
        None
      case Some(i) =>
        assert accts[1..][i] == accts[i + 1];
        Some(i + 1)
  }

  /** One account of an import: it takes the place of the first account with its bank and type, or
    * is appended. */
  function Upsert(accts: seq<Account>, a: Account): seq<Account> {
    match FindAccount(accts, AccountKey(a))
    case Some(idx) => accts[idx := a]
    case None => accts + [a]
  }

  /** After one upsert each old slot keeps its key and either its account or the new one, the new
    * account is there, and the list grows only for a new key. */
  lemma UpsertSlots(accts: seq<Account>, a: Account)
    ensures var r := Upsert(accts, a);
            && a in r
            && |r| == (if AccountKey(a) in AccountKeys(accts) then |accts| else |accts| + 1)
            && (forall i :: 0 <= i < |accts| ==> AccountKey(r[i]) == AccountKey(accts[i]) && (r[i] == accts[i] || r[i] == a))
            && (forall i :: |accts| <= i < |r| ==> r[i] == a)
  {
    match FindAccount(accts, AccountKey(a))
    case Some(idx) =>
      assert Upsert(accts, a)[idx] == a;
    case None =>
      assert Upsert(accts, a)[|accts|] == a;
  }

  /** After one upsert the keys are the old ones plus the new account's own, and a list with one
    * account per key keeps that property. */
  lemma UpsertKeys(accts: seq<Account>, a: Account)
    ensures AccountKeys(Upsert(accts, a)) == AccountKeys(accts) + {AccountKey(a)}
    ensures UniqueKeys(accts) ==> UniqueKeys(Upsert(accts, a))
  {
    var r := Upsert(accts, a);
    UpsertSlots(accts, a);
    match FindAccount(accts, AccountKey(a))
    case Some(idx) =>
      assert AccountKeys(r) == AccountKeys(accts) by {
        forall k | k in AccountKeys(accts) ensures k in AccountKeys(r) {
          var x :| x in accts && AccountKey(x) == k;
          var j :| 0 <= j < |accts| && accts[j] == x;
          assert AccountKey(r[j]) == k;
        }
      }
    case None =>
      assert AccountKeys(r) == AccountKeys(accts) + {AccountKey(a)} by {
        assert forall x :: x in r <==> x in accts || x == a;
      }
      assert UniqueKeys(accts) ==> UniqueKeys(r) by {
        forall i | 0 <= i < |accts| ensures AccountKey(accts[i]) in AccountKeys(accts) {
          assert accts[i] in accts;
        }
      }
  }

  /** Every account of an import, in order (`newData.accounts.forEach`). Each old slot keeps its key,
    * the keys are the old ones plus the imported ones, and no key comes to be held twice. */
  function UpsertAll(prev: seq<Account>, incoming: seq<Account>): (r: seq<Account>)
    ensures AccountKeys(r) == AccountKeys(prev) + AccountKeys(incoming)
    ensures |r| >= |prev|
    ensures forall i :: 0 <= i < |prev| ==> AccountKey(r[i]) == AccountKey(prev[i]) && (r[i] == prev[i] || r[i] in incoming)
    ensures forall i :: |prev| <= i < |r| ==> r[i] in incoming
    ensures UniqueKeys(prev) ==> UniqueKeys(r)
  {
    if |incoming| == 0 then prev
    else
      var init, last := incoming[..|incoming| - 1], incoming[|incoming| - 1];
      assert incoming == init + [last];
      var before := UpsertAll(prev, init);
      var r := Upsert(before, last);
      UpsertKeysCarry(prev, before, init, last, incoming);
      UpsertSlotsCarry(prev, before, init, last, incoming);
      r
  }

  /** One more upsert adds the imported account's key and keeps the keys unique. */
  lemma UpsertKeysCarry(prev: seq<Account>, before: seq<Account>, init: seq<Account>, last: Account, incoming: seq<Account>)
    requires incoming == init + [last]
    requires AccountKeys(before) == AccountKeys(prev) + AccountKeys(init)
    requires UniqueKeys(prev) ==> UniqueKeys(before)
    ensures AccountKeys(Upsert(before, last)) == AccountKeys(prev) + AccountKeys(incoming)
    ensures UniqueKeys(prev) ==> UniqueKeys(Upsert(before, last))
  {
    assert AccountKeys(incoming) == AccountKeys(init) + {AccountKey(last)};
    UpsertKeys(before, last);
  }

  /** One more upsert keeps every old slot's key and brings in only imported accounts. */
  lemma UpsertSlotsCarry(prev: seq<Account>, before: seq<Account>, init: seq<Account>, last: Account, incoming: seq<Account>)
    requires incoming == init + [last]
    requires |before| >= |prev|
    requires forall i :: 0 <= i < |prev| ==> AccountKey(before[i]) == AccountKey(prev[i]) && (before[i] == prev[i] || before[i] in init)
    requires forall i :: |prev| <= i < |before| ==> before[i] in init
    ensures var r := Upsert(before, last);
            && |r| >= |prev|
            && (forall i :: 0 <= i < |prev| ==> AccountKey(r[i]) == AccountKey(prev[i]) && (r[i] == prev[i] || r[i] in incoming))
            && (forall i :: |prev| <= i < |r| ==> r[i] in incoming)
  {
    UpsertSlots(before, last);
    assert forall x :: x in init ==> x in incoming;
  }

  lemma UpsertAllStep(prev: seq<Account>, incoming: seq<Account>, k: nat)
    requires k < |incoming|
    ensures UpsertAll(prev, incoming[..k + 1]) == Upsert(UpsertAll(prev, incoming[..k]), incoming[k])
  {
    assert incoming[..k + 1][..k] == incoming[..k];
  }

  /** The `forEach` of the account merge over a copy of the previous accounts. */
  method UpsertAccounts(prev: seq<Account>, incoming: seq<Account>) returns (updated: seq<Account>)
    ensures updated == UpsertAll(prev, incoming)
  {
    updated := prev;
    for k := 0 to |incoming|
      invariant updated == UpsertAll(prev, incoming[..k])
    {
      UpsertAllStep(prev, incoming, k);
      var newAcc := incoming[k];
      match FindAccount(updated, AccountKey(newAcc))
      case Some(idx) =>
        updated := updated[idx := newAcc];
      case None =>
        updated := updated + [newAcc];
    }
    assert incoming[..|incoming|] == incoming;
  }

  // ---------------------------------------------------------------------------------------------
  // The application's data

  /** A stored snapshot or an imported backup; every part may be missing. */
  datatype Backup = Backup(
    expenses: Option<seq<Transaction>>,
    incomes: Option<seq<Transaction>>,
    accounts: Option<seq<Account>>,
    cash: Option<real>,
    userProfile: Option<Profile>)

  /** The bundled sample data used when nothing is stored. */
  datatype SampleData = SampleData(expenses: seq<Transaction>, incomes: seq<Transaction>, accounts: seq<Account>, cash: real)

  /** `storedData && (storedData.expenses?.length > 0 || storedData.incomes?.length > 0)`. */
  predicate HasStoredData(stored: Option<Backup>) {
    stored.Some? && (|stored.value.expenses.GetOr([])| > 0 || |stored.value.incomes.GetOr([])| > 0)
  }

  /** A part of the stored snapshot, or `fallback` when there is no snapshot or no such part. */
  function StoredOr<T>(stored: Option<Backup>, part: Backup -> Option<T>, fallback: T): T {
    if stored.Some? then part(stored.value).GetOr(fallback) else fallback
  }

  const Overview: string := "overview"

  class AppState {
    var isFirstVisit: bool
    var currentView: string
    var expenses: seq<Transaction>
    var incomes: seq<Transaction>
    var accounts: seq<Account>
    var cash: real
    var userProfile: Profile

    /**
     * The state at start-up: each list from the stored snapshot, else from the sample data, with
     * ids back-filled; the stored profile or the default one; the welcome screen unless some
     * expense or income is stored.
     */
    constructor(stored: Option<Backup>, sample: SampleData, freshExpenseIds: seq<string>, freshIncomeIds: seq<string>)
      requires FreshIds(freshExpenseIds, |StoredOr(stored, (b: Backup) => b.expenses, sample.expenses)|)
      requires FreshIds(freshIncomeIds, |StoredOr(stored, (b: Backup) => b.incomes, sample.incomes)|)
      ensures isFirstVisit == !HasStoredData(stored) && currentView == Overview
      ensures userProfile == StoredOr(stored, (b: Backup) => b.userProfile, DefaultProfile)
      ensures expenses == WithIds(StoredOr(stored, (b: Backup) => b.expenses, sample.expenses), freshExpenseIds)
      ensures incomes == WithIds(StoredOr(stored, (b: Backup) => b.incomes, sample.incomes), freshIncomeIds)
      ensures accounts == StoredOr(stored, (b: Backup) => b.accounts, sample.accounts)
      ensures cash == StoredOr(stored, (b: Backup) => b.cash, sample.cash)
    {
      isFirstVisit := !HasStoredData(stored);
      currentView := Overview;
      userProfile := StoredOr(stored, (b: Backup) => b.userProfile, DefaultProfile);
      expenses := WithIds(StoredOr(stored, (b: Backup) => b.expenses, sample.expenses), freshExpenseIds);
      incomes := WithIds(StoredOr(stored, (b: Backup) => b.incomes, sample.incomes), freshIncomeIds);
      accounts := StoredOr(stored, (b: Backup) => b.accounts, sample.accounts);
      cash := StoredOr(stored, (b: Backup) => b.cash, sample.cash);
    }

    /**
     * `handleImportSuccess(newData, mode)`: the imported lists get ids; in `"merge"` mode the new
     * transactions are appended after the existing ones, the accounts are upserted and the cash is
     * added; in any other mode the lists are replaced, and so are the accounts, the cash and the
     * profile when the backup has them. Either way the overview is shown.
     */
    method ImportSuccess(newData: Backup, mode: string, freshExpenseIds: seq<string>, freshIncomeIds: seq<string>)
      requires FreshIds(freshExpenseIds, |newData.expenses.GetOr([])|)
      requires FreshIds(freshIncomeIds, |newData.incomes.GetOr([])|)
      modifies this
      ensures currentView == Overview && isFirstVisit == old(isFirstVisit)
      ensures var processed := WithIds(newData.expenses.GetOr([]), freshExpenseIds);
              expenses == if mode == "merge" then Merged(old(expenses), processed) else processed
      ensures var processed := WithIds(newData.incomes.GetOr([]), freshIncomeIds);
              incomes == if mode == "merge" then Merged(old(incomes), processed) else processed
      ensures accounts == match newData.accounts
                          case None => old(accounts)
                          case Some(incoming) => if mode == "merge" then UpsertAll(old(accounts), incoming) else incoming
      ensures cash == match newData.cash
                      case None => old(cash)
                      case Some(c) => if mode == "merge" then old(cash) + c else c
      ensures userProfile == if mode != "merge" && newData.userProfile.Some? then newData.userProfile.value else old(userProfile)
    {
      var processedExpenses := WithIds(newData.expenses.GetOr([]), freshExpenseIds);
      var processedIncomes := WithIds(newData.incomes.GetOr([]), freshIncomeIds);
      if mode == "merge" {
        expenses := Merged(expenses, processedExpenses);
        incomes := Merged(incomes, processedIncomes);
        if newData.accounts.Some? {
          accounts := UpsertAccounts(accounts, newData.accounts.value);
        }
        if newData.cash.Some? {
          cash := cash + newData.cash.value;
        }
      } else {
        expenses := processedExpenses;
        incomes := processedIncomes;
        if newData.accounts.Some? {
          accounts := newData.accounts.value;
        }
        if newData.cash.Some? {
          cash := newData.cash.value;
        }
        if newData.userProfile.Some? {
          userProfile := newData.userProfile.value;
        }
      }
      currentView := Overview;
    }

    /** `handleClearData()`: every list empty, no cash, the default profile, and the welcome screen. */
    method ClearData()
      modifies this
      ensures expenses == [] && incomes == [] && accounts == [] && cash == 0.0
      ensures userProfile == DefaultProfile && isFirstVisit && currentView == Overview
    {
      expenses := [];
      incomes := [];
      accounts := [];
      cash := 0.0;
      userProfile := DefaultProfile;
      isFirstVisit := true;
      currentView := Overview;
    }
  }
}

/**
 * The string primitives the application leans on, with JavaScript's semantics: `split`,
 * `parseInt`, number-to-decimal-string, `trim`, `toLowerCase` and `includes`.
 */
module Text {
  import opened Wrappers

  // ---------------------------------------------------------------------------------------------
  // Searching and splitting

  /** The first index of `c` in `s`, if any. */
  function IndexOf(s: string, c: char): (r: Option<nat>)
    ensures r.Some? ==> r.value < |s| && s[r.value] == c && c !in s[..r.value]
    ensures r.None? ==> c !in s
  {
    if |s| == 0 then None
    else if s[0] == c then Some(0)
    else
      match IndexOf(s[1..], c)
      case None => None
      case Some(i) => assert s[1..][..i] == s[1..i + 1]; Some(i + 1)
  }

  /** `s.split(sep)`: the pieces between separators; always at least one piece. */
  function Split(s: string, sep: char): (parts: seq<string>)
    ensures |parts| >= 1
    ensures forall k :: 0 <= k < |parts| ==> sep !in parts[k]
    decreases |s|
  {
    match IndexOf(s, sep)
    case None => [s]
    case Some(i) => [s[..i]] + Split(s[i + 1..], sep)
  }

  /** The inverse of `Split`: the pieces glued back with the separator. */
  function Join(parts: seq<string>, sep: char): string
    requires |parts| >= 1
  {
    if |parts| == 1 then parts[0] else parts[0] + [sep] + Join(parts[1..], sep)
  }

  /** `s.includes(needle)`. */
  predicate Contains(s: string, needle: string) {
    exists i | 0 <= i <= |s| - |needle| :: OccursAt(s, needle, i)
  }

  predicate OccursAt(s: string, needle: string, i: int) {
    0 <= i <= |s| - |needle| && s[i..i + |needle|] == needle
  }

  function StartsWith(s: string, prefix: string): bool {
    |prefix| <= |s| && s[..|prefix|] == prefix
  }

  // ---------------------------------------------------------------------------------------------
  // Digits

  predicate IsDigit(c: char) { '0' <= c <= '9' }

  function DigitValue(c: char): (v: nat)
    requires IsDigit(c)
    ensures v < 10
  {
    (c as int - '0' as int) as nat
  }

  predicate IsHexDigit(c: char) {
    IsDigit(c) || 'a' <= c <= 'f' || 'A' <= c <= 'F'
  }

  function HexValue(c: char): (v: nat)
    requires IsHexDigit(c)
    ensures v < 16
  {
    if IsDigit(c) then DigitValue(c)
    else if 'a' <= c <= 'f' then (c as int - 'a' as int + 10) as nat
    else (c as int - 'A' as int + 10) as nat
  }

  /** The number of leading characters of `s` satisfying `IsDigit` (or `IsHexDigit` when `hex`). */
  function DigitRun(s: string, hex: bool): (n: nat)
    ensures n <= |s|
    ensures forall k :: 0 <= k < n ==> (if hex then IsHexDigit(s[k]) else IsDigit(s[k]))
    ensures n < |s| ==> !(if hex then IsHexDigit(s[n]) else IsDigit(s[n]))
  {
    if |s| > 0 && (if hex then IsHexDigit(s[0]) else IsDigit(s[0])) then 1 + DigitRun(s[1..], hex) else 0
  }

  /** The value of a run of digits in base 10 or base 16. */
  function RunValue(ds: string, hex: bool): nat
    requires forall k :: 0 <= k < |ds| ==> (if hex then IsHexDigit(ds[k]) else IsDigit(ds[k]))
  {
    if |ds| == 0 then 0
    else
      var last := ds[|ds| - 1];
      RunValue(ds[..|ds| - 1], hex) * (if hex then 16 else 10) + (if hex then HexValue(last) else DigitValue(last))
  }

  // ---------------------------------------------------------------------------------------------
  // White space: ECMAScript's WhiteSpace and LineTerminator characters

  predicate IsJsSpace(c: char) {
    c == ' ' || c == '\t' || c == '\n' || c == '\r' || c == '\U{000B}' || c == '\U{000C}'
    || c == '\U{00A0}' || c == '\U{FEFF}' || c == '\U{1680}' || ('\U{2000}' <= c <= '\U{200A}')
    || c == '\U{2028}' || c == '\U{2029}' || c == '\U{202F}' || c == '\U{205F}' || c == '\U{3000}'
  }

  function TrimStart(s: string): (r: string)
    ensures |r| <= |s| && r == s[|s| - |r|..]
    ensures |r| > 0 ==> !IsJsSpace(r[0])
  {
    if |s| > 0 && IsJsSpace(s[0]) then TrimStart(s[1..]) else s
  }

  function TrimEnd(s: string): (r: string)
    ensures |r| <= |s| && r == s[..|r|]
    ensures |r| > 0 ==> !IsJsSpace(r[|r| - 1])
  {
    if |s| > 0 && IsJsSpace(s[|s| - 1]) then TrimEnd(s[..|s| - 1]) else s
  }

  /** `s.trim()`. */
  function Trim(s: string): (r: string)
    ensures |r| > 0 ==> !IsJsSpace(r[0]) && !IsJsSpace(r[|r| - 1])
  {
    TrimEnd(TrimStart(s))
  }

  // ---------------------------------------------------------------------------------------------
  // parseInt

  /** `parseInt(s)` with no radix: leading white space, an optional sign, then the longest run of
    * decimal digits, or of hex digits after `0x`/`0X`; `None` stands for `NaN` (no digit at all). */
  function ParseInt(s: string): Option<int> {
    ParseSigned(TrimStart(s))
  }

  function ParseSigned(t: string): Option<int> {
    if |t| > 0 && t[0] == '-' then
      match ParseUnsigned(t[1..])
      case None => None
      case Some(v) => Some(-v)
    else if |t| > 0 && t[0] == '+' then ParseUnsigned(t[1..])
    else ParseUnsigned(t)
  }

  function ParseUnsigned(u: string): Option<int> {
    if |u| >= 2 && u[0] == '0' && (u[1] == 'x' || u[1] == 'X') then ParseRun(u[2..], true)
    else ParseRun(u, false)
  }

  /** The value of the leading run of digits, or `None` when there is none. */
  function ParseRun(b: string, hex: bool): (r: Option<int>)
    ensures r.Some? ==> r.value >= 0
  {
    var n := DigitRun(b, hex);
    if n == 0 then None else Some(RunValue(b[..n], hex))
  }

  // ---------------------------------------------------------------------------------------------
  // Decimal rendering of naturals (`String(n)`)

  function DigitChar(d: nat): (c: char)
    requires d < 10
    ensures IsDigit(c) && DigitValue(c) == d
  {
    ('0' as int + d) as char
  }

  function NatToString(n: nat): (s: string)
    ensures |s| >= 1
    ensures forall k :: 0 <= k < |s| ==> IsDigit(s[k])
    ensures |s| > 1 ==> s[0] != '0'
  {
    if n < 10 then [DigitChar(n)] else NatToString(n / 10) + [DigitChar(n % 10)]
  }

  function Pow10(w: nat): (p: nat)
    ensures p >= 1
  {
    if w == 0 then 1 else 10 * Pow10(w - 1)
  }

  /** The last `width` decimal digits of `n`, zero-padded (`String(n).padStart(width, '0')` for `n < 10^width`). */
  function Pad(n: nat, width: nat): (s: string)
    ensures |s| == width
    ensures forall k :: 0 <= k < |s| ==> IsDigit(s[k])
  {
    if width == 0 then [] else Pad(n / 10, width - 1) + [DigitChar(n % 10)]
  }

  // ---------------------------------------------------------------------------------------------
  // toLowerCase

  /** The lower-case form of one character: ASCII and Latin-1 capitals, and the Turkish capitals
    * Ğ, Ş and İ (which lower-cases to `i` followed by a combining dot above, U+0307). */
  function LowerChar(c: char): string {
    if 'A' <= c <= 'Z' || ('\U{00C0}' <= c <= '\U{00DE}' && c != '\U{00D7}') then [(c as int + 32) as char]
    else if c == '\U{011E}' || c == '\U{015E}' then [(c as int + 1) as char]
    else if c == '\U{0130}' then ['i', '\U{0307}']
    else [c]
  }

  function ToLower(s: string): string {
    if |s| == 0 then [] else ToLower(s[..|s| - 1]) + LowerChar(s[|s| - 1])
  }

  /** `toUpperCase()` on the ASCII letters; every other character is kept. */
  function UpperChar(c: char): char {
    if 'a' <= c <= 'z' then (c as int - 32) as char else c
  }

  function ToUpper(s: string): string {
    seq(|s|, i requires 0 <= i < |s| => UpperChar(s[i]))
  }

  // ---------------------------------------------------------------------------------------------
  // Properties

  lemma {:induction false} SplitJoin(s: string, sep: char)
    ensures Join(Split(s, sep), sep) == s
    decreases |s|
  {
    match IndexOf(s, sep)
    case None =>
    case Some(i) =>
      var rest := s[i + 1..];
      assert Split(s, sep) == [s[..i]] + Split(rest, sep);
      SplitJoin(rest, sep);
      assert Join(Split(s, sep), sep) == s[..i] + [sep] + Join(Split(rest, sep), sep);
      assert s == s[..i] + [sep] + rest;
  }

  lemma {:induction false} JoinSplit(parts: seq<string>, sep: char)
    requires |parts| >= 1
    requires forall k :: 0 <= k < |parts| ==> sep !in parts[k]
    ensures Split(Join(parts, sep), sep) == parts
  {
    if |parts| == 1 {
      assert IndexOf(parts[0], sep).None?;
    } else {
      var s := Join(parts, sep);
      var p := parts[0];
      assert s == p + ([sep] + Join(parts[1..], sep));
      IndexOfAfterFree(p, [sep] + Join(parts[1..], sep), sep);
      assert s[..|p|] == p;
      assert s[|p| + 1..] == Join(parts[1..], sep);
      JoinSplit(parts[1..], sep);
    }
  }

  lemma {:induction false} IndexOfAfterFree(p: string, rest: string, c: char)
    requires c !in p && |rest| > 0 && rest[0] == c
    ensures IndexOf(p + rest, c) == Some(|p|)
  {
    if |p| == 0 {
      assert p + rest == rest;
    } else {
      assert (p + rest)[1..] == p[1..] + rest;
      IndexOfAfterFree(p[1..], rest, c);
    }
  }

  lemma {:induction false} RunValueOfNat(n: nat)
    ensures RunValue(NatToString(n), false) == n
  {
    var s := NatToString(n);
    if n >= 10 {
      RunValueOfNat(n / 10);
      assert s[..|s| - 1] == NatToString(n / 10);
    }
  }

  lemma {:induction false} DigitRunAll(s: string, hex: bool)
    requires forall k :: 0 <= k < |s| ==> (if hex then IsHexDigit(s[k]) else IsDigit(s[k]))
    ensures DigitRun(s, hex) == |s|
  {
    if |s| > 0 {
      DigitRunAll(s[1..], hex);
    }
  }

  /** `parseInt(String(n)) === n`: rendering a natural and parsing it back is the identity. */
  lemma ParseIntOfNat(n: nat)
    ensures ParseInt(NatToString(n)) == Some(n)
  {
    ParseIntOfDigits(NatToString(n));
    RunValueOfNat(n);
  }

  /** `parseInt` of a run of decimal digits is the run's value, leading zeros and all. */
  lemma ParseIntOfDigits(s: string)
    requires |s| >= 1 && forall k :: 0 <= k < |s| ==> IsDigit(s[k])
    ensures ParseInt(s) == Some(RunValue(s, false))
  {
    assert !IsJsSpace(s[0]);
    assert TrimStart(s) == s;
    assert ParseSigned(s) == ParseUnsigned(s);
    assert ParseUnsigned(s) == ParseRun(s, false);
    DigitRunAll(s, false);
    assert s[..|s|] == s;
  }

  /** A run of digits holds no other character, a field separator in particular. */
  lemma {:induction false} DigitsExclude(s: string, c: char)
    requires !IsDigit(c) && forall k :: 0 <= k < |s| ==> IsDigit(s[k])
    ensures c !in s
  {
    if |s| > 0 {
      assert s == [s[0]] + s[1..];
      DigitsExclude(s[1..], c);
    }
  }

  /** Zero-padding does not change the value the digits spell. */
  lemma {:induction false} PadValue(n: nat, width: nat)
    requires n < Pow10(width)
    ensures RunValue(Pad(n, width), false) == n
  {
    if width > 0 {
      PadValue(n / 10, width - 1);
      var s := Pad(n, width);
      assert s[..|s| - 1] == Pad(n / 10, width - 1);
    }
  }

  /** The digits of distinct naturals differ, so generated identifiers built from them differ. */
  lemma NatToStringInjective(a: nat, b: nat)
    requires NatToString(a) == NatToString(b)
    ensures a == b
  {
    RunValueOfNat(a);
    RunValueOfNat(b);
  }

  lemma {:induction false} ToLowerAppend(a: string, b: string)
    ensures ToLower(a + b) == ToLower(a) + ToLower(b)
    decreases |b|
  {
    if |b| == 0 {
      assert a + b == a;
    } else {
      var init, last := b[..|b| - 1], b[|b| - 1];
      assert ToLower(a + b) == ToLower(a + init) + LowerChar(last) by {
        assert (a + b)[..|a + b| - 1] == a + init;
        assert (a + b)[|a + b| - 1] == last;
      }
      assert ToLower(b) == ToLower(init) + LowerChar(last);
      ToLowerAppend(a, init);
    }
  }

  /** Lower-casing leaves text that has no capital letters untouched (the bank keywords, for one). */
  lemma {:induction false} ToLowerFixes(s: string)
    requires forall k :: 0 <= k < |s| ==> LowerChar(s[k]) == [s[k]]
    ensures ToLower(s) == s
  {
    if |s| > 0 {
      ToLowerFixes(s[..|s| - 1]);
    }
  }
}

/**
 * The fixed regular expressions of the menu extractors, each written out as a
 * matcher: the operating-time range `HH:MM~HH:MM` (optionally followed by a
 * second range after `/`), the item price `[\d,]+원`, the set price
 * `￦\s*[\d,]+`, the price-only line `^[\d,]+원$`, and `parseInt` of a
 * digits-and-commas group.  Every leftmost-match function states that no
 * earlier position matches.
 */
module Tokens {
  import opened Wrappers
  import opened Text
  import opened Menu

  /** `\d` in a JavaScript regular expression: ASCII digits only. */
  predicate IsDigit(c: char) { '0' <= c <= '9' }

  /** The class `[\d,]`. */
  predicate IsPriceChar(c: char) { IsDigit(c) || c == ',' }

  function DigitValue(c: char): (d: nat)
    requires IsDigit(c)
    ensures d < 10
  {
    c as int - '0' as int
  }

  /** `\d{2}:\d{2}~\d{2}:\d{2}` at index `i`. */
  predicate RangeAt(s: string, i: nat) {
    i + 11 <= |s|
    && IsDigit(s[i]) && IsDigit(s[i + 1]) && s[i + 2] == ':' && IsDigit(s[i + 3]) && IsDigit(s[i + 4])
    && s[i + 5] == '~'
    && IsDigit(s[i + 6]) && IsDigit(s[i + 7]) && s[i + 8] == ':' && IsDigit(s[i + 9]) && IsDigit(s[i + 10])
  }

  /** `^(\d{2}):(\d{2})~(\d{2}):(\d{2})$`: the whole string is one time range. */
  predicate IsRange(s: string) {
    |s| == 11 && RangeAt(s, 0)
  }

  /** `parseInt` of the two digits at `i`. */
  function TwoDigits(s: string, i: nat): (n: nat)
    requires i + 2 <= |s| && IsDigit(s[i]) && IsDigit(s[i + 1])
    ensures n < 100
  {
    10 * DigitValue(s[i]) + DigitValue(s[i + 1])
  }

  /** A match of a pattern: the half-open index range `start..end`. */
  datatype Hit = Hit(start: nat, end: nat)

  /** Delete the matched text: `s.replace(re, '')` for a non-global `re` that matched at `h`. */
  function RemoveHit(s: string, h: Hit): (r: string)
    requires h.start <= h.end <= |s|
    ensures |r| == |s| - (h.end - h.start)
  {
    s[..h.start] + s[h.end..]
  }

  /**
   * The end of a match of
   * `\d{2}:\d{2}~\d{2}:\d{2}(\s*\/\s*\d{2}:\d{2}~\d{2}:\d{2})?` that starts at
   * `i`: the optional second range is taken whenever it is there.
   */
  function TimeAt(s: string, i: nat): (r: Option<nat>)
    ensures r.Some? <==> RangeAt(s, i)
    ensures r.Some? ==> i + 11 <= r.value <= |s|
  {
    if !RangeAt(s, i) then None
    else
      var j := SkipSpaces(s, i + 11);
      if j < |s| && s[j] == '/' && RangeAt(s, SkipSpaces(s, j + 1))
      then Some(SkipSpaces(s, j + 1) + 11)
      else Some(i + 11)
  }

  /** The leftmost operating-time match at or after `from`. */
  function FirstTime(s: string, from: nat): (r: Option<Hit>)
    ensures r.Some? ==> from <= r.value.start && TimeAt(s, r.value.start) == Some(r.value.end)
    ensures r.Some? ==> forall k :: from <= k < r.value.start ==> !RangeAt(s, k)
    ensures r.None? ==> forall k :: from <= k ==> !RangeAt(s, k)
    decreases |s| - from
  {
    if from + 11 > |s| then None
    else match TimeAt(s, from)
      case Some(e) => Some(Hit(from, e))
      case None => FirstTime(s, from + 1)
  }

  /** `s.match(timeRegex)[1]`: the first operating-time text in `s`, if any. */
  function TimeText(s: string): (r: Option<string>)
    ensures r.Some? ==> |r.value| >= 11 && RangeAt(r.value, 0)
    ensures r.None? <==> forall k :: 0 <= k ==> !RangeAt(s, k)
    ensures FirstTime(s, 0).Some? ==> r == Some(s[FirstTime(s, 0).value.start..FirstTime(s, 0).value.end])
  {
    match FirstTime(s, 0)
    case None => None
    case Some(h) => Some(s[h.start..h.end])
  }

  /** `s.replace(timeRegex, '')`: only the first operating-time match is removed. */
  function RemoveFirstTime(s: string): string {
    match FirstTime(s, 0)
    case None => s
    case Some(h) => RemoveHit(s, h)
  }

  /** The end of the maximal run of `[\d,]` that starts at `k`. */
  function RunEnd(s: string, k: nat): (r: nat)
    requires k <= |s|
    ensures k <= r <= |s|
    ensures r < |s| ==> !IsPriceChar(s[r])
    ensures forall j :: k <= j < r ==> IsPriceChar(s[j])
    decreases |s| - k
  {
    if k == |s| || !IsPriceChar(s[k]) then k else RunEnd(s, k + 1)
  }

  /** A price match: where it starts and ends, and its captured `[\d,]+` group. */
  datatype PriceHit = PriceHit(start: nat, group: string, end: nat)

  predicate AllPriceChars(g: string) {
    forall k :: 0 <= k < |g| ==> IsPriceChar(g[k])
  }

  /**
   * `([\d,]+)원` matching at `k`.  The greedy group must stop right before `원`,
   * and `원` is not in the class, so the group is the maximal run from `k`.
   */
  function WonAt(s: string, k: nat): (r: Option<PriceHit>)
    ensures r.Some? ==> r.value.start == k && k < r.value.end <= |s|
    ensures r.Some? ==> |r.value.group| > 0 && AllPriceChars(r.value.group)
    ensures r.Some? ==> s[k..r.value.end] == r.value.group + "원"
    ensures k < |s| && !IsPriceChar(s[k]) ==> r.None?
  {
    if k < |s| && IsPriceChar(s[k]) then
      var e := RunEnd(s, k);
      if e < |s| && s[e] == '원' then Some(PriceHit(k, s[k..e], e + 1)) else None
    else None
  }

  /** The leftmost `([\d,]+)원` match at or after `from`. */
  function FirstWon(s: string, from: nat): (r: Option<PriceHit>)
    ensures r.Some? ==> from <= r.value.start && WonAt(s, r.value.start) == r
    ensures r.Some? ==> forall k :: from <= k < r.value.start ==> WonAt(s, k).None?
    ensures r.None? ==> forall k :: from <= k ==> WonAt(s, k).None?
    decreases |s| - from
  {
    if from >= |s| then None
    else match WonAt(s, from)
      case Some(h) => Some(h)
      case None => FirstWon(s, from + 1)
  }

  /** The set-price sign. */
  const WonSign: char := '￦'

  /** `￦\s*([\d,]+)` matching at `k`; the greedy group is the maximal run. */
  function WonSignAt(s: string, k: nat): (r: Option<PriceHit>)
    ensures r.Some? ==> r.value.start == k && k < r.value.end <= |s| && s[k] == WonSign
    ensures r.Some? ==> |r.value.group| > 0 && AllPriceChars(r.value.group)
    ensures k < |s| && s[k] != WonSign ==> r.None?
  {
    if k < |s| && s[k] == WonSign then
      var j := SkipSpaces(s, k + 1);
      if j < |s| && IsPriceChar(s[j]) then
        var e := RunEnd(s, j);
        Some(PriceHit(k, s[j..e], e))
      else None
    else None
  }

  /** The leftmost `￦\s*([\d,]+)` match at or after `from`. */
  function FirstWonSign(s: string, from: nat): (r: Option<PriceHit>)
    ensures r.Some? ==> from <= r.value.start && WonSignAt(s, r.value.start) == r
    ensures r.Some? ==> forall k :: from <= k < r.value.start ==> WonSignAt(s, k).None?
    ensures r.None? ==> forall k :: from <= k ==> WonSignAt(s, k).None?
    decreases |s| - from
  {
    if from >= |s| then None
    else match WonSignAt(s, from)
      case Some(h) => Some(h)
      case None => FirstWonSign(s, from + 1)
  }

  /** `s.replace(/￦\s*([\d,]+)/, '')`: only the first set price is removed. */
  function RemoveFirstWonSign(s: string): string {
    match FirstWonSign(s, 0)
    case None => s
    case Some(h) => RemoveHit(s, Hit(h.start, h.end))
  }

  /**
   * The line with its first `n원` cut out and the rest trimmed
   * (`s.replace(/([\d,]+)원/, '').trim()`), or the line itself when it holds no price.
   */
  function CutWon(s: string): string {
    match FirstWon(s, 0)
    case None => s
    case Some(h) => Trim(RemoveHit(s, Hit(h.start, h.end)))
  }

  /** `t.match(/^([\d,]+)원$/)`: the group when the whole of `t` is one price. */
  function PriceOnly(t: string): (r: Option<string>)
    ensures r.Some? <==> |t| >= 2 && t[|t| - 1] == '원' && AllPriceChars(t[..|t| - 1])
    ensures r.Some? ==> r.value + "원" == t && |r.value| > 0 && AllPriceChars(r.value)
  {
    if |t| >= 2 && t[|t| - 1] == '원' && AllPriceChars(t[..|t| - 1]) then Some(t[..|t| - 1]) else None
  }

  /** `g.replace(/,/g, '')`. */
  function RemoveCommas(g: string): (r: string)
    ensures ',' !in r
    ensures |r| <= |g|
    ensures r == [] <==> forall k :: 0 <= k < |g| ==> g[k] == ','
    ensures AllPriceChars(g) ==> forall k :: 0 <= k < |r| ==> IsDigit(r[k])
  {
    if g == [] then []
    else if g[0] == ',' then RemoveCommas(g[1..])
    else [g[0]] + RemoveCommas(g[1..])
  }

  /** The decimal value of a digit string (leading zeros allowed). */
  function DecimalValue(ds: string): nat
    requires forall k :: 0 <= k < |ds| ==> IsDigit(ds[k])
  {
    if ds == [] then 0 else 10 * DecimalValue(ds[..|ds| - 1]) + DigitValue(ds[|ds| - 1])
  }

  /**
   * `parseInt(g.replace(/,/g, ''), 10)` for a `[\d,]+` group: `NaN` when the
   * group holds commas only.  (`priceStr.replace(/[^\d]/g, '')` on the whole
   * match `g + "원"` leaves the same digits.)
   */
  function ParseAmount(g: string): (r: Amount)
    requires AllPriceChars(g)
    ensures r != Absent
    ensures r == NotANumber <==> forall k :: 0 <= k < |g| ==> g[k] == ','
  {
    var ds := RemoveCommas(g);
    if ds == [] then NotANumber else Won(DecimalValue(ds))
  }

  /** The decimal rendering of `n`, without separators. */
  function Decimal(n: nat): (r: string)
    ensures |r| > 0 && forall k :: 0 <= k < |r| ==> IsDigit(r[k])
  {
    if n < 10 then [('0' as int + n) as char]
    else Decimal(n / 10) + [('0' as int + n % 10) as char]
  }

  lemma {:induction false} DecimalValueOfDecimal(n: nat)
    ensures DecimalValue(Decimal(n)) == n
  {
    if n >= 10 {
      DecimalValueOfDecimal(n / 10);
      var d := Decimal(n);
      assert d[..|d| - 1] == Decimal(n / 10);
    }
  }

  lemma {:induction false} RemoveCommasConcat(a: string, b: string)
    ensures RemoveCommas(a + b) == RemoveCommas(a) + RemoveCommas(b)
  {
    if a != [] {
      assert (a + b)[1..] == a[1..] + b;
      RemoveCommasConcat(a[1..], b);
    } else {
      assert a + b == b;
    }
  }

  /** Rendering an amount and reading it back with `parseInt` gives the amount. */
  lemma ParseAmountOfDecimal(n: nat)
    ensures AllPriceChars(Decimal(n)) && ParseAmount(Decimal(n)) == Won(n)
  {
    var d := Decimal(n);
    assert RemoveCommas(d) == d by {
      assert ',' !in d;
      RemoveCommasNoComma(d);
    }
    DecimalValueOfDecimal(n);
  }

  lemma {:induction false} RemoveCommasNoComma(g: string)
    requires ',' !in g
    ensures RemoveCommas(g) == g
  {
    if g != [] {
      RemoveCommasNoComma(g[1..]);
    }
  }

  /** Thousands separators do not change the parsed amount: `6,500` and `6500` agree. */
  lemma ParseAmountIgnoresComma(a: string, b: string)
    requires AllPriceChars(a) && AllPriceChars(b)
    ensures AllPriceChars(a + "," + b) && AllPriceChars(a + b)
    ensures ParseAmount(a + "," + b) == ParseAmount(a + b)
  {
    assert a + "," + b == (a + ",") + b;
    RemoveCommasConcat(a + ",", b);
    RemoveCommasConcat(a, ",");
    RemoveCommasConcat(a, b);
    assert ","[1..] == [];
    assert RemoveCommas(",") == [];
    assert RemoveCommas(a + "," + b) == RemoveCommas(a + b);
  }

  /** `s.replace(/\(\d{2}:\d{2}~\d{2}:\d{2}\)/g, '')`: parenthesised time ranges. */
  function RemoveParenRanges(s: string): (r: string)
    ensures '(' !in s ==> r == s
    ensures |r| <= |s|
    decreases |s|
  {
    if s == [] then []
    else if |s| >= 13 && s[0] == '(' && RangeAt(s, 1) && s[12] == ')' then RemoveParenRanges(s[13..])
    else [s[0]] + RemoveParenRanges(s[1..])
  }
}

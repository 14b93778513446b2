/**
 * Explicit scanners for the regular expressions of the parsers: digit runs,
 * leftmost search (`re.search`), left-to-right non-overlapping matching
 * (`re.findall`) and the individual patterns, each as "does the pattern
 * match at position i, and with what value".
 *
 * `\d` is an ASCII digit, `\s` a character of `Text.IsSpace` and a word
 * character for `\b` one of `Text.IsWordChar`.
 */
module Scan {
  import opened Wrappers
  import opened Text

  function Min(a: nat, b: nat): nat { if a <= b then a else b }

  function Pow10(n: nat): (r: nat)
    ensures r >= 1
  {
    if n == 0 then 1 else 10 * Pow10(n - 1)
  }

  /** Length of the run of digits starting at `i`. */
  function DigitRun(s: string, i: nat): (r: nat)
    ensures i + r <= |s| || r == 0
    ensures forall j | i <= j < i + r :: IsDigit(s[j])
    ensures i + r >= |s| || !IsDigit(s[i + r])
    decreases |s| - i
  {
    if i < |s| && IsDigit(s[i]) then 1 + DigitRun(s, i + 1) else 0
  }

  /** The number written by the digits `s[i..j]`. */
  function NumberAt(s: string, i: nat, j: nat): (r: nat)
    requires i <= j <= |s|
    requires forall k | i <= k < j :: IsDigit(s[k])
    ensures r < Pow10(j - i)
  {
    assert AllDigits(s[i..j]) by {
      forall k | 0 <= k < j - i ensures IsDigit(s[i..j][k]) {
        assert s[i..j][k] == s[i + k];
      }
    }
    ParseNatBound(s[i..j]);
    ParseNat(s[i..j])
  }

  lemma {:induction false} ParseNatBound(s: string)
    requires AllDigits(s)
    ensures ParseNat(s) < Pow10(|s|)
    decreases |s|
  {
    if s != [] {
      var t := s[..|s| - 1];
      assert AllDigits(t) by {
        forall k | 0 <= k < |t| ensures IsDigit(t[k]) {
          assert t[k] == s[k];
        }
      }
      ParseNatBound(t);
    }
  }

  /** Some word of `ws` starts at `i`. */
  predicate MatchAny(s: string, ws: seq<string>, i: nat) {
    exists k | 0 <= k < |ws| :: MatchAt(s, ws[k], i)
  }

  /** `\b` between a digit at `e - 1` and position `e`. */
  predicate EndBoundary(s: string, e: nat) { e >= |s| || !IsWordChar(s[e]) }

  /** `\bw\b` matches at `i`, for a word `w` that starts and ends with a word character. */
  predicate WordAt(s: string, w: string, i: nat) {
    MatchAt(s, w, i) && (i == 0 || (i <= |s| && !IsWordChar(s[i - 1]))) && EndBoundary(s, i + |w|)
  }

  /** `re.search(r"\bw\b", s)` succeeds. */
  predicate HasWord(s: string, w: string) {
    exists i | 0 <= i <= |s| :: WordAt(s, w, i)
  }

  // ---------------------------------------------------------------------
  // Leftmost search and `findall`
  // ---------------------------------------------------------------------

  /** The first position in `[i, n)` where `at` matches. */
  function Search<T>(at: nat -> Option<T>, i: nat, n: nat): (r: Option<nat>)
    ensures r.Some? ==> i <= r.value < n && at(r.value).Some? && forall k | i <= k < r.value :: at(k).None?
    ensures r.None? ==> forall k | i <= k < n :: at(k).None?
    decreases n - i
  {
    if i >= n then None else if at(i).Some? then Some(i) else Search(at, i + 1, n)
  }

  /** `re.search`: the value of the leftmost match in a text of length `n`. */
  function First<T>(at: nat -> Option<T>, n: nat): (r: Option<T>)
    ensures r.Some? <==> exists k | 0 <= k < n :: at(k).Some?
    ensures r.Some? ==> exists k | 0 <= k < n :: at(k) == r && forall m | 0 <= m < k :: at(m).None?
  {
    match Search(at, 0, n)
    case None => None
    case Some(k) => at(k)
  }

  // ---------------------------------------------------------------------
  // `(\d+)\s*[\-]?\s*(?:ст|ступ|pered)`
  // ---------------------------------------------------------------------

  /** The gear count of a match at `i` ("ступ" begins with "ст", so it matches wherever "ст" does). */
  function GearsAt(s: string, i: nat): Option<nat> {
    var l := DigitRun(s, i);
    if l == 0 then None
    else
      var j := SkipSpaces(s, i + l);
      var k := if j < |s| && s[j] == '-' then SkipSpaces(s, j + 1) else j;
      if MatchAt(s, "ст", k) || MatchAt(s, "pered", k) then Some(NumberAt(s, i, i + l)) else None
  }

  // ---------------------------------------------------------------------
  // `(\d+(?:[.,]\d+)?)\s*(?:<unit>)`, scaled by a million
  // ---------------------------------------------------------------------

  /** `int(float("w.f") * 1_000_000)`, computed exactly. */
  function Millions(whole: nat, frac: nat, fracDigits: nat): nat {
    var scale := Pow10(fracDigits);
    QuotientIsNat(frac * 1000000, scale);
    whole * 1000000 + frac * 1000000 / scale
  }

  lemma QuotientIsNat(a: nat, b: nat)
    requires b >= 1
    ensures a / b >= 0
  {
  }

  /** The end of the number `\d+(?:[.,]\d+)?` starting at `i`, which has `l > 0` digits. */
  function DecimalEnd(s: string, i: nat, l: nat): (e: nat)
    requires 0 < l && i + l <= |s|
    ensures i + l <= e <= |s|
  {
    var e := i + l;
    var f := if e < |s| && (s[e] == '.' || s[e] == ',') then DigitRun(s, e + 1) else 0;
    if f > 0 then e + 1 + f else e
  }

  /** The value of a match at `i`, scaled by a million, followed by one of `units`. */
  function MillionsAt(s: string, i: nat, units: seq<string>): Option<nat> {
    var l := DigitRun(s, i);
    if l == 0 then None
    else
      var e := DecimalEnd(s, i, l);
      if !MatchAny(s, units, SkipSpaces(s, e)) then None
      else if e == i + l then Some(Millions(NumberAt(s, i, i + l), 0, 0))
      else Some(Millions(NumberAt(s, i, i + l), NumberAt(s, i + l + 1, e), e - (i + l + 1)))
  }

  /** `bool(float("w.f"))` for the number at `i`: some digit of it is not zero. */
  predicate FloatNonZeroAt(s: string, i: nat) {
    var l := DigitRun(s, i);
    l > 0 && (var e := DecimalEnd(s, i, l);
              NumberAt(s, i, i + l) != 0 || (e > i + l && NumberAt(s, i + l + 1, e) != 0))
  }

  /** A match whose scaled value is not zero has a non-zero float; below a millionth the converse fails. */
  lemma NonZeroMillionsFloat(s: string, i: nat, units: seq<string>)
    requires MillionsAt(s, i, units).Some? && MillionsAt(s, i, units).value != 0
    ensures FloatNonZeroAt(s, i)
  {
    var l := DigitRun(s, i);
    var e := DecimalEnd(s, i, l);
    if NumberAt(s, i, i + l) == 0 && e > i + l {
      assert Millions(0, NumberAt(s, i + l + 1, e), e - (i + l + 1)) != 0;
    }
  }

  // ---------------------------------------------------------------------
  // Power: `от\s*(\d{2,3})` and `(\d{2,3})\s*(?:л\.?с\.?|сил|hp|лошад)`
  // ---------------------------------------------------------------------

  function FromPowerAt(s: string, i: nat): Option<nat> {
    if !MatchAt(s, "от", i) then None
    else
      var j := SkipSpaces(s, i + 2);
      var l := DigitRun(s, j);
      if l < 2 then None else Some(NumberAt(s, j, j + Min(l, 3)))
  }

  const PowerUnits: seq<string> := ["лс", "л.с", "сил", "hp", "лошад"]

  function UnitPowerAt(s: string, i: nat): Option<nat> {
    var l := DigitRun(s, i);
    if l < 2 then None
    else
      var t := Min(l, 3);
      if MatchAny(s, PowerUnits, SkipSpaces(s, i + t)) then Some(NumberAt(s, i, i + t)) else None
  }

  /** Both power patterns capture two or three digits. */
  lemma PowerValuesBelow1000(s: string, i: nat)
    ensures FromPowerAt(s, i).Some? ==> FromPowerAt(s, i).value < 1000
    ensures UnitPowerAt(s, i).Some? ==> UnitPowerAt(s, i).value < 1000
  {
    var l := DigitRun(s, i);
    if l >= 2 {
      ThreeDigitsBelow1000(Min(l, 3));
    }
    if MatchAt(s, "от", i) {
      var j := SkipSpaces(s, i + 2);
      var m := DigitRun(s, j);
      if m >= 2 {
        ThreeDigitsBelow1000(Min(m, 3));
      }
    }
  }

  lemma ThreeDigitsBelow1000(n: nat)
    requires n <= 3
    ensures Pow10(n) <= 1000
  {
    assert Pow10(1) == 10;
    assert Pow10(2) == 100;
    assert Pow10(3) == 1000;
  }

  // ---------------------------------------------------------------------
  // Big numbers: `\b\d{1,3}(?:[ \.]\d{3}){1,3}\b|\b\d{5,9}\b`
  // ---------------------------------------------------------------------

  /** A group `[ .]\d{3}` starts at `p`. */
  predicate GroupAt(s: string, p: nat) {
    p + 4 <= |s| && (s[p] == ' ' || s[p] == '.') && IsDigit(s[p + 1]) && IsDigit(s[p + 2]) && IsDigit(s[p + 3])
  }

  /** How many groups (at most three) follow one another from `p`. */
  function GroupCount(s: string, p: nat): (g: nat)
    ensures g <= 3
    ensures forall m | 0 <= m < g :: GroupAt(s, p + 4 * m)
    ensures g < 3 ==> !GroupAt(s, p + 4 * g)
  {
    if !GroupAt(s, p) then 0
    else if !GroupAt(s, p + 4) then 1
    else if !GroupAt(s, p + 8) then 2
    else 3
  }

  /**
   * The end of the match at `i`, if any. The first alternative needs the
   * leading run to have one to three digits; the greedy group count is then
   * cut back by one when no boundary follows it, since the separator of the
   * group dropped is itself a boundary.
   */
  function BigAt(s: string, i: nat): (r: Option<nat>)
    ensures r.Some? ==> i < r.value <= |s|
  {
    if i >= |s| || !IsDigit(s[i]) || (i > 0 && IsWordChar(s[i - 1])) then None
    else
      var l := DigitRun(s, i);
      var g := if l <= 3 then GroupCount(s, i + l) else 0;
      if g >= 1 && EndBoundary(s, i + l + 4 * g) then Some(i + l + 4 * g)
      else if g >= 2 then Some(i + l + 4 * (g - 1))
      else if 5 <= l <= 9 && EndBoundary(s, i + l) then Some(i + l)
      else None
  }

  /** `re.findall` of the big-number pattern from `i`, each match with its spaces and dots removed. */
  function BigNumbersFrom(s: string, i: nat): (r: seq<string>)
    ensures forall k | 0 <= k < |r| :: AllDigits(r[k])
    decreases |s| - i
  {
    if i >= |s| then []
    else match BigAt(s, i)
      case Some(e) => [DigitsOnly(s[i..e])] + BigNumbersFrom(s, e)
      case None => BigNumbersFrom(s, i + 1)
  }

  /** Every big number has between 4 and 12 digits, and exactly 5 to 9 when it has no separator. */
  lemma BigAtShape(s: string, i: nat)
    requires BigAt(s, i).Some?
    ensures var e := BigAt(s, i).value;
      forall k | i <= k < e :: IsDigit(s[k]) || s[k] == ' ' || s[k] == '.'
    ensures var e := BigAt(s, i).value;
      (forall k | i <= k < e :: IsDigit(s[k])) ==> 5 <= e - i <= 9
  {
    var l := DigitRun(s, i);
    var e := BigAt(s, i).value;
    var g := if l <= 3 then GroupCount(s, i + l) else 0;
    if g >= 1 && (EndBoundary(s, i + l + 4 * g) || g >= 2) {
      var used := if EndBoundary(s, i + l + 4 * g) then g else g - 1;
      assert e == i + l + 4 * used;
      GroupSpan(s, i + l, used);
      assert GroupAt(s, i + l);
    }
  }

  /** `n` groups in a row from `p` hold only digits, spaces and dots. */
  lemma {:induction false} GroupSpan(s: string, p: nat, n: nat)
    requires p + 4 * n <= |s|
    requires forall m | 0 <= m < n :: GroupAt(s, p + 4 * m)
    ensures forall k | p <= k < p + 4 * n :: IsDigit(s[k]) || s[k] == ' ' || s[k] == '.'
  {
    if n > 0 {
      GroupSpan(s, p, n - 1);
      assert GroupAt(s, p + 4 * (n - 1));
    }
  }
}

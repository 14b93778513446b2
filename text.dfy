/**
 * Character classes, substring search and the small string helpers that the
 * keyword tables, parsers and formatters of the bot are built from.
 *
 * Strings are sequences of code points. Lower-casing covers ASCII and the
 * Russian alphabet, which is what the bot's keyword tables use.
 */
module Text {

  // ---------------------------------------------------------------------
  // Character classes
  // ---------------------------------------------------------------------

  predicate IsDigit(c: char) { '0' <= c <= '9' }

  /** Whitespace as matched by `\s` and used by `str.split()` / `str.strip()`. */
  predicate IsSpace(c: char) {
    c == ' ' || c == '\t' || c == '\n' || c == '\r' || c == '\U{B}' || c == '\U{C}' || c == '\U{A0}'
  }

  predicate IsLatin(c: char) { 'a' <= c <= 'z' || 'A' <= c <= 'Z' }

  predicate IsCyrillic(c: char) { 'а' <= c <= 'я' || 'А' <= c <= 'Я' || c == 'ё' || c == 'Ё' }

  /** A character of the regex class `\w`. */
  predicate IsWordChar(c: char) { IsLatin(c) || IsDigit(c) || c == '_' || IsCyrillic(c) }

  // ---------------------------------------------------------------------
  // Case mapping
  // ---------------------------------------------------------------------

  function LowerChar(c: char): char {
    if 'A' <= c <= 'Z' then (c as int + 32) as char
    else if 'А' <= c <= 'Я' then (c as int + 32) as char
    else if c == 'Ё' then 'ё'
    else c
  }

  /** `str.lower()`: maps each character, keeps the length. */
  function Lower(s: string): (r: string)
    ensures |r| == |s|
    ensures forall i | 0 <= i < |s| :: r[i] == LowerChar(s[i])
  {
    seq(|s|, i requires 0 <= i < |s| => LowerChar(s[i]))
  }

  /** `.replace("ё", "е")`. */
  function YoToYe(s: string): (r: string)
    ensures |r| == |s|
    ensures forall i | 0 <= i < |s| :: r[i] == (if s[i] == 'ё' then 'е' else s[i])
  {
    seq(|s|, i requires 0 <= i < |s| => if s[i] == 'ё' then 'е' else s[i])
  }

  /** The normal form the keyword tables are matched against: lower case, ё written as е. */
  function Fold(s: string): (r: string)
    ensures |r| == |s|
    ensures forall i | 0 <= i < |s| :: r[i] != 'ё' && r[i] != 'Ё'
  {
    YoToYe(Lower(s))
  }

  // ---------------------------------------------------------------------
  // Substring search (`p in s`)
  // ---------------------------------------------------------------------

  /** `p` occurs in `s` starting at index `i`. */
  predicate MatchAt(s: string, p: string, i: nat)
    decreases |p|
  {
    if |p| == 0 then i <= |s| else i < |s| && s[i] == p[0] && MatchAt(s, p[1..], i + 1)
  }

  /** `p` occurs in `s` at some index `j >= i`. */
  predicate ContainsFrom(s: string, p: string, i: nat)
    decreases |s| - i
  {
    i + |p| <= |s| && (MatchAt(s, p, i) || ContainsFrom(s, p, i + 1))
  }

  /** Python's `p in s` for strings. */
  predicate Contains(s: string, p: string) { ContainsFrom(s, p, 0) }

  /** `p` is the slice of `s` that starts at index `j`. */
  predicate OccursAt(s: string, p: string, j: nat) {
    j + |p| <= |s| && s[j..j + |p|] == p
  }

  lemma {:induction false} MatchAtIff(s: string, p: string, i: nat)
    ensures MatchAt(s, p, i) <==> OccursAt(s, p, i)
    decreases |p|
  {
    if |p| > 0 {
      MatchAtIff(s, p[1..], i + 1);
      if OccursAt(s, p, i) {
        assert s[i] == s[i..i + |p|][0] == p[0];
        assert s[i + 1..i + |p|] == s[i..i + |p|][1..] == p[1..];
        assert OccursAt(s, p[1..], i + 1);
        assert MatchAt(s, p, i);
      }
      if MatchAt(s, p, i) {
        assert OccursAt(s, p[1..], i + 1);
        assert i + |p| <= |s|;
        assert s[i..i + |p|] == [s[i]] + s[i + 1..i + |p|];
        assert p == [p[0]] + p[1..];
      }
    }
  }

  lemma {:induction false} ContainsFromIff(s: string, p: string, i: nat)
    ensures ContainsFrom(s, p, i) <==> exists j :: i <= j && OccursAt(s, p, j)
    decreases |s| - i
  {
    if i + |p| <= |s| {
      MatchAtIff(s, p, i);
      ContainsFromIff(s, p, i + 1);
      if exists j :: i <= j && OccursAt(s, p, j) {
        var j :| i <= j && OccursAt(s, p, j);
        if j > i {
          assert i + 1 <= j;
        }
      }
    }
  }

  /** `Contains` is the substring relation. */
  lemma ContainsIff(s: string, p: string)
    ensures Contains(s, p) <==> exists j :: OccursAt(s, p, j)
  {
    ContainsFromIff(s, p, 0);
  }

  /** A word whose first two letters never occur side by side in `s` is not contained in `s`. */
  lemma {:induction false} AbsentPair(s: string, w: string)
    requires |w| >= 2
    requires forall j | 0 <= j < |s| - 1 :: !(s[j] == w[0] && s[j + 1] == w[1])
    ensures !Contains(s, w)
  {
    forall j: nat ensures !OccursAt(s, w, j) {
      if j + |w| <= |s| {
        assert s[j..j + |w|][0] == s[j] && s[j..j + |w|][1] == s[j + 1];
      }
    }
    ContainsIff(s, w);
  }

  /** A string occurring inside a concatenation is contained in it. */
  lemma ContainsMiddle(a: string, b: string, c: string)
    ensures Contains(a + b + c, b)
  {
    var s := a + b + c;
    assert s[|a|..|a| + |b|] == b;
    assert OccursAt(s, b, |a|);
    ContainsIff(s, b);
  }

  /** Text contained in `b` is contained in anything that ends with `b`. */
  lemma ContainsInSuffix(a: string, b: string, x: string)
    requires Contains(b, x)
    ensures Contains(a + b, x)
  {
    ContainsIff(b, x);
    var j: nat :| OccursAt(b, x, j);
    assert (a + b)[|a| + j..|a| + j + |x|] == b[j..j + |x|];
    assert OccursAt(a + b, x, |a| + j);
    ContainsIff(a + b, x);
  }

  /** A concatenation starts with its first part. */
  lemma StartsWithPrefix(p: string, rest: string)
    ensures StartsWith(p + rest, p)
  {
    MatchAtIff(p + rest, p, 0);
    assert (p + rest)[0..|p|] == p;
  }

  /** A concatenation of four parts starts with the first. */
  lemma StartsWithHead(a: string, b: string, c: string, d: string)
    ensures StartsWith(a + b + c + d, a)
  {
    assert a + b + c + d == a + (b + c + d);
    StartsWithPrefix(a, b + c + d);
  }

  /** Text contained in `a` is contained in anything that starts with `a`. */
  lemma ContainsInPrefix(a: string, b: string, x: string)
    requires Contains(a, x)
    ensures Contains(a + b, x)
  {
    ContainsIff(a, x);
    var j: nat :| OccursAt(a, x, j);
    assert (a + b)[j..j + |x|] == a[j..j + |x|];
    assert OccursAt(a + b, x, j);
    ContainsIff(a + b, x);
  }

  /** Text contained in `a` is contained in `a + b + c`. */
  lemma ContainsInHead(a: string, b: string, c: string, x: string)
    requires Contains(a, x)
    ensures Contains(a + b + c, x)
  {
    ContainsInPrefix(a, b, x);
    ContainsInPrefix(a + b, c, x);
  }

  /** Some pattern of `ps` at index `k` or later is contained in `s`. */
  predicate AnyFrom(s: string, ps: seq<string>, k: nat)
    decreases |ps| - k
  {
    k < |ps| && (Contains(s, ps[k]) || AnyFrom(s, ps, k + 1))
  }

  /** `any(kw in s for kw in ps)`. */
  predicate ContainsAny(s: string, ps: seq<string>) { AnyFrom(s, ps, 0) }

  lemma {:induction false} AnyFromIff(s: string, ps: seq<string>, k: nat)
    ensures AnyFrom(s, ps, k) <==> exists j :: k <= j < |ps| && Contains(s, ps[j])
    decreases |ps| - k
  {
    if k < |ps| {
      AnyFromIff(s, ps, k + 1);
    }
  }

  lemma ContainsAnyIff(s: string, ps: seq<string>)
    ensures ContainsAny(s, ps) <==> exists j :: 0 <= j < |ps| && Contains(s, ps[j])
  {
    AnyFromIff(s, ps, 0);
  }

  /** `s.startswith(p)`. */
  predicate StartsWith(s: string, p: string) { MatchAt(s, p, 0) }

  // ---------------------------------------------------------------------
  // find / rfind of one character
  // ---------------------------------------------------------------------

  function FindFrom(s: string, c: char, i: nat): (r: int)
    requires i <= |s|
    ensures r == -1 || (i <= r < |s| && s[r] == c)
    ensures r == -1 ==> forall j | i <= j < |s| :: s[j] != c
    ensures r != -1 ==> forall j | i <= j < r :: s[j] != c
    decreases |s| - i
  {
    if i == |s| then -1 else if s[i] == c then i else FindFrom(s, c, i + 1)
  }

  /** `s.find(c)`: the first index of `c`, or -1. */
  function Find(s: string, c: char): (r: int)
    ensures r == -1 <==> c !in s
    ensures r != -1 ==> 0 <= r < |s| && s[r] == c && c !in s[..r]
  {
    FindFrom(s, c, 0)
  }

  function RFindBelow(s: string, c: char, n: nat): (r: int)
    requires n <= |s|
    ensures r == -1 || (0 <= r < n && s[r] == c)
    ensures r == -1 ==> forall j | 0 <= j < n :: s[j] != c
    ensures r != -1 ==> forall j | r < j < n :: s[j] != c
  {
    if n == 0 then -1 else if s[n - 1] == c then n - 1 else RFindBelow(s, c, n - 1)
  }

  /** `s.rfind(c)`: the last index of `c`, or -1. */
  function RFind(s: string, c: char): (r: int)
    ensures r == -1 <==> c !in s
    ensures r != -1 ==> 0 <= r < |s| && s[r] == c && c !in s[r + 1..]
  {
    RFindBelow(s, c, |s|)
  }

  // ---------------------------------------------------------------------
  // strip / split / join
  // ---------------------------------------------------------------------

  function SkipSpaces(s: string, i: nat): (r: nat)
    requires i <= |s|
    ensures i <= r <= |s|
    ensures forall j | i <= j < r :: IsSpace(s[j])
    ensures r == |s| || !IsSpace(s[r])
    decreases |s| - i
  {
    if i < |s| && IsSpace(s[i]) then SkipSpaces(s, i + 1) else i
  }

  function TrimEnd(s: string, n: nat): (r: nat)
    requires n <= |s|
    ensures r <= n
    ensures forall j | r <= j < n :: IsSpace(s[j])
    ensures r == 0 || !IsSpace(s[r - 1])
  {
    if n > 0 && IsSpace(s[n - 1]) then TrimEnd(s, n - 1) else n
  }

  /** `s.strip()`: the slice without leading and trailing whitespace. */
  function Strip(s: string): (r: string)
    ensures |r| <= |s|
    ensures r == [] || (!IsSpace(r[0]) && !IsSpace(r[|r| - 1]))
    ensures (forall j | 0 <= j < |s| :: IsSpace(s[j])) <==> r == []
    ensures forall x | x in r :: x in s
  {
    var a := SkipSpaces(s, 0);
    if a == |s| then [] else
      var b := TrimEnd(s, |s|);
      assert !IsSpace(s[a]);
      assert a < b;
      s[a..b]
  }

  /** Index of the first whitespace character at or after `i`, or `|s|`. */
  function TokenEnd(s: string, i: nat): (r: nat)
    requires i <= |s|
    ensures i <= r <= |s|
    ensures forall j | i <= j < r :: !IsSpace(s[j])
    ensures r == |s| || IsSpace(s[r])
    decreases |s| - i
  {
    if i < |s| && !IsSpace(s[i]) then TokenEnd(s, i + 1) else i
  }

  function TokensFrom(s: string, i: nat): (r: seq<string>)
    requires i <= |s|
    ensures forall k | 0 <= k < |r| :: r[k] != [] && forall j | 0 <= j < |r[k]| :: !IsSpace(r[k][j])
    decreases |s| - i
  {
    var a := SkipSpaces(s, i);
    if a == |s| then []
    else
      var b := TokenEnd(s, a);
      [s[a..b]] + TokensFrom(s, b)
  }

  /** `s.split()`: the maximal runs of non-whitespace characters. */
  function Tokens(s: string): (r: seq<string>)
    ensures forall k | 0 <= k < |r| :: r[k] != [] && forall j | 0 <= j < |r[k]| :: !IsSpace(r[k][j])
  {
    TokensFrom(s, 0)
  }

  /** `sep.join(parts)`. */
  function Join(parts: seq<string>, sep: string): (r: string)
    ensures |parts| == 1 ==> r == parts[0]
  {
    if |parts| == 0 then ""
    else if |parts| == 1 then parts[0]
    else parts[0] + sep + Join(parts[1..], sep)
  }

  /** Every part is contained in the joined text. */
  lemma {:induction false} JoinContains(parts: seq<string>, sep: string, k: nat)
    requires k < |parts|
    ensures Contains(Join(parts, sep), parts[k])
    decreases |parts|
  {
    if |parts| == 1 {
      assert Join(parts, sep) == [] + parts[0] + [];
      ContainsMiddle([], parts[0], []);
    } else if k == 0 {
      assert Join(parts, sep) == [] + parts[0] + (sep + Join(parts[1..], sep));
      ContainsMiddle([], parts[0], sep + Join(parts[1..], sep));
    } else {
      JoinContains(parts[1..], sep, k - 1);
      assert Join(parts, sep) == (parts[0] + sep) + Join(parts[1..], sep);
      ContainsInSuffix(parts[0] + sep, Join(parts[1..], sep), parts[k]);
    }
  }

  // ---------------------------------------------------------------------
  // String order
  // ---------------------------------------------------------------------

  /** Python's `a <= b` on strings: lexicographic by code point, a prefix first. */
  predicate StrLe(a: string, b: string)
    decreases |a|
  {
    a == [] || (b != [] && (a[0] < b[0] || (a[0] == b[0] && StrLe(a[1..], b[1..]))))
  }

  lemma {:induction false} StrLeTotal(a: string, b: string)
    ensures StrLe(a, b) || StrLe(b, a)
    decreases |a|
  {
    if a != [] && b != [] && a[0] == b[0] {
      StrLeTotal(a[1..], b[1..]);
    }
  }

  lemma {:induction false} StrLeTransitive(a: string, b: string, c: string)
    requires StrLe(a, b) && StrLe(b, c)
    ensures StrLe(a, c)
    decreases |a|
  {
    if a != [] && a[0] == b[0] && b[0] == c[0] {
      StrLeTransitive(a[1..], b[1..], c[1..]);
    }
  }

  lemma {:induction false} StrLeAntisymmetric(a: string, b: string)
    requires StrLe(a, b) && StrLe(b, a)
    ensures a == b
    decreases |a|
  {
    if a != [] {
      StrLeAntisymmetric(a[1..], b[1..]);
      assert a == [a[0]] + a[1..] && b == [b[0]] + b[1..];
    }
  }

  /** `"".join(f(x) for x in s)`. */
  function ConcatMap<T>(s: seq<T>, f: T -> string): string {
    if s == [] then "" else ConcatMap(s[..|s| - 1], f) + f(s[|s| - 1])
  }

  lemma ConcatMapAppend<T>(s: seq<T>, x: T, f: T -> string)
    ensures ConcatMap(s + [x], f) == ConcatMap(s, f) + f(x)
  {
    assert (s + [x])[..|s|] == s;
  }

  /** `"".join(f(i, x) for i, x in enumerate(s, start))`. */
  function Enumerated<T>(s: seq<T>, f: (nat, T) -> string, start: nat): string {
    if s == [] then "" else Enumerated(s[..|s| - 1], f, start) + f(start + |s| - 1, s[|s| - 1])
  }

  lemma EnumeratedAppend<T>(s: seq<T>, x: T, f: (nat, T) -> string, start: nat)
    ensures Enumerated(s + [x], f, start) == Enumerated(s, f, start) + f(start + |s|, x)
  {
    assert (s + [x])[..|s|] == s;
  }

  /** Every element's entry, numbered by its position, is part of the enumeration. */
  lemma {:induction false} EnumeratedContains<T>(s: seq<T>, f: (nat, T) -> string, start: nat, k: nat)
    requires k < |s|
    ensures Contains(Enumerated(s, f, start), f(start + k, s[k]))
    decreases |s|
  {
    var init := s[..|s| - 1];
    if k == |s| - 1 {
      ContainsMiddle(Enumerated(init, f, start), f(start + k, s[k]), []);
      assert Enumerated(init, f, start) + f(start + k, s[k]) + [] == Enumerated(s, f, start);
    } else {
      assert init[k] == s[k];
      EnumeratedContains(init, f, start, k);
      ContainsInPrefix(Enumerated(init, f, start), f(start + |s| - 1, s[|s| - 1]), f(start + k, s[k]));
    }
  }

  /** The digits of `s[i..]`, in order. */
  function DigitsFrom(s: string, i: nat): (r: string)
    requires i <= |s|
    ensures |r| <= |s| - i
    ensures forall j | 0 <= j < |r| :: IsDigit(r[j])
    decreases |s| - i
  {
    if i == |s| then [] else (if IsDigit(s[i]) then [s[i]] else []) + DigitsFrom(s, i + 1)
  }

  /** `re.sub(r'\D', '', s)`: the digits of `s`, in order. */
  function DigitsOnly(s: string): (r: string)
    ensures |r| <= |s|
    ensures forall j | 0 <= j < |r| :: IsDigit(r[j])
  {
    DigitsFrom(s, 0)
  }

  /** A suffix made only of digits is kept as it is. */
  lemma {:induction false} DigitsFromOfDigits(s: string, i: nat)
    requires i <= |s|
    requires forall j | i <= j < |s| :: IsDigit(s[j])
    ensures DigitsFrom(s, i) == s[i..]
    decreases |s| - i
  {
    if i < |s| {
      DigitsFromOfDigits(s, i + 1);
      assert s[i..] == [s[i]] + s[i + 1..];
    }
  }

  /** The digits of a concatenation are the digits of its parts. */
  lemma {:induction false} DigitsFromConcat(a: string, b: string, i: nat)
    requires i <= |a|
    ensures DigitsFrom(a + b, i) == DigitsFrom(a, i) + DigitsOnly(b)
    decreases |a| - i
  {
    if i == |a| {
      DigitsFromShift(a, b, 0);
    } else {
      DigitsFromConcat(a, b, i + 1);
      var piece := if IsDigit(a[i]) then [a[i]] else [];
      assert DigitsFrom(a + b, i) == piece + DigitsFrom(a + b, i + 1) by { assert (a + b)[i] == a[i]; }
      assert DigitsFrom(a, i) == piece + DigitsFrom(a, i + 1);
      assert piece + (DigitsFrom(a, i + 1) + DigitsOnly(b)) == (piece + DigitsFrom(a, i + 1)) + DigitsOnly(b);
    }
  }

  lemma {:induction false} DigitsFromShift(a: string, b: string, k: nat)
    requires k <= |b|
    ensures DigitsFrom(a + b, |a| + k) == DigitsFrom(b, k)
    decreases |b| - k
  {
    if k < |b| {
      DigitsFromShift(a, b, k + 1);
    }
  }

  lemma DigitsOnlyConcat(a: string, b: string)
    ensures DigitsOnly(a + b) == DigitsOnly(a) + DigitsOnly(b)
  {
    DigitsFromConcat(a, b, 0);
  }

  /** Number of ASCII digits in `s`. */
  function DigitCount(s: string): (r: nat)
    ensures r <= |s|
    ensures r == 0 <==> forall j | 0 <= j < |s| :: !IsDigit(s[j])
  {
    if s == [] then 0 else (if IsDigit(s[0]) then 1 else 0) + DigitCount(s[1..])
  }

  // ---------------------------------------------------------------------
  // Decimal numbers
  // ---------------------------------------------------------------------

  predicate AllDigits(s: string) { forall j | 0 <= j < |s| :: IsDigit(s[j]) }

  function DigitChar(d: nat): (c: char)
    requires d < 10
    ensures IsDigit(c)
  {
    ('0' as int + d) as char
  }

  /** `int(s)` for a string of digits. */
  function ParseNat(s: string): nat
    requires AllDigits(s)
  {
    if s == [] then 0 else ParseNat(s[..|s| - 1]) * 10 + (s[|s| - 1] as int - '0' as int)
  }

  /** `str(n)` for a natural number. */
  function NatToString(n: nat): (r: string)
    ensures r != [] && AllDigits(r)
  {
    if n < 10 then [DigitChar(n)] else NatToString(n / 10) + [DigitChar(n % 10)]
  }

  lemma {:induction false} ParseNatToString(n: nat)
    ensures ParseNat(NatToString(n)) == n
  {
    if n >= 10 {
      var s := NatToString(n);
      assert s[..|s| - 1] == NatToString(n / 10);
      ParseNatToString(n / 10);
    }
  }

  /** `str(i)` for an integer. */
  function IntToString(i: int): (r: string)
    ensures r != []
  {
    if i < 0 then "-" + NatToString(-i) else NatToString(i)
  }

  /** `n` with exactly three digits, zero-padded. */
  function Pad3(n: nat): (r: string)
    requires n < 1000
    ensures |r| == 3 && AllDigits(r)
  {
    [DigitChar(n / 100), DigitChar(n / 10 % 10), DigitChar(n % 10)]
  }

  /** `f"{n:,}"` with the comma replaced by `sep`. */
  function Grouped(n: nat, sep: string): (r: string)
    ensures r != []
  {
    if n < 1000 then NatToString(n) else Grouped(n / 1000, sep) + sep + Pad3(n % 1000)
  }

  /** `f"{i:,}"` with the comma replaced by `sep`, for any integer. */
  function IntGrouped(i: int, sep: string): (r: string)
    ensures r != []
  {
    if i < 0 then "-" + Grouped(-i, sep) else Grouped(i, sep)
  }
}

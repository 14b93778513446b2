/**
 * List operations the catalogue code relies on: order-preserving filtering
 * (list comprehensions), Python's stable `sorted` over an integer key, and the
 * "first n distinct by key" loop the ranking code repeats.
 */
module Sequences {

  // ---------------------------------------------------------------------
  // Subsequences
  // ---------------------------------------------------------------------

  /** `a` is `b` with some elements removed, order kept. */
  predicate IsSubsequence<T(==)>(a: seq<T>, b: seq<T>)
    decreases |b|
  {
    if a == [] then true
    else if b == [] then false
    else if a[0] == b[0] then IsSubsequence(a[1..], b[1..])
    else IsSubsequence(a, b[1..])
  }

  lemma {:induction false} SubsequenceMembers<T>(a: seq<T>, b: seq<T>)
    requires IsSubsequence(a, b)
    ensures |a| <= |b|
    ensures forall x | x in a :: x in b
    decreases |b|
  {
    if a != [] && b != [] {
      if a[0] == b[0] {
        SubsequenceMembers(a[1..], b[1..]);
        assert forall x | x in a :: x == a[0] || x in a[1..];
      } else {
        SubsequenceMembers(a, b[1..]);
      }
    }
  }

  lemma {:induction false} SubsequenceOfSelf<T>(a: seq<T>)
    ensures IsSubsequence(a, a)
    decreases |a|
  {
    if a != [] {
      SubsequenceOfSelf(a[1..]);
    }
  }

  /** The empty list and a prefix are subsequences. */
  lemma {:induction false} PrefixIsSubsequence<T>(a: seq<T>, n: nat)
    requires n <= |a|
    ensures IsSubsequence(a[..n], a)
    decreases |a|
  {
    if n > 0 {
      PrefixIsSubsequence(a[1..], n - 1);
      assert a[..n][1..] == a[1..][..n - 1];
    }
  }

  lemma {:induction false} SubsequenceTransitive<T>(a: seq<T>, b: seq<T>, c: seq<T>)
    requires IsSubsequence(a, b) && IsSubsequence(b, c)
    ensures IsSubsequence(a, c)
    decreases |c|
  {
    if a != [] && b != [] && c != [] {
      if b[0] == c[0] {
        if a[0] == b[0] {
          SubsequenceTransitive(a[1..], b[1..], c[1..]);
        } else {
          SubsequenceTransitive(a, b[1..], c[1..]);
        }
      } else {
        SubsequenceTransitive(a, b, c[1..]);
        if a[0] == c[0] {
          SubsequenceSkipHead(a, c[1..]);
        }
      }
    }
  }

  // ---------------------------------------------------------------------
  // Filtering: `[x for x in s if p(x)]`
  // ---------------------------------------------------------------------

  function Filter<T(==)>(s: seq<T>, p: T -> bool): (r: seq<T>)
    ensures |r| <= |s|
    ensures forall x | x in r :: x in s && p(x)
    ensures forall x | x in s && p(x) :: x in r
  {
    if s == [] then [] else (if p(s[0]) then [s[0]] else []) + Filter(s[1..], p)
  }

  lemma {:induction false} FilterIsSubsequence<T>(s: seq<T>, p: T -> bool)
    ensures IsSubsequence(Filter(s, p), s)
    decreases |s|
  {
    if s != [] {
      FilterIsSubsequence(s[1..], p);
      if p(s[0]) {
        assert Filter(s, p) == [s[0]] + Filter(s[1..], p);
        assert (Filter(s, p))[1..] == Filter(s[1..], p);
      } else {
        assert Filter(s, p) == Filter(s[1..], p);
        SkipOne(Filter(s[1..], p), s);
      }
    }
  }

  /** A subsequence of the tail is a subsequence of the whole list. */
  lemma {:induction false} SkipOne<T>(a: seq<T>, b: seq<T>)
    requires b != [] && IsSubsequence(a, b[1..])
    ensures IsSubsequence(a, b)
    decreases |b|, |a|
  {
    if a != [] && a[0] == b[0] {
      SubsequenceSkipHead(a, b[1..]);
    }
  }

  /** Dropping the first element of a subsequence keeps it a subsequence. */
  lemma {:induction false} SubsequenceSkipHead<T>(a: seq<T>, b: seq<T>)
    requires a != [] && IsSubsequence(a, b)
    ensures IsSubsequence(a[1..], b)
    decreases |b|, |a|
  {
    if a[0] == b[0] {
      SkipOne(a[1..], b);
    } else {
      SubsequenceSkipHead(a, b[1..]);
      SkipOne(a[1..], b);
    }
  }

  /** A filter with a condition that holds of every element keeps the list. */
  lemma {:induction false} FilterAll<T>(s: seq<T>, p: T -> bool)
    requires forall x | x in s :: p(x)
    ensures Filter(s, p) == s
    decreases |s|
  {
    if s != [] {
      FilterAll(s[1..], p);
    }
  }

  /** A filter is empty exactly when no element meets the condition. */
  lemma FilterEmpty<T>(s: seq<T>, p: T -> bool)
    ensures Filter(s, p) == [] <==> forall x | x in s :: !p(x)
  {
    var r := Filter(s, p);
    if r != [] {
      assert r[0] in r;
    }
  }

  /** Filtering a list extended by one element. */
  lemma {:induction false} FilterAppend<T>(s: seq<T>, x: T, p: T -> bool)
    ensures Filter(s + [x], p) == Filter(s, p) + (if p(x) then [x] else [])
    decreases |s|
  {
    if s == [] {
      assert [x][1..] == [];
    } else {
      assert (s + [x])[1..] == s[1..] + [x];
      FilterAppend(s[1..], x, p);
    }
  }

  /** Filtering twice with the same condition is filtering once. */
  lemma FilterIdempotent<T>(s: seq<T>, p: T -> bool)
    ensures Filter(Filter(s, p), p) == Filter(s, p)
  {
    FilterAll(Filter(s, p), p);
  }

  /** Two conditions that agree on every element filter alike. */
  lemma {:induction false} FilterCongruent<T>(s: seq<T>, p: T -> bool, q: T -> bool)
    requires forall x | x in s :: p(x) == q(x)
    ensures Filter(s, p) == Filter(s, q)
    decreases |s|
  {
    if s != [] {
      FilterCongruent(s[1..], p, q);
    }
  }

  // ---------------------------------------------------------------------
  // Stable insertion sort under a total comparison
  // ---------------------------------------------------------------------

  /** Any two values are comparable one way or the other, and the comparison is transitive. */
  ghost predicate Total<T(!new)>(le: (T, T) -> bool) {
    (forall a: T, b: T :: le(a, b) || le(b, a))
    && (forall a: T, b: T, c: T :: le(a, b) && le(b, c) ==> le(a, c))
  }

  predicate SortedWith<T>(s: seq<T>, le: (T, T) -> bool) {
    forall i, j | 0 <= i < j < |s| :: le(s[i], s[j])
  }

  /** Inserts `x` before the first element it does not come after. */
  function InsertWith<T>(x: T, s: seq<T>, le: (T, T) -> bool): (r: seq<T>)
    ensures |r| == |s| + 1
  {
    if s == [] then [x]
    else if le(x, s[0]) then [x] + s
    else [s[0]] + InsertWith(x, s[1..], le)
  }

  /** Python's `sorted`: insertion sort, stable for equal elements. */
  function SortWith<T>(s: seq<T>, le: (T, T) -> bool): (r: seq<T>)
    ensures |r| == |s|
  {
    if s == [] then [] else InsertWith(s[0], SortWith(s[1..], le), le)
  }

  lemma {:induction false} InsertMultiset<T>(x: T, s: seq<T>, le: (T, T) -> bool)
    ensures multiset(InsertWith(x, s, le)) == multiset(s) + multiset{x}
    decreases |s|
  {
    if s != [] && !le(x, s[0]) {
      InsertMultiset(x, s[1..], le);
      assert s == [s[0]] + s[1..];
    }
  }

  lemma {:induction false} InsertSorted<T(!new)>(x: T, s: seq<T>, le: (T, T) -> bool)
    requires Total(le) && SortedWith(s, le)
    ensures SortedWith(InsertWith(x, s, le), le)
    decreases |s|
  {
    if s != [] && le(x, s[0]) {
      forall k | 0 <= k < |s| ensures le(x, s[k]) {
        if k > 0 {
          assert le(s[0], s[k]);
        }
      }
    } else if s != [] {
      InsertSorted(x, s[1..], le);
      var t := InsertWith(x, s[1..], le);
      InsertMultiset(x, s[1..], le);
      assert le(s[0], x) by {
        assert le(x, s[0]) || le(s[0], x);
      }
      forall k | 0 <= k < |t| ensures le(s[0], t[k]) {
        assert t[k] in multiset(t);
        if t[k] != x {
          assert t[k] in multiset(s[1..]);
          var m :| 0 <= m < |s[1..]| && s[1..][m] == t[k];
          assert s[m + 1] == t[k];
        }
      }
    }
  }

  /** `SortWith` orders by the comparison and is a permutation of its input. */
  lemma {:induction false} SortWithCorrect<T(!new)>(s: seq<T>, le: (T, T) -> bool)
    requires Total(le)
    ensures SortedWith(SortWith(s, le), le)
    ensures multiset(SortWith(s, le)) == multiset(s)
    decreases |s|
  {
    SortWithMultiset(s, le);
    if s != [] {
      SortWithCorrect(s[1..], le);
      InsertSorted(s[0], SortWith(s[1..], le), le);
    }
  }

  /** Sorting keeps exactly the elements of the input (permutation, without the totality requirement). */
  lemma {:induction false} SortWithMultiset<T>(s: seq<T>, le: (T, T) -> bool)
    ensures multiset(SortWith(s, le)) == multiset(s)
    decreases |s|
  {
    if s != [] {
      SortWithMultiset(s[1..], le);
      InsertMultiset(s[0], SortWith(s[1..], le), le);
      assert s == [s[0]] + s[1..];
    }
  }

  /** Filtering a list with a first element. */
  lemma FilterCons<T>(x: T, s: seq<T>, p: T -> bool)
    ensures Filter([x] + s, p) == (if p(x) then [x] else []) + Filter(s, p)
  {
    assert ([x] + s)[0] == x && ([x] + s)[1..] == s;
  }

  /**
   * Inserting `x` keeps the order of the elements a condition selects, when
   * the comparison holds between any two of them: `x` lands before every
   * such element.
   */
  lemma {:induction false} InsertStable<T>(x: T, s: seq<T>, le: (T, T) -> bool, p: T -> bool)
    requires forall a, b | p(a) && p(b) :: le(a, b)
    ensures Filter(InsertWith(x, s, le), p) == (if p(x) then [x] else []) + Filter(s, p)
    decreases |s|
  {
    if s == [] {
      FilterCons(x, [], p);
    } else if le(x, s[0]) {
      FilterCons(x, s, p);
    } else {
      InsertStable(x, s[1..], le, p);
      FilterCons(s[0], InsertWith(x, s[1..], le), p);
      assert s == [s[0]] + s[1..];
      FilterCons(s[0], s[1..], p);
      assert p(x) ==> !p(s[0]);
    }
  }

  /**
   * Stability: among elements any two of which compare both ways, as those
   * a condition selects, sorting keeps the input order.
   */
  lemma {:induction false} SortWithStable<T>(s: seq<T>, le: (T, T) -> bool, p: T -> bool)
    requires forall a, b | p(a) && p(b) :: le(a, b)
    ensures Filter(SortWith(s, le), p) == Filter(s, p)
    decreases |s|
  {
    if s != [] {
      SortWithStable(s[1..], le, p);
      InsertStable(s[0], SortWith(s[1..], le), le, p);
      assert s == [s[0]] + s[1..];
      FilterCons(s[0], s[1..], p);
    }
  }

  lemma SortWithMembers<T>(s: seq<T>, le: (T, T) -> bool)
    ensures forall x | x in SortWith(s, le) :: x in s
    ensures forall x | x in s :: x in SortWith(s, le)
  {
    SortWithMultiset(s, le);
    forall x | x in SortWith(s, le) ensures x in s {
      assert x in multiset(SortWith(s, le));
    }
    forall x | x in s ensures x in SortWith(s, le) {
      assert x in multiset(s);
    }
  }

  // ---------------------------------------------------------------------
  // Sorting by an integer pair, compared lexicographically
  // ---------------------------------------------------------------------

  predicate KeyLe(a: (int, int), b: (int, int)) { a.0 < b.0 || (a.0 == b.0 && a.1 <= b.1) }

  function ByKey<T>(key: T -> (int, int)): (T, T) -> bool {
    (a: T, b: T) => KeyLe(key(a), key(b))
  }

  lemma ByKeyApply<T>(key: T -> (int, int), a: T, b: T)
    ensures ByKey(key)(a, b) == KeyLe(key(a), key(b))
  {
  }

  lemma ByKeyTotal<T(!new)>(key: T -> (int, int))
    ensures Total(ByKey(key))
  {
  }

  predicate SortedBy<T>(s: seq<T>, key: T -> (int, int)) {
    SortedWith(s, ByKey(key))
  }

  /** `sorted(s, key=key)`. */
  function SortBy<T>(s: seq<T>, key: T -> (int, int)): (r: seq<T>)
    ensures |r| == |s|
  {
    SortWith(s, ByKey(key))
  }

  lemma SortByCorrect<T(!new)>(s: seq<T>, key: T -> (int, int))
    ensures SortedBy(SortBy(s, key), key)
    ensures multiset(SortBy(s, key)) == multiset(s)
  {
    ByKeyTotal(key);
    SortWithCorrect(s, ByKey(key));
  }

  lemma SortByMembers<T>(s: seq<T>, key: T -> (int, int))
    ensures forall x | x in SortBy(s, key) :: x in s
    ensures forall x | x in s :: x in SortBy(s, key)
  {
    SortWithMembers(s, ByKey(key));
  }

  /** The condition "has key `k`". */
  function KeyIs<T>(key: T -> (int, int), k: (int, int)): T -> bool {
    (x: T) => key(x) == k
  }

  /** `sorted(..., key=...)` is stable: the elements with one key keep their input order. */
  lemma SortByStable<T>(s: seq<T>, key: T -> (int, int))
    ensures forall k :: Filter(SortBy(s, key), KeyIs(key, k)) == Filter(s, KeyIs(key, k))
  {
    forall k ensures Filter(SortBy(s, key), KeyIs(key, k)) == Filter(s, KeyIs(key, k)) {
      SortWithStable(s, ByKey(key), KeyIs(key, k));
    }
  }

  lemma PrefixStep<T>(s: seq<T>, i: nat)
    requires i < |s|
    ensures s[..i + 1] == s[..i] + [s[i]]
  {
  }

  /** A subsequence of a sorted list is sorted. */
  lemma {:induction false} SubsequenceOfSorted<T>(a: seq<T>, b: seq<T>, le: (T, T) -> bool)
    requires IsSubsequence(a, b) && SortedWith(b, le)
    ensures SortedWith(a, le)
    decreases |b|
  {
    if a != [] && b != [] {
      assert SortedWith(b[1..], le) by {
        forall i, j | 0 <= i < j < |b[1..]| ensures le(b[1..][i], b[1..][j]) {
          assert b[1..][i] == b[i + 1] && b[1..][j] == b[j + 1];
        }
      }
      if a[0] == b[0] {
        SubsequenceOfSorted(a[1..], b[1..], le);
        SubsequenceMembers(a[1..], b[1..]);
        forall j | 0 < j < |a| ensures le(a[0], a[j]) {
          assert a[j] == a[1..][j - 1];
          assert a[j] in b[1..];
          var m :| 0 <= m < |b[1..]| && b[1..][m] == a[j];
          assert b[m + 1] == a[j];
        }
        forall i, j | 0 <= i < j < |a| ensures le(a[i], a[j]) {
          if i > 0 {
            assert a[i] == a[1..][i - 1] && a[j] == a[1..][j - 1];
          }
        }
      } else {
        SubsequenceOfSorted(a, b[1..], le);
      }
    }
  }

  // ---------------------------------------------------------------------
  // The first `n` elements with distinct keys
  // ---------------------------------------------------------------------

  /**
   * The loop "append `x` when its key is not yet seen, stop once `n` were
   * appended" over `s`, with `seen` the keys already taken.
   */
  function DistinctFrom<T(==), K(==)>(s: seq<T>, key: T -> K, seen: set<K>, n: nat): seq<T>
  {
    if n == 0 || s == [] then []
    else if key(s[0]) in seen then DistinctFrom(s[1..], key, seen, n)
    else [s[0]] + DistinctFrom(s[1..], key, seen + {key(s[0])}, n - 1)
  }

  /** One step of the loop that `DistinctFrom` stands for. */
  lemma DistinctFromCons<T, K>(x: T, rest: seq<T>, key: T -> K, seen: set<K>, n: nat)
    ensures DistinctFrom([x] + rest, key, seen, n)
         == if n == 0 then []
            else if key(x) in seen then DistinctFrom(rest, key, seen, n)
            else [x] + DistinctFrom(rest, key, seen + {key(x)}, n - 1)
  {
    assert ([x] + rest)[0] == x && ([x] + rest)[1..] == rest;
  }

  /** Keys of the elements are pairwise distinct. */
  predicate DistinctKeys<T(==), K(==)>(s: seq<T>, key: T -> K) {
    forall i, j | 0 <= i < j < |s| :: key(s[i]) != key(s[j])
  }

  lemma {:induction false} DistinctFromProperties<T, K>(s: seq<T>, key: T -> K, seen: set<K>, n: nat)
    ensures |DistinctFrom(s, key, seen, n)| <= n
    ensures IsSubsequence(DistinctFrom(s, key, seen, n), s)
    ensures DistinctKeys(DistinctFrom(s, key, seen, n), key)
    ensures forall x | x in DistinctFrom(s, key, seen, n) :: key(x) !in seen
    ensures n > 0 && (exists x | x in s :: key(x) !in seen) ==> DistinctFrom(s, key, seen, n) != []
    decreases |s|
  {
    var r := DistinctFrom(s, key, seen, n);
    if n > 0 && s != [] {
      if key(s[0]) in seen {
        DistinctFromProperties(s[1..], key, seen, n);
        SkipOne(r, s);
        if exists x | x in s :: key(x) !in seen {
          var x :| x in s && key(x) !in seen;
          assert x in s[1..];
        }
      } else {
        var t := DistinctFrom(s[1..], key, seen + {key(s[0])}, n - 1);
        DistinctFromProperties(s[1..], key, seen + {key(s[0])}, n - 1);
        assert r == [s[0]] + t;
        assert r[1..] == t;
        forall i, j | 0 <= i < j < |r| ensures key(r[i]) != key(r[j]) {
          if i == 0 {
            assert r[j] == t[j - 1];
            assert r[j] in t;
          } else {
            assert r[i] == t[i - 1] && r[j] == t[j - 1];
          }
        }
        forall x | x in r ensures key(x) !in seen {
          if x != s[0] {
            assert x in t;
          }
        }
      }
    }
  }

  /** When fewer than `n` were taken, every key of `s` is either in `seen` or taken. */
  lemma {:induction false} DistinctFromComplete<T, K>(s: seq<T>, key: T -> K, seen: set<K>, n: nat)
    requires |DistinctFrom(s, key, seen, n)| < n
    ensures forall x | x in s :: key(x) in seen || exists y | y in DistinctFrom(s, key, seen, n) :: key(y) == key(x)
    decreases |s|
  {
    if s != [] {
      var r := DistinctFrom(s, key, seen, n);
      if key(s[0]) in seen {
        DistinctFromComplete(s[1..], key, seen, n);
        forall x | x in s ensures key(x) in seen || exists y | y in r :: key(y) == key(x) {
          if x != s[0] {
            assert x in s[1..];
          }
        }
      } else {
        var t := DistinctFrom(s[1..], key, seen + {key(s[0])}, n - 1);
        DistinctFromComplete(s[1..], key, seen + {key(s[0])}, n - 1);
        assert r == [s[0]] + t;
        forall x | x in s ensures key(x) in seen || exists y | y in r :: key(y) == key(x) {
          if key(x) == key(s[0]) {
            assert s[0] in r;
          } else if x != s[0] {
            assert x in s[1..];
            if exists y | y in t :: key(y) == key(x) {
              var y :| y in t && key(y) == key(x);
              assert y in r;
            }
          }
        }
      }
    }
  }

  /**
   * The taken elements are the first `n` with new keys: an element of a
   * sorted `s` whose key is neither seen nor taken is left behind only when
   * `n` were taken, and it comes no earlier than the last of them.
   */
  lemma {:induction false} DistinctFromLeftBehind<T, K>(s: seq<T>, key: T -> K, seen: set<K>, n: nat, le: (T, T) -> bool)
    requires SortedWith(s, le)
    ensures var r := DistinctFrom(s, key, seen, n);
      forall x | x in s && key(x) !in seen && (forall y | y in r :: key(y) != key(x)) ::
        |r| == n && (n > 0 ==> le(r[|r| - 1], x))
    decreases |s|
  {
    if n > 0 && s != [] {
      var r := DistinctFrom(s, key, seen, n);
      assert SortedWith(s[1..], le) by {
        forall i, j | 0 <= i < j < |s[1..]| ensures le(s[1..][i], s[1..][j]) {
          assert s[1..][i] == s[i + 1] && s[1..][j] == s[j + 1];
        }
      }
      if key(s[0]) in seen {
        DistinctFromLeftBehind(s[1..], key, seen, n, le);
        forall x | x in s && key(x) !in seen ensures x in s[1..] {
          assert x != s[0];
        }
      } else {
        var seen' := seen + {key(s[0])};
        var t := DistinctFrom(s[1..], key, seen', n - 1);
        DistinctFromLeftBehind(s[1..], key, seen', n - 1, le);
        assert r == [s[0]] + t;
        forall x | x in s && key(x) !in seen && (forall y | y in r :: key(y) != key(x))
          ensures |r| == n && le(r[|r| - 1], x)
        {
          assert s[0] in r;
          assert x in s[1..];
          var m :| 0 <= m < |s[1..]| && s[1..][m] == x;
          assert s[m + 1] == x;
          forall y | y in t ensures key(y) != key(x) {
            assert y in r;
          }
          if n == 1 {
            assert r == [s[0]];
          } else {
            assert r[|r| - 1] == t[|t| - 1];
          }
        }
      }
    }
  }

  // ---------------------------------------------------------------------
  // Without duplicates
  // ---------------------------------------------------------------------

  predicate NoDup<T(==)>(s: seq<T>) {
    forall i, j | 0 <= i < j < |s| :: s[i] != s[j]
  }

  /** The elements of `s` not in `seen`, each once, in first-occurrence order. */
  function DedupFrom<T(==)>(s: seq<T>, seen: set<T>): seq<T> {
    if s == [] then []
    else if s[0] in seen then DedupFrom(s[1..], seen)
    else [s[0]] + DedupFrom(s[1..], seen + {s[0]})
  }

  /** `list(dict.fromkeys(s))`; it stands for a Python set's elements before they are sorted. */
  function Dedup<T(==)>(s: seq<T>): seq<T> { DedupFrom(s, {}) }

  lemma {:induction false} DedupFromProperties<T>(s: seq<T>, seen: set<T>)
    ensures NoDup(DedupFrom(s, seen))
    ensures forall x :: x in DedupFrom(s, seen) <==> x in s && x !in seen
    decreases |s|
  {
    if s != [] {
      var r := DedupFrom(s, seen);
      if s[0] in seen {
        DedupFromProperties(s[1..], seen);
        forall x ensures x in r <==> x in s && x !in seen {
          if x in s && x != s[0] {
            assert x in s[1..];
          }
        }
      } else {
        var t := DedupFrom(s[1..], seen + {s[0]});
        DedupFromProperties(s[1..], seen + {s[0]});
        assert r == [s[0]] + t;
        forall i, j | 0 <= i < j < |r| ensures r[i] != r[j] {
          assert r[j] == t[j - 1];
          if i > 0 {
            assert r[i] == t[i - 1];
          } else {
            assert r[j] in t;
          }
        }
        forall x ensures x in r <==> x in s && x !in seen {
          if x in s && x != s[0] {
            assert x in s[1..];
          }
        }
      }
    }
  }

  lemma DedupProperties<T>(s: seq<T>)
    ensures NoDup(Dedup(s))
    ensures forall x :: x in Dedup(s) <==> x in s
  {
    DedupFromProperties(s, {});
  }

  lemma {:induction false} NoDupCount<T>(s: seq<T>, x: T)
    requires NoDup(s)
    ensures multiset(s)[x] <= 1
    decreases |s|
  {
    if s != [] {
      assert s == [s[0]] + s[1..];
      assert NoDup(s[1..]) by {
        forall i, j | 0 <= i < j < |s[1..]| ensures s[1..][i] != s[1..][j] {
          assert s[1..][i] == s[i + 1] && s[1..][j] == s[j + 1];
        }
      }
      NoDupCount(s[1..], x);
      if x == s[0] {
        assert x !in s[1..] by {
          forall k | 0 <= k < |s[1..]| ensures s[1..][k] != x {
            assert s[1..][k] == s[k + 1];
          }
        }
        assert multiset(s[1..])[x] == 0;
      }
    }
  }

  /** A permutation of a list without duplicates has none either. */
  lemma NoDupPermutation<T>(a: seq<T>, b: seq<T>)
    requires multiset(a) == multiset(b) && NoDup(b)
    ensures NoDup(a)
  {
    forall i, j | 0 <= i < j < |a| ensures a[i] != a[j] {
      if a[i] == a[j] {
        var x := a[i];
        assert a == a[..j] + a[j..];
        assert x in a[..j] && x in a[j..] by {
          assert a[..j][i] == x;
          assert a[j..][0] == x;
        }
        assert multiset(a)[x] == multiset(a[..j])[x] + multiset(a[j..])[x];
        NoDupCount(b, x);
        assert false;
      }
    }
  }
}

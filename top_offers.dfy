/**
 * `pick_top3_offers` (app/utils/catalog.py): narrows the candidates to a
 * price band, sorts them by the chosen strategy and keeps at most three.
 */
module TopOffers {
  import opened Wrappers
  import opened Sequences
  import opened Catalog

  /** The `sort_by` argument; any string other than the first two behaves as "price_mix". */
  datatype Strategy = PowerDesc | PriceDesc | PriceMix

  function StrategyOf(sortBy: string): (s: Strategy)
    ensures s == PowerDesc <==> sortBy == "power_desc"
    ensures s == PriceDesc <==> sortBy == "price_desc"
  {
    if sortBy == "power_desc" then PowerDesc
    else if sortBy == "price_desc" then PriceDesc
    else PriceMix
  }

  function StrategyName(s: Strategy): string {
    match s
    case PowerDesc => "power_desc"
    case PriceDesc => "price_desc"
    case PriceMix => "price_mix"
  }

  /** Every strategy is chosen by its own name. */
  lemma StrategyNameRoundTrip(s: Strategy)
    ensures StrategyOf(StrategyName(s)) == s
  {
  }

  // ---------------------------------------------------------------------
  // Sort and uniqueness keys
  // ---------------------------------------------------------------------

  /** Power descending, then price ascending. */
  function PowerKey(c: Car): (int, int) { (-c.power, c.finalPrice) }
  /** Price descending. */
  function PriceDescKey(c: Car): (int, int) { (-c.finalPrice, 0) }
  /** Price ascending. */
  function PriceKey(c: Car): (int, int) { (c.finalPrice, 0) }

  function Abs(x: int): nat { if x < 0 then -x else x }

  /** Distance of the price from the target, for the closest-five fallback. */
  function DistanceKey(center: int): Car -> (int, int) {
    (c: Car) => (Abs(c.finalPrice - center), 0)
  }

  function ModelKey(c: Car): string { c.model }
  function ModelTrimKey(c: Car): (string, string) { (c.model, c.trim) }

  /** `int(x * 0.10)`: a tenth, truncated toward zero. */
  function Tenth(x: int): (r: int)
    ensures Abs(r) <= Abs(x)
    ensures 0 <= x ==> 0 <= r && 10 * r <= x < 10 * r + 10
  {
    if x >= 0 then x / 10 else -((-x) / 10)
  }

  function Take<T>(s: seq<T>, n: nat): (r: seq<T>)
    ensures |r| == if |s| < n then |s| else n
    ensures forall k | 0 <= k < |r| :: r[k] == s[k]
  {
    if |s| <= n then s else s[..n]
  }

  // ---------------------------------------------------------------------
  // The price band
  // ---------------------------------------------------------------------

  predicate InBand(center: int, c: Car) {
    center - Tenth(center) <= c.finalPrice <= center + Tenth(center)
  }

  /** `final_price <= price_target * 1.2`, computed exactly. */
  predicate AtMostRelaxed(target: int, c: Car) { 5 * c.finalPrice <= 6 * target }

  function BandTest(center: int): Car -> bool { (c: Car) => InBand(center, c) }
  function UnderTest(target: int): Car -> bool { (c: Car) => c.finalPrice <= target }
  function RelaxedTest(target: int): Car -> bool { (c: Car) => AtMostRelaxed(target, c) }

  /** The approximate band, or the five closest cars when the band is empty. */
  function ApproxBand(cars: seq<Car>, center: int): seq<Car> {
    var inBand := Filter(cars, BandTest(center));
    if inBand != [] then inBand else Take(SortBy(cars, DistanceKey(center)), 5)
  }

  /** Cars not dearer than the target, else not dearer than 1.2 times it. */
  function ExactBand(cars: seq<Car>, target: int): seq<Car> {
    var under := Filter(cars, UnderTest(target));
    if under != [] then under else Filter(cars, RelaxedTest(target))
  }

  /** The list the strategy is applied to: the band, or every car when the band is empty. */
  function Pool(cars: seq<Car>, priceTarget: Option<int>, isApproximate: bool): seq<Car> {
    var band :=
      if !GivenInt(priceTarget) then cars
      else if isApproximate then ApproxBand(cars, priceTarget.value)
      else ExactBand(cars, priceTarget.value);
    if band == [] then cars else band
  }

  // ---------------------------------------------------------------------
  // The strategies
  // ---------------------------------------------------------------------

  /** Two cheapest plus the dearest, unless the dearest equals one of the two. */
  function Mix(sorted: seq<Car>): seq<Car> {
    if |sorted| <= 3 then sorted
    else
      var cheapest := sorted[..2];
      var dearest := sorted[|sorted| - 1];
      if dearest in cheapest then cheapest else cheapest + [dearest]
  }

  /** What `pick_top3_offers` returns. */
  function Top3(cars: seq<Car>, priceTarget: Option<int>, isApproximate: bool, sortBy: string): seq<Car> {
    if cars == [] then []
    else
      var pool := Pool(cars, priceTarget, isApproximate);
      match StrategyOf(sortBy)
      case PowerDesc => DistinctFrom(SortBy(pool, PowerKey), ModelKey, {}, 3)
      case PriceDesc => DistinctFrom(SortBy(pool, PriceDescKey), ModelTrimKey, {}, 3)
      case PriceMix => Mix(SortBy(pool, PriceKey))
  }

  /** The dedupe loop with its break once `n` elements were taken. */
  method TakeDistinct<T(==), K(==)>(s: seq<T>, key: T -> K, n: nat) returns (r: seq<T>)
    ensures r == DistinctFrom(s, key, {}, n)
  {
    r := [];
    var seen: set<K> := {};
    var i := 0;
    while i < |s| && |r| < n
      invariant 0 <= i <= |s| && |r| <= n
      invariant r + DistinctFrom(s[i..], key, seen, n - |r|) == DistinctFrom(s, key, {}, n)
    {
      assert s[i..][1..] == s[i + 1..];
      if key(s[i]) !in seen {
        assert r + [s[i]] + DistinctFrom(s[i + 1..], key, seen + {key(s[i])}, n - |r| - 1)
            == r + DistinctFrom(s[i..], key, seen, n - |r|);
        r := r + [s[i]];
        seen := seen + {key(s[i])};
      }
      i := i + 1;
    }
  }

  /** The price-band part of `pick_top3_offers`, with its fallbacks. */
  method PriceBand(cars: seq<Car>, priceTarget: Option<int>, isApproximate: bool) returns (filtered: seq<Car>)
    ensures filtered == Pool(cars, priceTarget, isApproximate)
  {
    filtered := cars;
    if GivenInt(priceTarget) {
      var target := priceTarget.value;
      if isApproximate {
        filtered := Filter(cars, BandTest(target));
        if filtered == [] {
          filtered := Take(SortBy(cars, DistanceKey(target)), 5);
        }
      } else {
        filtered := Filter(cars, UnderTest(target));
        if filtered == [] {
          filtered := Filter(cars, RelaxedTest(target));
        }
      }
    }
    if filtered == [] {
      filtered := cars;
    }
  }

  /** The "price_mix" branch on the price-sorted pool. */
  method MixOffers(sorted: seq<Car>) returns (offers: seq<Car>)
    ensures offers == Mix(sorted)
  {
    if |sorted| <= 3 {
      return sorted;
    }
    offers := sorted[..2];
    var dearest := sorted[|sorted| - 1];
    if dearest !in offers {
      offers := offers + [dearest];
    }
  }

  /** `pick_top3_offers`. */
  method PickTop3Offers(cars: seq<Car>, priceTarget: Option<int>, isApproximate: bool, sortBy: string)
    returns (offers: seq<Car>)
    ensures offers == Top3(cars, priceTarget, isApproximate, sortBy)
    ensures |offers| <= 3
    ensures offers != [] <==> cars != []
    ensures forall c | c in offers :: c in cars
  {
    Top3Properties(cars, priceTarget, isApproximate, sortBy);
    if cars == [] {
      return [];
    }
    var filtered := PriceBand(cars, priceTarget, isApproximate);
    var strategy := StrategyOf(sortBy);
    if strategy == PowerDesc {
      offers := TakeDistinct(SortBy(filtered, PowerKey), ModelKey, 3);
    } else if strategy == PriceDesc {
      offers := TakeDistinct(SortBy(filtered, PriceDescKey), ModelTrimKey, 3);
    } else {
      offers := MixOffers(SortBy(filtered, PriceKey));
    }
  }

  // ---------------------------------------------------------------------
  // Properties
  // ---------------------------------------------------------------------

  /** The pool is never empty for a non-empty input and holds only input cars. */
  lemma PoolProperties(cars: seq<Car>, priceTarget: Option<int>, isApproximate: bool)
    ensures cars != [] ==> Pool(cars, priceTarget, isApproximate) != []
    ensures forall c | c in Pool(cars, priceTarget, isApproximate) :: c in cars
  {
    if GivenInt(priceTarget) && isApproximate {
      var center := priceTarget.value;
      SortByMembers(cars, DistanceKey(center));
      var sorted := SortBy(cars, DistanceKey(center));
      forall c | c in Take(sorted, 5) ensures c in cars {
        var k :| 0 <= k < |Take(sorted, 5)| && Take(sorted, 5)[k] == c;
        assert sorted[k] == c;
      }
    }
  }

  /** Approximate band: when some car lies within a tenth of the target, every pooled car does. */
  lemma ApproxBandHonoured(cars: seq<Car>, target: int)
    requires target != 0
    requires exists c | c in cars :: InBand(target, c)
    ensures forall c | c in Pool(cars, Some(target), true) ::
      target - Tenth(target) <= c.finalPrice <= target + Tenth(target)
  {
    var c :| c in cars && InBand(target, c);
    assert BandTest(target)(c);
  }

  /** Approximate fallback: with no car in the band, the pool is the five closest to the target, nearest first. */
  lemma ApproxFallbackClosest(cars: seq<Car>, target: int)
    requires target != 0 && cars != []
    requires forall c | c in cars :: !InBand(target, c)
    ensures Pool(cars, Some(target), true) == Take(SortBy(cars, DistanceKey(target)), 5)
    ensures 1 <= |Pool(cars, Some(target), true)| <= 5
    ensures SortedBy(Pool(cars, Some(target), true), DistanceKey(target))
  {
    FilterEmpty(cars, BandTest(target));
    SortByCorrect(cars, DistanceKey(target));
    TakeSorted(SortBy(cars, DistanceKey(target)), DistanceKey(target), 5);
  }

  /** A prefix of a sorted list is sorted. */
  lemma TakeSorted(s: seq<Car>, key: Car -> (int, int), n: nat)
    requires SortedBy(s, key)
    ensures SortedBy(Take(s, n), key)
  {
  }

  /** Exact band: when some car is not dearer than the target, no pooled car is dearer. */
  lemma ExactBandHonoured(cars: seq<Car>, target: int)
    requires target != 0
    requires exists c | c in cars :: c.finalPrice <= target
    ensures forall c | c in Pool(cars, Some(target), false) :: c.finalPrice <= target
  {
    var c :| c in cars && c.finalPrice <= target;
    assert UnderTest(target)(c);
  }

  /** Exact fallback: otherwise the pool is the cars within 1.2 times the target, or every car. */
  lemma ExactFallback(cars: seq<Car>, target: int)
    requires target != 0
    requires forall c | c in cars :: c.finalPrice > target
    ensures (exists c | c in cars :: 5 * c.finalPrice <= 6 * target) ==>
      forall c | c in Pool(cars, Some(target), false) :: 5 * c.finalPrice <= 6 * target
    ensures (forall c | c in cars :: 5 * c.finalPrice > 6 * target) ==> Pool(cars, Some(target), false) == cars
  {
    FilterEmpty(cars, UnderTest(target));
    FilterEmpty(cars, RelaxedTest(target));
  }

  /** No target, or a zero target, leaves every car in the pool. */
  lemma NoTargetKeepsAll(cars: seq<Car>, isApproximate: bool)
    ensures Pool(cars, None, isApproximate) == cars
    ensures Pool(cars, Some(0), isApproximate) == cars
  {
  }

  lemma {:induction false} MixProperties(sorted: seq<Car>)
    requires SortedBy(sorted, PriceKey)
    ensures |Mix(sorted)| <= 3
    ensures sorted != [] <==> Mix(sorted) != []
    ensures IsSubsequence(Mix(sorted), sorted)
    ensures |sorted| <= 3 ==> Mix(sorted) == sorted
    ensures |sorted| > 3 ==> Mix(sorted)[..2] == sorted[..2]
    ensures |sorted| > 3 && sorted[|sorted| - 1] !in sorted[..2] ==> Mix(sorted) == sorted[..2] + [sorted[|sorted| - 1]]
  {
    if |sorted| <= 3 {
      SubsequenceOfSelf(sorted);
    } else {
      var n := |sorted|;
      var cheapest := sorted[..2];
      assert sorted == [sorted[0], sorted[1]] + sorted[2..];
      assert IsSubsequence([sorted[n - 1]], sorted[2..]) by {
        SubsequenceOfSelf([sorted[n - 1]]);
        var tail := sorted[2..];
        assert tail[|tail| - 1] == sorted[n - 1];
        LastIsSubsequence(tail);
      }
      assert IsSubsequence(cheapest, sorted) by {
        PrefixIsSubsequence(sorted, 2);
      }
      assert IsSubsequence(cheapest + [sorted[n - 1]], sorted) by {
        assert [sorted[0], sorted[1]] + sorted[2..] == sorted;
        assert (cheapest + [sorted[n - 1]])[1..] == [sorted[1], sorted[n - 1]];
        assert sorted[1..][1..] == sorted[2..];
      }
    }
  }

  /** The one-element list of the last element is a subsequence. */
  lemma {:induction false} LastIsSubsequence(s: seq<Car>)
    requires s != []
    ensures IsSubsequence([s[|s| - 1]], s)
    decreases |s|
  {
    if |s| > 1 && s[0] != s[|s| - 1] {
      LastIsSubsequence(s[1..]);
    } else if |s| > 1 {
      assert [s[|s| - 1]][1..] == [];
    }
  }

  /** Size, non-emptiness and membership of the offers, for every strategy. */
  lemma Top3Properties(cars: seq<Car>, priceTarget: Option<int>, isApproximate: bool, sortBy: string)
    ensures |Top3(cars, priceTarget, isApproximate, sortBy)| <= 3
    ensures Top3(cars, priceTarget, isApproximate, sortBy) != [] <==> cars != []
    ensures forall c | c in Top3(cars, priceTarget, isApproximate, sortBy) :: c in cars
  {
    if cars != [] {
      var pool := Pool(cars, priceTarget, isApproximate);
      PoolProperties(cars, priceTarget, isApproximate);
      var r := Top3(cars, priceTarget, isApproximate, sortBy);
      match StrategyOf(sortBy)
      case PowerDesc =>
        var sorted := SortBy(pool, PowerKey);
        SortByMembers(pool, PowerKey);
        DistinctFromProperties(sorted, ModelKey, {}, 3);
        assert sorted[0] in sorted;
        SubsequenceMembers(r, sorted);
      case PriceDesc =>
        var sorted := SortBy(pool, PriceDescKey);
        SortByMembers(pool, PriceDescKey);
        DistinctFromProperties(sorted, ModelTrimKey, {}, 3);
        assert sorted[0] in sorted;
        SubsequenceMembers(r, sorted);
      case PriceMix =>
        var sorted := SortBy(pool, PriceKey);
        SortByCorrect(pool, PriceKey);
        SortByMembers(pool, PriceKey);
        MixProperties(sorted);
        SubsequenceMembers(r, sorted);
    }
  }

  /**
   * The first three distinct-key cars of the pool sorted by `sortKey`: their
   * keys differ, they are in order, and a pooled car whose key is not among
   * them means three were taken, none ranking below it.
   */
  lemma {:induction false} TopDistinct<K>(pool: seq<Car>, sortKey: Car -> (int, int), key: Car -> K)
    ensures var r := DistinctFrom(SortBy(pool, sortKey), key, {}, 3);
      DistinctKeys(r, key) && SortedBy(r, sortKey)
      && forall i, j | 0 <= i < j < |r| :: KeyLe(sortKey(r[i]), sortKey(r[j]))
    ensures var r := DistinctFrom(SortBy(pool, sortKey), key, {}, 3);
      forall c | c in pool && (forall o | o in r :: key(o) != key(c)) ::
        |r| == 3 && KeyLe(sortKey(r[2]), sortKey(c))
  {
    var sorted := SortBy(pool, sortKey);
    var r := DistinctFrom(sorted, key, {}, 3);
    SortByCorrect(pool, sortKey);
    DistinctFromProperties(sorted, key, {}, 3);
    SubsequenceOfSorted(r, sorted, ByKey(sortKey));
    forall i, j | 0 <= i < j < |r| ensures KeyLe(sortKey(r[i]), sortKey(r[j])) {
      ByKeyApply(sortKey, r[i], r[j]);
    }
    SortByMembers(pool, sortKey);
    DistinctFromLeftBehind(sorted, key, {}, 3, ByKey(sortKey));
    forall c | c in pool && (forall o | o in r :: key(o) != key(c))
      ensures |r| == 3 && KeyLe(sortKey(r[2]), sortKey(c))
    {
      assert c in sorted;
      ByKeyApply(sortKey, r[2], c);
    }
  }

  /**
   * "power_desc": distinct models, most powerful first, the cheaper first at
   * equal power; a pooled car whose model is not shown means three were
   * shown, and it ranks no higher than the last of them.
   */
  lemma PowerDescOrder(cars: seq<Car>, priceTarget: Option<int>, isApproximate: bool)
    ensures var r := Top3(cars, priceTarget, isApproximate, "power_desc");
      DistinctKeys(r, ModelKey) && SortedBy(r, PowerKey)
    ensures var r := Top3(cars, priceTarget, isApproximate, "power_desc");
      forall i, j | 0 <= i < j < |r| :: r[i].power > r[j].power || (r[i].power == r[j].power && r[i].finalPrice <= r[j].finalPrice)
    ensures var r := Top3(cars, priceTarget, isApproximate, "power_desc");
      forall c | c in Pool(cars, priceTarget, isApproximate) && (forall o | o in r :: o.model != c.model) ::
        |r| == 3 && (r[2].power > c.power || (r[2].power == c.power && r[2].finalPrice <= c.finalPrice))
  {
    PoolProperties(cars, priceTarget, isApproximate);
    if cars != [] {
      var pool := Pool(cars, priceTarget, isApproximate);
      var r := Top3(cars, priceTarget, isApproximate, "power_desc");
      assert r == DistinctFrom(SortBy(pool, PowerKey), ModelKey, {}, 3);
      TopDistinct(pool, PowerKey, ModelKey);
      forall i, j | 0 <= i < j < |r|
        ensures r[i].power > r[j].power || (r[i].power == r[j].power && r[i].finalPrice <= r[j].finalPrice)
      {
        assert KeyLe(PowerKey(r[i]), PowerKey(r[j]));
      }
      forall c | c in pool && (forall o | o in r :: o.model != c.model)
        ensures |r| == 3 && (r[2].power > c.power || (r[2].power == c.power && r[2].finalPrice <= c.finalPrice))
      {
        assert forall o | o in r :: ModelKey(o) != ModelKey(c);
        assert KeyLe(PowerKey(r[2]), PowerKey(c));
      }
    }
  }

  /**
   * "price_desc": distinct (model, trim) pairs with non-increasing price; a
   * pooled car whose pair is not shown means three were shown, and it is
   * not dearer than the last of them.
   */
  lemma PriceDescOrder(cars: seq<Car>, priceTarget: Option<int>, isApproximate: bool)
    ensures var r := Top3(cars, priceTarget, isApproximate, "price_desc");
      DistinctKeys(r, ModelTrimKey) && forall i, j | 0 <= i < j < |r| :: r[i].finalPrice >= r[j].finalPrice
    ensures var r := Top3(cars, priceTarget, isApproximate, "price_desc");
      forall c | c in Pool(cars, priceTarget, isApproximate) && (forall o | o in r :: (o.model, o.trim) != (c.model, c.trim)) ::
        |r| == 3 && c.finalPrice <= r[2].finalPrice
  {
    PoolProperties(cars, priceTarget, isApproximate);
    if cars != [] {
      var pool := Pool(cars, priceTarget, isApproximate);
      var r := Top3(cars, priceTarget, isApproximate, "price_desc");
      assert r == DistinctFrom(SortBy(pool, PriceDescKey), ModelTrimKey, {}, 3);
      TopDistinct(pool, PriceDescKey, ModelTrimKey);
      forall i, j | 0 <= i < j < |r| ensures r[i].finalPrice >= r[j].finalPrice {
        assert KeyLe(PriceDescKey(r[i]), PriceDescKey(r[j]));
      }
      forall c | c in pool && (forall o | o in r :: (o.model, o.trim) != (c.model, c.trim))
        ensures |r| == 3 && c.finalPrice <= r[2].finalPrice
      {
        assert forall o | o in r :: ModelTrimKey(o) != ModelTrimKey(c);
        assert KeyLe(PriceDescKey(r[2]), PriceDescKey(c));
      }
    }
  }

  /**
   * "price_mix" (and any unknown strategy): the price-sorted pool when it has
   * at most three cars, else its two cheapest followed by its dearest unless
   * that car equals one of the two.
   */
  lemma PriceMixShape(cars: seq<Car>, priceTarget: Option<int>, isApproximate: bool, sortBy: string)
    requires sortBy != "power_desc" && sortBy != "price_desc" && cars != []
    ensures var pool := Pool(cars, priceTarget, isApproximate);
      var sorted := SortBy(pool, PriceKey);
      var r := Top3(cars, priceTarget, isApproximate, sortBy);
      SortedBy(sorted, PriceKey) && multiset(sorted) == multiset(pool)
      && (|pool| <= 3 ==> r == sorted)
      && (|pool| > 3 ==> r[..2] == sorted[..2])
      && (|pool| > 3 && sorted[|sorted| - 1] !in sorted[..2] ==> r == sorted[..2] + [sorted[|sorted| - 1]])
  {
    var pool := Pool(cars, priceTarget, isApproximate);
    SortByCorrect(pool, PriceKey);
    MixProperties(SortBy(pool, PriceKey));
  }

  /** "price_mix" may leave two copies of one model among its three offers. */
  lemma PriceMixMayRepeatModel()
    ensures exists cars: seq<Car> ::
      var r := Top3(cars, None, false, "price_mix");
      |r| == 3 && r[0].model == r[1].model
  {
    var a := Car("Chery", "Tiggo 4", "Base", "", "", "", "", None, "", 100, 1, 0, 0, 0, 0, 0, [], None);
    var b := a.(trim := "Lux", finalPrice := 2);
    var c := a.(model := "Tiggo 9", finalPrice := 9);
    var d := a.(model := "Tiggo 8", finalPrice := 5);
    var cars := [a, b, c, d];
    assert SortBy([d], PriceKey) == [d];
    assert [c, d][1..] == [d];
    var le := ByKey(PriceKey);
    ByKeyApply(PriceKey, c, d);
    ByKeyApply(PriceKey, b, d);
    ByKeyApply(PriceKey, a, b);
    assert [d][1..] == [];
    assert SortWith([d], le) == [d];
    assert InsertWith(c, [d], le) == [d] + InsertWith(c, [], le);
    assert SortWith([c, d], le) == [d, c];
    assert [b, c, d][1..] == [c, d];
    assert SortWith([b, c, d], le) == [b, d, c];
    assert cars[1..] == [b, c, d];
    assert SortWith(cars, le) == [a, b, d, c];
    assert Top3(cars, None, false, "price_mix") == [a, b, c];
  }
}

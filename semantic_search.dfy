/**
 * The structural side of `SemanticCarIndex` (app/utils/semantic_search.py):
 * the post-filter over vector-search candidates, the fallback to the
 * structural catalogue search, and the per-car description text.
 *
 * Embeddings and the vector index are outside the model: whether an index
 * was built is a flag, and the indices the index returns for a query and
 * whether embedding the query succeeds are inputs of `Search`.
 */
module SemanticSearch {
  import opened Wrappers
  import opened Text
  import opened Sequences
  import opened Catalog

  /** `_get_embeddings` raising `RuntimeError` once its one retry failed too. */
  datatype SearchError = EmbeddingFailed

  /** The all-wheel markers of the post-filter (it has no "4wd"). */
  const SemanticAwdMarkers: seq<string> := ["4x4", "awd", "полн"]

  predicate SemanticAwd(drive: string) { ContainsAny(Lower(drive), SemanticAwdMarkers) }

  /** The checks of the post-filter loop; transmission, gears and engine type are not among them. */
  predicate SemanticAdmits(f: SearchFilters, car: Car) {
    car.brand in f.dealerBrands
    && BodyOk(f, car)
    && (!Given(f.drive) || SemanticAwd(f.drive.value) == SemanticAwd(car.drive))
    && PriceOk(f, car)
    && PowerOk(f.powerMin, car)
  }

  function PostFilterTest(f: SearchFilters): Car -> bool { (c: Car) => SemanticAdmits(f, c) }

  /** The structurally admissible candidates, in candidate order. */
  function PostFiltered(candidates: seq<Car>, f: SearchFilters): seq<Car> {
    Filter(candidates, PostFilterTest(f))
  }

  /** `[self.cars[idx] for idx in indices[0]]`. */
  function Candidates(cars: seq<Car>, hits: seq<nat>): (r: seq<Car>)
    requires forall k | 0 <= k < |hits| :: hits[k] < |cars|
    ensures |r| == |hits| && forall k | 0 <= k < |r| :: r[k] == cars[hits[k]]
  {
    seq(|hits|, k requires 0 <= k < |hits| => cars[hits[k]])
  }

  class SemanticCarIndex {
    const catalog: CarCatalog
    const cars: seq<Car>
    /** Whether `_build_index` produced an index. */
    const indexBuilt: bool

    constructor (catalog: CarCatalog, cars: seq<Car>, indexBuilt: bool)
      ensures this.catalog == catalog && this.cars == cars && this.indexBuilt == indexBuilt
    {
      this.catalog := catalog;
      this.cars := cars;
      this.indexBuilt := indexBuilt;
    }

    /**
     * `search`: without an index or without cars, the structural search with
     * the same filters; otherwise the query is embedded, which raises when
     * `embedOk` is false, and the candidates at `hits` are post-filtered.
     */
    method Search(f: SearchFilters, hits: seq<nat>, embedOk: bool) returns (results: Result<seq<Car>, SearchError>)
      requires forall k | 0 <= k < |hits| :: hits[k] < |cars|
      ensures !indexBuilt || cars == [] ==> results == Ok(Matching(catalog.cars, f))
      ensures indexBuilt && cars != [] && !embedOk ==> results == Err(EmbeddingFailed)
      ensures indexBuilt && cars != [] && embedOk ==> results == Ok(PostFiltered(Candidates(cars, hits), f))
      ensures results == Results(this, f, hits, embedOk)
      ensures results.Ok? ==> forall c | c in results.value :: c.brand in f.dealerBrands
    {
      if !indexBuilt || cars == [] {
        var found := catalog.Search(f);
        return Ok(found);
      }
      if !embedOk {
        return Err(EmbeddingFailed);
      }
      var candidates := Candidates(cars, hits);
      var kept := [];
      var i := 0;
      while i < |candidates|
        invariant 0 <= i <= |candidates|
        invariant kept == PostFiltered(candidates[..i], f)
      {
        var car := candidates[i];
        assert candidates[..i + 1] == candidates[..i] + [car];
        FilterAppend(candidates[..i], car, PostFilterTest(f));
        if SemanticAdmits(f, car) {
          kept := kept + [car];
        }
        i := i + 1;
      }
      assert candidates[..|candidates|] == candidates;
      results := Ok(kept);
    }
  }

  /** What `search` returns for the rows `hits` of the vector index, or the embedding failure it raises. */
  function Results(index: SemanticCarIndex, f: SearchFilters, hits: seq<nat>, embedOk: bool): Result<seq<Car>, SearchError>
    requires forall k | 0 <= k < |hits| :: hits[k] < |index.cars|
  {
    if !index.indexBuilt || index.cars == [] then Ok(Matching(index.catalog.cars, f))
    else if !embedOk then Err(EmbeddingFailed)
    else Ok(PostFiltered(Candidates(index.cars, hits), f))
  }

  /** The post-filter keeps an order-preserving subsequence of the candidates, all from the catalogue. */
  lemma PostFilterSubsequence(cars: seq<Car>, hits: seq<nat>, f: SearchFilters)
    requires forall k | 0 <= k < |hits| :: hits[k] < |cars|
    ensures IsSubsequence(PostFiltered(Candidates(cars, hits), f), Candidates(cars, hits))
    ensures forall c | c in PostFiltered(Candidates(cars, hits), f) :: c in cars
  {
    var cands := Candidates(cars, hits);
    FilterIsSubsequence(cands, PostFilterTest(f));
    forall c | c in PostFiltered(cands, f) ensures c in cars {
      var k :| 0 <= k < |cands| && cands[k] == c;
      assert cars[hits[k]] == c;
    }
  }

  /** Each result honours brand, body, price and power, and the all-wheel test in both directions. */
  lemma PostFilterHonours(candidates: seq<Car>, f: SearchFilters, c: Car)
    requires c in PostFiltered(candidates, f)
    ensures c in candidates && c.brand in f.dealerBrands
    ensures Given(f.body) && f.body.value != "любой" ==> Lower(c.body) == Lower(f.body.value)
    ensures GivenInt(f.priceMax) ==> c.finalPrice <= f.priceMax.value
    ensures GivenInt(f.priceMin) ==> c.finalPrice >= f.priceMin.value
    ensures GivenInt(f.powerMin) ==> 10 * c.power >= 9 * f.powerMin.value
    ensures Given(f.drive) && SemanticAwd(f.drive.value) ==> SemanticAwd(c.drive)
    ensures Given(f.drive) && !SemanticAwd(f.drive.value) ==> !SemanticAwd(c.drive)
  {
  }

  /** Transmission, gears and engine type never change what the post-filter keeps. */
  lemma PostFilterIgnoresDrivetrain(candidates: seq<Car>, f: SearchFilters,
                                    transmission: Option<string>, gears: Option<int>, engineType: Option<string>)
    ensures PostFiltered(candidates, f.(transmission := transmission, gears := gears, engineType := engineType))
         == PostFiltered(candidates, f)
  {
    var g := f.(transmission := transmission, gears := gears, engineType := engineType);
    FilterCongruent(candidates, PostFilterTest(g), PostFilterTest(f));
  }

  // ---------------------------------------------------------------------
  // `_car_to_description`
  // ---------------------------------------------------------------------

  /** Drive codes spelled out in Russian; any other drive text is kept as it is. */
  function DriveText(drive: string): (r: string)
    ensures Lower(drive) == "4x4" || Lower(drive) == "awd" ==> r == "полный привод"
    ensures Lower(drive) == "fwd" ==> r == "передний привод"
    ensures Lower(drive) == "rwd" ==> r == "задний привод"
    ensures Lower(drive) !in {"4x4", "awd", "fwd", "rwd"} ==> r == drive
  {
    var d := Lower(drive);
    if d == "4x4" || d == "awd" then "полный привод"
    else if d == "fwd" then "передний привод"
    else if d == "rwd" then "задний привод"
    else drive
  }

  /** `str(car.gears)`, which prints "None" for a missing count. */
  function GearsText(gears: Option<int>): string {
    match gears
    case None => "None"
    case Some(n) => IntToString(n)
  }

  function DescriptionHead(car: Car): string {
    car.brand + " " + car.model + " " + car.trim + ", " + car.body
  }

  function DescriptionSpecs(car: Car): string {
    car.engineType + ", " + IntToString(car.power) + " л.с., " + car.transmission + " " + GearsText(car.gears) + " ст, "
  }

  function PriceText(car: Car): string { "цена " + IntToString(car.finalPrice) + " руб" }

  /** The text embedded for a car. */
  function Description(car: Car): string {
    DescriptionHead(car) + (", " + DriveText(car.drive) + ", ") + (DescriptionSpecs(car) + PriceText(car))
  }

  /** The description names the spelled-out drive between commas. */
  lemma DescriptionNamesDrive(car: Car)
    ensures Contains(Description(car), ", " + DriveText(car.drive) + ", ")
  {
    ContainsMiddle(DescriptionHead(car), ", " + DriveText(car.drive) + ", ", DescriptionSpecs(car) + PriceText(car));
  }

  /** The description ends with the price. */
  lemma DescriptionNamesPrice(car: Car)
    ensures Contains(Description(car), PriceText(car))
  {
    var a := DescriptionHead(car) + (", " + DriveText(car.drive) + ", ") + DescriptionSpecs(car);
    assert Description(car) == a + PriceText(car) + [];
    ContainsMiddle(a, PriceText(car), []);
  }

  /** The description starts with brand and model. */
  lemma DescriptionStartsWithName(car: Car)
    ensures StartsWith(Description(car), car.brand + " " + car.model + " ")
  {
    var head := car.brand + " " + car.model + " ";
    var tail := (", " + DriveText(car.drive) + ", ") + (DescriptionSpecs(car) + PriceText(car));
    assert Description(car) == head + car.trim + ", " + car.body + tail;
    PrefixOfFive(head, car.trim, ", ", car.body, tail);
  }

  /** The first part of a left-nested concatenation of five is a prefix of the whole. */
  lemma PrefixOfFive(a: string, b: string, c: string, d: string, e: string)
    ensures StartsWith(a + b + c + d + e, a)
  {
    assert a + b + c + d + e == a + (b + c + d + e);
    StartsWithPrefix(a, b + c + d + e);
  }

}

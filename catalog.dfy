/**
 * The car catalogue (app/utils/catalog.py): the `Car` record, the structural
 * search with its filters, model-name matching and colour parsing.
 *
 * Loading the spreadsheet and computing prices are outside the model: a
 * catalogue is built from a given list of cars.
 */
module Catalog {
  import opened Wrappers
  import opened Text
  import opened Sequences

  datatype Car = Car(
    brand: string,
    model: string,
    trim: string,
    body: string,
    drive: string,
    transmission: string,
    transmissionDetails: string,
    gears: Option<int>,
    engineType: string,
    power: int,
    finalPrice: int,
    basePrice: int,
    discountTradein: int,
    discountCredit: int,
    discountGov: int,
    discountOther: int,
    availableColors: seq<string>,
    deliveryDays: Option<int>)

  /** The optional arguments of `CarCatalog.search`. */
  datatype SearchFilters = SearchFilters(
    dealerBrands: set<string>,
    body: Option<string>,
    drive: Option<string>,
    priceMax: Option<int>,
    powerMin: Option<int>,
    transmission: Option<string>,
    gears: Option<int>,
    engineType: Option<string>,
    priceMin: Option<int>)

  /** Python truthiness of optional values: present, and not "" or 0. */
  predicate Given(s: Option<string>) { s.Some? && s.value != "" }
  predicate GivenInt(n: Option<int>) { n.Some? && n.value != 0 }

  // ---------------------------------------------------------------------
  // Drive and transmission buckets
  // ---------------------------------------------------------------------

  const AwdMarkers: seq<string> := ["4x4", "4wd", "awd", "полн"]
  const FwdMarkers: seq<string> := ["fwd", "передн"]

  predicate IsAwd(drive: string) { ContainsAny(Lower(drive), AwdMarkers) }
  predicate IsFwd(drive: string) { ContainsAny(Lower(drive), FwdMarkers) }

  predicate WantsManual(t: string) { ContainsAny(Lower(t), ["механ", "мкпп", "mt", "manual"]) }
  predicate WantsAutomatic(t: string) { ContainsAny(Lower(t), ["автомат", "акпп", "at", "automatic"]) }
  predicate WantsCvt(t: string) { ContainsAny(Lower(t), ["вариатор", "cvt"]) }
  predicate WantsRobot(t: string) { ContainsAny(Lower(t), ["робот", "dct", "dsg", "ркпп"]) }

  predicate IsManual(t: string) { ContainsAny(Lower(t), ["мкпп", "mt"]) }
  predicate IsAutomatic(t: string) { ContainsAny(Lower(t), ["акпп", "at"]) }
  predicate IsCvt(t: string) { ContainsAny(Lower(t), ["вариатор", "cvt"]) }
  predicate IsRobot(t: string) { ContainsAny(Lower(t), ["робот", "dct", "ркпп"]) }

  // ---------------------------------------------------------------------
  // The filters of `search`, one per `continue`
  // ---------------------------------------------------------------------

  predicate BodyOk(f: SearchFilters, car: Car) {
    !Given(f.body) || f.body.value == "любой" || Lower(car.body) == Lower(f.body.value)
  }

  predicate DriveOk(f: SearchFilters, car: Car) {
    !Given(f.drive) ||
      ((IsAwd(f.drive.value) ==> IsAwd(car.drive)) && (IsFwd(f.drive.value) ==> IsFwd(car.drive)))
  }

  predicate PriceOk(f: SearchFilters, car: Car) {
    (GivenInt(f.priceMax) ==> car.finalPrice <= f.priceMax.value)
    && (GivenInt(f.priceMin) ==> car.finalPrice >= f.priceMin.value)
  }

  /** `car.power < power_min * 0.9` rejects, computed exactly. */
  predicate PowerOk(powerMin: Option<int>, car: Car) {
    !GivenInt(powerMin) || 10 * car.power >= 9 * powerMin.value
  }

  predicate TransmissionOk(f: SearchFilters, car: Car) {
    !Given(f.transmission) ||
      (var t := f.transmission.value;
       (WantsManual(t) ==> IsManual(car.transmission))
       && (WantsAutomatic(t) ==> IsAutomatic(car.transmission))
       && (WantsCvt(t) ==> IsCvt(car.transmission))
       && (WantsRobot(t) ==> IsRobot(car.transmission)))
  }

  predicate GearsOk(f: SearchFilters, car: Car) {
    !GivenInt(f.gears) || (GivenInt(car.gears) && car.gears.value == f.gears.value)
  }

  predicate EngineOk(f: SearchFilters, car: Car) {
    !Given(f.engineType) || Contains(Lower(car.engineType), Lower(f.engineType.value))
  }

  /** A car passes every check of the search loop. */
  predicate Admits(f: SearchFilters, car: Car) {
    car.brand in f.dealerBrands && BodyOk(f, car) && DriveOk(f, car) && PriceOk(f, car)
    && PowerOk(f.powerMin, car) && TransmissionOk(f, car) && GearsOk(f, car) && EngineOk(f, car)
  }

  /** The cars `search` returns, in catalogue order. */
  function Matching(cars: seq<Car>, f: SearchFilters): seq<Car> {
    Filter(cars, (c: Car) => Admits(f, c))
  }

  // ---------------------------------------------------------------------
  // Model names in a message
  // ---------------------------------------------------------------------

  /** The letters and digits of the character class `[a-zA-Z0-9а-яА-Я]`. */
  predicate InNameClass(c: char) { IsLatin(c) || IsDigit(c) || 'а' <= c <= 'я' || 'А' <= c <= 'Я' }

  predicate WordAt(word: string, text: string, i: nat) {
    MatchAt(text, word, i)
    && (i == 0 || (i - 1 < |text| && !InNameClass(text[i - 1])))
    && (i + |word| >= |text| || !InNameClass(text[i + |word|]))
  }

  predicate WordFrom(word: string, text: string, i: nat)
    decreases |text| - i
  {
    i + |word| <= |text| && (WordAt(word, text, i) || WordFrom(word, text, i + 1))
  }

  /** `re_search_word`: `word` occurs with no letter or digit of the class directly before or after it. */
  predicate ReSearchWord(word: string, text: string) { WordFrom(word, text, 0) }

  lemma {:induction false} WordFromIff(word: string, text: string, i: nat)
    ensures WordFrom(word, text, i) <==> exists j :: i <= j && j + |word| <= |text| && WordAt(word, text, j)
    decreases |text| - i
  {
    if i + |word| <= |text| {
      WordFromIff(word, text, i + 1);
      if exists j :: i <= j && j + |word| <= |text| && WordAt(word, text, j) {
        var j :| i <= j && j + |word| <= |text| && WordAt(word, text, j);
        if j > i {
          assert i + 1 <= j;
        }
      }
    }
  }

  /** A word found by `re_search_word` is a substring of the text. */
  lemma ReSearchWordContains(word: string, text: string)
    requires ReSearchWord(word, text)
    ensures Contains(text, word)
  {
    WordFromIff(word, text, 0);
    var j :| 0 <= j && j + |word| <= |text| && WordAt(word, text, j);
    MatchAtIff(text, word, j);
    ContainsIff(text, word);
  }

  /** The test `find_models` applies to one car, with `textLower` the lowered message. */
  predicate NamesModel(textLower: string, car: Car) {
    var modelLower := Lower(car.model);
    Contains(textLower, Lower(car.brand + " " + car.model))
    || (|modelLower| > 2 && Contains(textLower, modelLower) && ReSearchWord(modelLower, textLower))
  }

  /** The cars `find_models` returns, in catalogue order. */
  function ModelsNamed(cars: seq<Car>, text: string, dealerBrands: set<string>): seq<Car> {
    Filter(cars, (c: Car) => c.brand in dealerBrands && NamesModel(Lower(text), c))
  }

  // ---------------------------------------------------------------------
  // The catalogue object
  // ---------------------------------------------------------------------

  class CarCatalog {
    const cars: seq<Car>

    constructor (cars: seq<Car>)
      ensures this.cars == cars
    {
      this.cars := cars;
    }

    /** `search`: the loop over the catalogue with one `continue` per filter. */
    method Search(f: SearchFilters) returns (results: seq<Car>)
      ensures results == Matching(cars, f)
      ensures IsSubsequence(results, cars)
      ensures forall c | c in results :: c.brand in f.dealerBrands
    {
      results := [];
      var i := 0;
      while i < |cars|
        invariant 0 <= i <= |cars|
        invariant results == Matching(cars[..i], f)
      {
        var car := cars[i];
        assert cars[..i + 1] == cars[..i] + [car];
        FilterAppend(cars[..i], car, (c: Car) => Admits(f, c));
        if Admits(f, car) {
          results := results + [car];
        }
        i := i + 1;
      }
      assert cars[..|cars|] == cars;
      FilterIsSubsequence(cars, (c: Car) => Admits(f, c));
    }

    /** `get_all_cars`: a copy of the catalogue, in order. */
    function GetAllCars(): (r: seq<Car>)
      ensures |r| == |cars| && forall k | 0 <= k < |r| :: r[k] == cars[k]
    {
      cars
    }

    /** `find_models`: dealer-brand cars whose model the message names. */
    method FindModels(text: string, dealerBrands: set<string>) returns (results: seq<Car>)
      ensures results == ModelsNamed(cars, text, dealerBrands)
      ensures IsSubsequence(results, cars)
    {
      var textLower := Lower(text);
      results := [];
      var i := 0;
      while i < |cars|
        invariant 0 <= i <= |cars|
        invariant results == ModelsNamed(cars[..i], text, dealerBrands)
      {
        var car := cars[i];
        assert cars[..i + 1] == cars[..i] + [car];
        FilterAppend(cars[..i], car, (c: Car) => c.brand in dealerBrands && NamesModel(Lower(text), c));
        if car.brand in dealerBrands {
          var fullName := Lower(car.brand + " " + car.model);
          if Contains(textLower, fullName) {
            results := results + [car];
          } else {
            var modelLower := Lower(car.model);
            if |modelLower| > 2 && Contains(textLower, modelLower) {
              if ReSearchWord(modelLower, textLower) {
                results := results + [car];
              }
            }
          }
        }
        i := i + 1;
      }
      assert cars[..|cars|] == cars;
      FilterIsSubsequence(cars, (c: Car) => c.brand in dealerBrands && NamesModel(Lower(text), c));
    }
  }

  // ---------------------------------------------------------------------
  // Properties of the search
  // ---------------------------------------------------------------------

  /** A car is found exactly when it is in the catalogue and passes every filter. */
  lemma SearchMembership(cars: seq<Car>, f: SearchFilters, c: Car)
    ensures c in Matching(cars, f) <==> c in cars && Admits(f, c)
  {
  }

  /** Every car found honours each filter as the search loop states it. */
  lemma SearchHonoursFilters(cars: seq<Car>, f: SearchFilters, c: Car)
    requires c in Matching(cars, f)
    ensures c in cars && c.brand in f.dealerBrands
    ensures Given(f.body) && f.body.value != "любой" ==> Lower(c.body) == Lower(f.body.value)
    ensures GivenInt(f.priceMax) ==> c.finalPrice <= f.priceMax.value
    ensures GivenInt(f.priceMin) ==> c.finalPrice >= f.priceMin.value
    ensures GivenInt(f.powerMin) ==> 10 * c.power >= 9 * f.powerMin.value
    ensures GivenInt(f.gears) ==> c.gears == f.gears
    ensures Given(f.engineType) ==> Contains(Lower(c.engineType), Lower(f.engineType.value))
    ensures Given(f.drive) && IsAwd(f.drive.value) ==> IsAwd(c.drive)
    ensures Given(f.drive) && IsFwd(f.drive.value) ==> IsFwd(c.drive)
    ensures Given(f.transmission) && WantsManual(f.transmission.value) ==> IsManual(c.transmission)
    ensures Given(f.transmission) && WantsAutomatic(f.transmission.value) ==> IsAutomatic(c.transmission)
    ensures Given(f.transmission) && WantsCvt(f.transmission.value) ==> IsCvt(c.transmission)
    ensures Given(f.transmission) && WantsRobot(f.transmission.value) ==> IsRobot(c.transmission)
  {
  }

  /** Searching the result of a search with the same filters finds it again. */
  lemma SearchIdempotent(cars: seq<Car>, f: SearchFilters)
    ensures Matching(Matching(cars, f), f) == Matching(cars, f)
  {
    FilterIdempotent(cars, (c: Car) => Admits(f, c));
  }

  /** A zero price, power or gear count is no filter at all, like a missing one. */
  lemma ZeroMeansNoFilter(cars: seq<Car>, f: SearchFilters)
    ensures Matching(cars, f.(priceMax := Some(0), priceMin := Some(0), powerMin := Some(0), gears := Some(0)))
         == Matching(cars, f.(priceMax := None, priceMin := None, powerMin := None, gears := None))
  {
    var g := f.(priceMax := Some(0), priceMin := Some(0), powerMin := Some(0), gears := Some(0));
    var h := f.(priceMax := None, priceMin := None, powerMin := None, gears := None);
    FilterCongruent(cars, (c: Car) => Admits(g, c), (c: Car) => Admits(h, c));
  }

  /** A drive request in neither bucket (rear-wheel, say) filters nothing. */
  lemma OtherDriveFiltersNothing(cars: seq<Car>, f: SearchFilters, d: string)
    requires !IsAwd(d) && !IsFwd(d)
    ensures Matching(cars, f.(drive := Some(d))) == Matching(cars, f.(drive := None))
  {
    var g := f.(drive := Some(d));
    var h := f.(drive := None);
    FilterCongruent(cars, (c: Car) => Admits(g, c), (c: Car) => Admits(h, c));
  }

  /** The rear-wheel request "задний" is in neither bucket. */
  lemma RearIsNoBucket()
    ensures !IsAwd("задний") && !IsFwd("задний")
  {
  }

  /** A name `find_models` reports is in the result whenever a dealer-brand car carries it. */
  lemma FindModelsMembership(cars: seq<Car>, text: string, dealerBrands: set<string>, c: Car)
    ensures c in ModelsNamed(cars, text, dealerBrands) <==>
      c in cars && c.brand in dealerBrands && NamesModel(Lower(text), c)
  {
  }

  // ---------------------------------------------------------------------
  // Colours
  // ---------------------------------------------------------------------

  /** `s.split(sep)`: the pieces between consecutive occurrences of `sep`. */
  function SplitOn(s: string, sep: char): (r: seq<string>)
    ensures |r| >= 1
    ensures forall k | 0 <= k < |r| :: sep !in r[k]
  {
    var i := Find(s, sep);
    if i == -1 then [s] else [s[..i]] + SplitOn(s[i + 1..], sep)
  }

  /** Joining the pieces with the separator gives the string back. */
  lemma {:induction false} SplitOnJoin(s: string, sep: char)
    ensures Join(SplitOn(s, sep), [sep]) == s
    decreases |s|
  {
    var i := Find(s, sep);
    if i != -1 {
      SplitOnJoin(s[i + 1..], sep);
      var rest := SplitOn(s[i + 1..], sep);
      assert SplitOn(s, sep) == [s[..i]] + rest;
      assert s == s[..i] + [sep] + s[i + 1..];
    }
  }

  /** `_parse_colors`: comma-separated colours, stripped and lowered, empty ones dropped; a missing or blank cell gives none. */
  function ParseColors(cell: Option<string>): (r: seq<string>)
    ensures forall c | c in r :: c != []
    ensures cell.None? || Strip(cell.value) == [] ==> r == []
  {
    match cell
    case None => []
    case Some(s) =>
      if Strip(s) == [] then []
      else Filter(CleanPieces(SplitOn(s, ',')), (c: string) => c != [])
  }

  /** Each piece stripped of surrounding white space and lowered. */
  function CleanPieces(pieces: seq<string>): (r: seq<string>)
    ensures |r| == |pieces|
    ensures forall k | 0 <= k < |r| :: r[k] == Lower(Strip(pieces[k]))
  {
    seq(|pieces|, k requires 0 <= k < |pieces| => Lower(Strip(pieces[k])))
  }

  /** A piece without a comma stays without one once stripped and lowered, and has no white space at its ends. */
  lemma CleanPiece(piece: string)
    requires ',' !in piece
    ensures var c := Lower(Strip(piece)); ',' !in c && (c == [] || (!IsSpace(c[0]) && !IsSpace(c[|c| - 1])))
  {
    var t := Strip(piece);
    var c := Lower(t);
    assert forall j | 0 <= j < |c| :: c[j] == LowerChar(t[j]);
    forall j | 0 <= j < |t| ensures t[j] != ',' {
      assert t[j] in t;
    }
  }

  /** A colour cell never yields a name with a comma or surrounding white space. */
  lemma ParseColorsClean(cell: Option<string>)
    ensures forall c | c in ParseColors(cell) :: ',' !in c && !IsSpace(c[0]) && !IsSpace(c[|c| - 1])
  {
    if cell.Some? && Strip(cell.value) != [] {
      var pieces := SplitOn(cell.value, ',');
      var cleaned := CleanPieces(pieces);
      forall c | c in ParseColors(cell)
        ensures ',' !in c && !IsSpace(c[0]) && !IsSpace(c[|c| - 1])
      {
        assert c in cleaned;
        var k :| 0 <= k < |cleaned| && cleaned[k] == c;
        CleanPiece(pieces[k]);
      }
    }
  }
}

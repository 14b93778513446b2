/**
 * `parse_car_specs` and the query predicates (app/utils/text_parsers.py):
 * keyword tables searched in order, and the number patterns of `Scan`.
 */
module TextParsers {
  import opened Wrappers
  import opened Text
  import opened Scan

  /** A keyword table: category names with their keywords, in table order. */
  type Table = seq<(string, seq<string>)>

  const BodyTable: Table := [
    ("кроссовер", ["кроссовер", "кросс", "suv", "внедорожник", "джип", "паркетник"]),
    ("седан", ["седан", "sedan"]),
    ("хэтчбек", ["хэтчбек", "хетчбек", "hatchback", "хетч"]),
    ("универсал", ["универсал", "wagon", "вагон"]),
    ("пикап", ["пикап", "pickup"]),
    ("купе", ["купе", "coupe"]),
    ("кабриолет", ["кабриолет", "cabriolet", "кабрио"]),
    ("лифтбек", ["лифтбек", "liftback"]),
    ("минивэн", ["минивэн", "minivan", "вэн"])]

  const DriveTable: Table := [
    ("4x4", ["полный привод", "полноприводн", "4x4", "4х4", "awd", "4wd", "полный"]),
    ("передний", ["передний привод", "переднеприводн", "передний", "fwd"]),
    ("задний", ["задний привод", "заднеприводн", "задний", "rwd"])]

  const EngineTable: Table := [
    ("бензин", ["бензин", "бензиновый"]),
    ("дизель", ["дизель", "дизельный", "дт", "dt", "солярк"]),
    ("гибрид", ["гибрид", "hybrid"]),
    ("электро", ["электро", "electric", "ev"])]

  const TransmissionTable: Table := [
    ("мкпп", ["механик", "механическ", "мкпп", "ручка", "manual"]),
    ("акпп", ["автомат", "акпп", "automatic", "гидротрансформатор"]),
    ("вариатор", ["вариатор", "cvt", "бесступенчаты"]),
    ("робот", ["робот", "dsg", "dct", "ркпп"])]

  const ApproxWords: seq<string> := ["около", "примерно", "где-то", "где то", "порядка", "районе", "плюс минус", "+-", "~"]
  const MillionUnits: seq<string> := ["млн", "миллион", "лям"]
  const KkUnits: seq<string> := ["кк"]

  const SearchWords: seq<string> := [
    "что есть", "что можете предложить", "подобрать", "подбери", "найди",
    "альтернатив", "варианты", "посоветуй", "какие есть", "в наличии",
    "хочу купить", "ищу машину", "нужна машина", "покажи"]
  const PowerWords: seq<string> := ["мощн", "быстр", "динамич", "лошад", "сил", "спорт", "разгон"]
  const ExpensiveWords: seq<string> := ["дорог", "дороже", "максимальная цена", "подороже", "самый дорогой", "топ комплектаци", "full", "фулл"]

  // ---------------------------------------------------------------------
  // First category in table order
  // ---------------------------------------------------------------------

  function CategoryFrom(text: string, table: Table, k: nat): (r: Option<nat>)
    ensures r.Some? ==>
      k <= r.value < |table| && ContainsAny(text, table[r.value].1)
      && forall m | k <= m < r.value :: !ContainsAny(text, table[m].1)
    ensures r.None? ==> forall m | k <= m < |table| :: !ContainsAny(text, table[m].1)
    decreases |table| - k
  {
    if k >= |table| then None
    else if ContainsAny(text, table[k].1) then Some(k)
    else CategoryFrom(text, table, k + 1)
  }

  /** The name of the first category with a keyword in `text`. */
  function Category(text: string, table: Table): Option<string> {
    match CategoryFrom(text, table, 0)
    case None => None
    case Some(k) => Some(table[k].0)
  }

  /** The `for ...: if any(...): x = name; break` loop over one table. */
  method FirstCategory(text: string, table: Table) returns (r: Option<string>)
    ensures r == Category(text, table)
  {
    r := None;
    var k := 0;
    while k < |table|
      invariant 0 <= k <= |table|
      invariant CategoryFrom(text, table, 0) == CategoryFrom(text, table, k)
    {
      if ContainsAny(text, table[k].1) {
        r := Some(table[k].0);
        break;
      }
      k := k + 1;
    }
  }

  /** No category is chosen exactly when no keyword of the table occurs; otherwise the first one with a keyword is. */
  lemma CategoryIff(text: string, table: Table)
    ensures Category(text, table).None? <==>
      forall m, j | 0 <= m < |table| && 0 <= j < |table[m].1| :: !Contains(text, table[m].1[j])
    ensures Category(text, table).Some? ==> exists m | 0 <= m < |table| ::
      Category(text, table) == Some(table[m].0)
      && (exists j | 0 <= j < |table[m].1| :: Contains(text, table[m].1[j]))
      && forall m' | 0 <= m' < m :: !ContainsAny(text, table[m'].1)
  {
    forall m | 0 <= m < |table| {
      ContainsAnyIff(text, table[m].1);
    }
  }

  // ---------------------------------------------------------------------
  // Prices, power and gears
  // ---------------------------------------------------------------------

  function GearsScan(s: string): nat -> Option<nat> { (k: nat) => GearsAt(s, k) }
  function MillionsScan(s: string, units: seq<string>): nat -> Option<nat> { (k: nat) => MillionsAt(s, k, units) }
  function FromPowerScan(s: string): nat -> Option<nat> { (k: nat) => FromPowerAt(s, k) }
  function UnitPowerScan(s: string): nat -> Option<nat> { (k: nat) => UnitPowerAt(s, k) }

  predicate PlausiblePrice(n: nat) { 500000 <= n <= 30000000 }
  predicate PlausiblePower(n: nat) { 50 < n < 800 }

  /** Python truthiness of an optional number. */
  predicate Truthy(n: Option<nat>) { n.Some? && n.value != 0 }

  /** The first found number in the plausible price range. */
  function FirstPlausible(numbers: seq<string>): (r: Option<nat>)
    requires forall k | 0 <= k < |numbers| :: AllDigits(numbers[k])
    ensures r.Some? ==> PlausiblePrice(r.value)
    ensures r.Some? <==> exists k | 0 <= k < |numbers| :: PlausiblePrice(ParseNat(numbers[k]))
  {
    if numbers == [] then None
    else if PlausiblePrice(ParseNat(numbers[0])) then Some(ParseNat(numbers[0]))
    else
      var r := FirstPlausible(numbers[1..]);
      assert forall k | 1 <= k < |numbers| :: numbers[k] == numbers[1..][k - 1];
      r
  }

  /**
   * The price: "N млн" first, then "N кк" while no non-zero price was found,
   * then the first big number of the raw text in the plausible range.
   */
  function PriceTarget(lower: string, raw: string): Option<nat> {
    var mln := First(MillionsScan(lower, MillionUnits), |lower|);
    var afterKk :=
      if Truthy(mln) then mln
      else (var kk := First(MillionsScan(lower, KkUnits), |lower|); if kk.Some? then kk else mln);
    if Truthy(afterKk) then afterKk
    else
      var big := FirstPlausible(BigNumbersFrom(raw, 0));
      if big.Some? then big else afterKk
  }

  /** The power: "от N" when plausible, else "N л.с." when plausible. */
  function PowerTarget(lower: string): (r: Option<nat>)
    ensures r.Some? ==> PlausiblePower(r.value)
  {
    var from := First(FromPowerScan(lower), |lower|);
    if from.Some? && PlausiblePower(from.value) then from
    else
      var unit := First(UnitPowerScan(lower), |lower|);
      if unit.Some? && PlausiblePower(unit.value) then unit else None
  }

  // ---------------------------------------------------------------------
  // `parse_car_specs`
  // ---------------------------------------------------------------------

  datatype CarSpecs = CarSpecs(
    body: Option<string>,
    drive: Option<string>,
    priceTarget: Option<nat>,
    isApproximate: bool,
    powerTarget: Option<nat>,
    transmission: Option<string>,
    gears: Option<nat>,
    engineType: Option<string>)

  /** What `parse_car_specs` returns. */
  function SpecsOf(text: string): CarSpecs {
    var lower := Fold(text);
    CarSpecs(
      Category(lower, BodyTable),
      Category(lower, DriveTable),
      PriceTarget(lower, text),
      ContainsAny(lower, ApproxWords),
      PowerTarget(lower),
      Category(lower, TransmissionTable),
      First(GearsScan(lower), |lower|),
      Category(lower, EngineTable))
  }

  /** `parse_car_specs`: each field assigned in turn. */
  method ParseCarSpecs(text: string) returns (specs: CarSpecs)
    ensures specs == SpecsOf(text)
  {
    var lower := Fold(text);
    var body := FirstCategory(lower, BodyTable);
    var drive := FirstCategory(lower, DriveTable);
    var engineType := FirstCategory(lower, EngineTable);
    var transmission := FirstCategory(lower, TransmissionTable);
    var gears := First(GearsScan(lower), |lower|);
    var isApproximate := ContainsAny(lower, ApproxWords);

    var priceTarget := ReadPrice(lower, text);
    var powerTarget := ReadPower(lower);
    specs := CarSpecs(body, drive, priceTarget, isApproximate, powerTarget, transmission, gears, engineType);
  }

  /** Lines of `parse_car_specs` that look for the price, in their order. */
  method ReadPrice(lower: string, text: string) returns (priceTarget: Option<nat>)
    ensures priceTarget == PriceTarget(lower, text)
  {
    priceTarget := First(MillionsScan(lower, MillionUnits), |lower|);
    if !Truthy(priceTarget) {
      var kk := First(MillionsScan(lower, KkUnits), |lower|);
      if kk.Some? {
        priceTarget := kk;
      }
    }
    if !Truthy(priceTarget) {
      var big := FirstPlausibleNumber(BigNumbersFrom(text, 0));
      if big.Some? {
        priceTarget := big;
      }
    }
  }

  /** The loop over the big numbers found: the first plausible one. */
  method FirstPlausibleNumber(numbers: seq<string>) returns (r: Option<nat>)
    requires forall k | 0 <= k < |numbers| :: AllDigits(numbers[k])
    ensures r == FirstPlausible(numbers)
  {
    var k := 0;
    while k < |numbers|
      invariant 0 <= k <= |numbers|
      invariant FirstPlausible(numbers) == FirstPlausible(numbers[k..])
    {
      assert numbers[k..][1..] == numbers[k + 1..];
      var num := ParseNat(numbers[k]);
      if PlausiblePrice(num) {
        return Some(num);
      }
      k := k + 1;
    }
    return None;
  }

  /** Lines of `parse_car_specs` that look for the power: "от N" first, then "N л.с.". */
  method ReadPower(lower: string) returns (powerTarget: Option<nat>)
    ensures powerTarget == PowerTarget(lower)
  {
    powerTarget := None;
    var from := First(FromPowerScan(lower), |lower|);
    if from.Some? && PlausiblePower(from.value) {
      powerTarget := from;
    }
    if powerTarget.None? {
      var unit := First(UnitPowerScan(lower), |lower|);
      if unit.Some? && PlausiblePower(unit.value) {
        powerTarget := unit;
      }
    }
  }

  // ---------------------------------------------------------------------
  // Properties of the parsed specs
  // ---------------------------------------------------------------------

  /** The power is absent or strictly between 50 and 800, and "от N" wins when plausible. */
  lemma PowerTargetRange(text: string)
    ensures var p := SpecsOf(text).powerTarget; p.None? || 50 < p.value < 800
    ensures var lower := Fold(text); var from := First(FromPowerScan(lower), |lower|);
      from.Some? && PlausiblePower(from.value) ==> SpecsOf(text).powerTarget == from
    ensures SpecsOf(text).powerTarget.Some? ==> SpecsOf(text).powerTarget.value < 1000
  {
  }

  /** A price taken from a bare number lies in the plausible range and is the first such number. */
  lemma BarePriceInRange(text: string)
    requires var lower := Fold(text);
      First(MillionsScan(lower, MillionUnits), |lower|).None? && First(MillionsScan(lower, KkUnits), |lower|).None?
    ensures var p := SpecsOf(text).priceTarget;
      p == FirstPlausible(BigNumbersFrom(text, 0)) && (p.Some? ==> 500000 <= p.value <= 30000000)
  {
  }

  /** A million-scaled price that is non-zero is the one reported. */
  lemma MillionsWin(text: string)
    requires var lower := Fold(text); Truthy(First(MillionsScan(lower, MillionUnits), |lower|))
    ensures var lower := Fold(text); SpecsOf(text).priceTarget == First(MillionsScan(lower, MillionUnits), |lower|)
  {
  }

  /** Every category field is a category of its table, or absent when no keyword occurs. */
  lemma CategoriesFromTables(text: string)
    ensures var b := SpecsOf(text).body; b.None? || exists m | 0 <= m < |BodyTable| :: b.value == BodyTable[m].0
    ensures var d := SpecsOf(text).drive; d.None? || exists m | 0 <= m < |DriveTable| :: d.value == DriveTable[m].0
    ensures var e := SpecsOf(text).engineType; e.None? || exists m | 0 <= m < |EngineTable| :: e.value == EngineTable[m].0
    ensures var t := SpecsOf(text).transmission; t.None? || exists m | 0 <= m < |TransmissionTable| :: t.value == TransmissionTable[m].0
  {
    var lower := Fold(text);
    CategoryIff(lower, BodyTable);
    CategoryIff(lower, DriveTable);
    CategoryIff(lower, EngineTable);
    CategoryIff(lower, TransmissionTable);
  }

  /** `is_approximate` holds exactly when an approximate keyword occurs in the folded text. */
  lemma ApproximateIff(text: string)
    ensures SpecsOf(text).isApproximate <==> exists j | 0 <= j < |ApproxWords| :: Contains(Fold(text), ApproxWords[j])
  {
    ContainsAnyIff(Fold(text), ApproxWords);
  }

  // ---------------------------------------------------------------------
  // Query predicates
  // ---------------------------------------------------------------------

  /** `any([body, drive, price, power, trans, gears, engine])`. */
  predicate AnySpec(sp: CarSpecs) {
    sp.body.Some? || sp.drive.Some? || Truthy(sp.priceTarget) || sp.powerTarget.Some?
    || sp.transmission.Some? || Truthy(sp.gears) || sp.engineType.Some?
  }

  /** `is_search_query`. */
  predicate IsSearchQuery(text: string) {
    AnySpec(SpecsOf(text)) || ContainsAny(Lower(text), SearchWords)
  }

  /** `is_power_query`. */
  predicate IsPowerQuery(text: string) { ContainsAny(Lower(text), PowerWords) }

  /** `is_expensive_query`. */
  predicate IsExpensiveQuery(text: string) { ContainsAny(Lower(text), ExpensiveWords) }

  /** A text is a search query when it yields any spec or holds a search phrase, and only then. */
  lemma SearchQueryIff(text: string)
    ensures IsSearchQuery(text) <==>
      AnySpec(SpecsOf(text)) || exists j | 0 <= j < |SearchWords| :: Contains(Lower(text), SearchWords[j])
  {
    ContainsAnyIff(Lower(text), SearchWords);
  }

  /** The two query predicates are plain keyword-substring tests. */
  lemma QueryKeywordsIff(text: string)
    ensures IsPowerQuery(text) <==> exists j | 0 <= j < |PowerWords| :: Contains(Lower(text), PowerWords[j])
    ensures IsExpensiveQuery(text) <==> exists j | 0 <= j < |ExpensiveWords| :: Contains(Lower(text), ExpensiveWords[j])
  {
    ContainsAnyIff(Lower(text), PowerWords);
    ContainsAnyIff(Lower(text), ExpensiveWords);
  }

  /** A text naming a body type is a search query. */
  lemma BodyMakesSearchQuery(text: string)
    requires SpecsOf(text).body.Some?
    ensures IsSearchQuery(text)
  {
  }

  // ---------------------------------------------------------------------
  // Examples
  // ---------------------------------------------------------------------

  /** "6-ст" gives six gears. */
  lemma GearsExample()
    ensures GearsAt("6-ст", 0) == Some(6)
  {
  }

  /** "седан" names the sedan body. */
  lemma BodyExample()
    ensures Category("седан", BodyTable) == Some("седан")
  {
    var s := "седан";
    var suvs := BodyTable[0].1;
    assert suvs == ["кроссовер", "кросс", "suv", "внедорожник", "джип", "паркетник"];
    AbsentPair(s, suvs[0]); AbsentPair(s, suvs[1]); AbsentPair(s, suvs[2]);
    AbsentPair(s, suvs[3]); AbsentPair(s, suvs[4]); AbsentPair(s, suvs[5]);
    ContainsAnyIff(s, suvs);
    assert OccursAt(s, BodyTable[1].1[0], 0);
    ContainsIff(s, BodyTable[1].1[0]);
    ContainsAnyIff(s, BodyTable[1].1);
    assert CategoryFrom(s, BodyTable, 0) == Some(1);
  }

  /** "от 150" captures 150. */
  lemma FromPowerExample()
    ensures FromPowerAt("от 150", 0) == Some(150)
  {
    var s := "от 150";
    assert SkipSpaces(s, 2) == 3;
    assert DigitRun(s, 3) == 3;
    assert s[3..6] == "150";
    assert "150"[..2] == "15" && "15"[..1] == "1" && "1"[..0] == "";
  }

  /** "2,5 млн" is two and a half million. */
  lemma MillionsExample()
    ensures MillionsAt("2,5 млн", 0, MillionUnits) == Some(2500000)
  {
    var s := "2,5 млн";
    assert DigitRun(s, 0) == 1;
    assert DigitRun(s, 2) == 1;
    assert DecimalEnd(s, 0, 1) == 3;
    assert SkipSpaces(s, 3) == 4;
    assert MatchAt(s, "млн", 4);
    assert MillionUnits[0] == "млн";
    assert s[0..1] == "2" && s[2..3] == "5";
    assert "2"[..0] == "" && "5"[..0] == "";
    assert NumberAt(s, 0, 1) == 2;
    assert NumberAt(s, 2, 3) == 5;
    assert Pow10(1) == 10;
    assert Millions(2, 5, 1) == 2500000;
  }
}

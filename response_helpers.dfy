/**
 * The messages the bot composes (app/utils/response_helpers.py): the lead
 * card sent to a manager group, the in-stock answer for a model, the
 * non-dealer prompt and the colour overview.
 */
module ResponseHelpers {
  import opened Wrappers
  import opened Text
  import opened Sequences
  import opened Dto
  import opened Brands
  import opened Catalog
  import opened TopOffers

  // ---------------------------------------------------------------------
  // `format_lead_message`
  // ---------------------------------------------------------------------

  /** `intent_map.get(intent, intent)`. */
  function IntentLabel(intent: string): string {
    if intent == "buy_new" then "Покупка НОВОГО"
    else if intent == "buy_used" then "Покупка С ПРОБЕГОМ"
    else if intent == "sell" then "Продажа (выкуп)"
    else if intent == "repair" then "Сервис/Ремонт"
    else if intent == "spares" then "Запчасти"
    else if intent == "accounting" then "Бухгалтерия"
    else if intent == "other" then "Другое"
    else if intent == "fallback_other" then "Непонятный запрос (требует уточнения)"
    else intent
  }

  /** Every intent the bot stores gets a label of its own; distinct intents get distinct labels. */
  lemma IntentLabelsKnown(i: Intent, j: Intent)
    ensures IntentLabel(IntentName(i)) != IntentName(i)
    ensures IntentLabel(IntentName(i)) == IntentLabel(IntentName(j)) <==> i == j
  {
    LabelOf(i);
    LabelOf(j);
  }

  /** The length of each intent's label; no two are the same. */
  function LabelLength(i: Intent): nat {
    match i
    case BuyNew => 14
    case BuyUsed => 18
    case Sell => 15
    case Repair => 13
    case Spares => 8
    case Accounting => 11
    case Other => 6
    case FallbackOther => 37
  }

  /** Each intent's label is longer than the intent's own name. */
  lemma LabelOf(i: Intent)
    ensures |IntentLabel(IntentName(i))| == LabelLength(i) && |IntentName(i)| < LabelLength(i)
  {
    match i
    case BuyNew =>
    case BuyUsed =>
    case Sell =>
    case Repair =>
    case Spares =>
    case Accounting =>
    case Other =>
    case FallbackOther =>
  }

  /** Any other intent string is shown as it is. */
  lemma IntentLabelPassesUnknown(intent: string)
    requires forall i: Intent :: IntentName(i) != intent
    ensures IntentLabel(intent) == intent
  {
    assert IntentName(BuyNew) != intent && IntentName(BuyUsed) != intent && IntentName(Sell) != intent;
    assert IntentName(Repair) != intent && IntentName(Spares) != intent && IntentName(Accounting) != intent;
    assert IntentName(Other) != intent && IntentName(FallbackOther) != intent;
  }

  /** The five keys the card prints, in its order. */
  const CardKeys: seq<SlotKey> := [ModelSlot, BodySlot, BudgetSlot, RepairTypeSlot, RepairDetailsSlot]

  /** `str` of a value, "None" for null. */
  function ValueText(v: Option<string>): string { if v.Some? then v.value else "None" }

  /** The label of a printed key; the card prints no other key. */
  function Label(k: SlotKey): string {
    match k
    case ModelSlot => "Модель: "
    case BodySlot => "Кузов: "
    case BudgetSlot => "Бюджет: "
    case RepairTypeSlot => "Тип ремонта: "
    case RepairDetailsSlot => "Детали: "
    case _ => ""
  }

  /** What the dictionary holds under `k`, as a string; `None` when absent or null. */
  function Value(slots: Slots, k: SlotKey): Option<string> {
    match k
    case ModelSlot => slots.model
    case RawModelSlot => slots.rawModel
    case BodySlot => slots.body
    case DriveSlot => slots.drive
    case BudgetSlot => if slots.budgetMax.Some? then Some(IntToString(slots.budgetMax.value)) else None
    case RepairTypeSlot => slots.repairType
    case RepairDetailsSlot => slots.repairDetails
    case BuyTypeSlot => slots.buyType
  }

  /** A key's line on the card: its label and its value, with null shown as "None". */
  function DetailOf(slots: Slots, k: SlotKey): string { Label(k) + ValueText(Value(slots, k)) }

  /** The line of `k` when the key is in the dictionary. */
  function DetailIf(slots: Slots, k: SlotKey): seq<string> {
    if Present(slots, k) then [DetailOf(slots, k)] else []
  }

  /** Lines 35-39: the detail lines, one per printed key that is present, even when it holds null. */
  function LeadDetails(slots: Slots): seq<string> {
    DetailIf(slots, ModelSlot) + DetailIf(slots, BodySlot) + DetailIf(slots, BudgetSlot)
    + DetailIf(slots, RepairTypeSlot) + DetailIf(slots, RepairDetailsSlot)
  }

  /** The printed labels begin with five different letters, so no line of one key is the line of another. */
  lemma LabelsDiffer(slots: Slots, k: SlotKey, m: SlotKey)
    requires k in CardKeys && m in CardKeys && k != m
    ensures DetailOf(slots, k) != DetailOf(slots, m)
  {
    assert Label(k) != [] && Label(m) != [] && Label(k)[0] != Label(m)[0];
    assert DetailOf(slots, k)[0] == Label(k)[0];
    assert DetailOf(slots, m)[0] == Label(m)[0];
  }

  /** The line of `k` is the line of printed key `m` only for `m` itself, when it is present. */
  lemma InDetailIf(slots: Slots, k: SlotKey, m: SlotKey)
    requires k in CardKeys && m in CardKeys
    ensures DetailOf(slots, k) in DetailIf(slots, m) <==> m == k && Present(slots, k)
  {
    if m != k {
      LabelsDiffer(slots, k, m);
    }
  }

  /** A printed key's line is on the card exactly when the key is in the dictionary. */
  lemma InDetails(slots: Slots, k: SlotKey)
    requires k in CardKeys
    ensures DetailOf(slots, k) in LeadDetails(slots) <==> Present(slots, k)
  {
    var x := DetailOf(slots, k);
    var d1, d2, d3 := DetailIf(slots, ModelSlot), DetailIf(slots, BodySlot), DetailIf(slots, BudgetSlot);
    var d4, d5 := DetailIf(slots, RepairTypeSlot), DetailIf(slots, RepairDetailsSlot);
    assert LeadDetails(slots) == d1 + d2 + d3 + d4 + d5;
    assert x in LeadDetails(slots) <==> x in d1 || x in d2 || x in d3 || x in d4 || x in d5;
    InDetailIf(slots, k, ModelSlot);
    InDetailIf(slots, k, BodySlot);
    InDetailIf(slots, k, BudgetSlot);
    InDetailIf(slots, k, RepairTypeSlot);
    InDetailIf(slots, k, RepairDetailsSlot);
    assert k == ModelSlot || k == BodySlot || k == BudgetSlot || k == RepairTypeSlot || k == RepairDetailsSlot;
  }

  /**
   * The detail block is absent exactly when none of the five keys is in the
   * dictionary; a key's line is on the card exactly when the key is, a null
   * one included; model comes first and details last.
   */
  lemma LeadDetailsShape(slots: Slots)
    ensures var d := LeadDetails(slots);
      (d == [] <==> !Present(slots, ModelSlot) && !Present(slots, BodySlot) && !Present(slots, BudgetSlot)
                    && !Present(slots, RepairTypeSlot) && !Present(slots, RepairDetailsSlot))
      && |d| <= 5
      && (forall k | k in CardKeys :: DetailOf(slots, k) in d <==> Present(slots, k))
      && (Present(slots, ModelSlot) ==> d[0] == DetailOf(slots, ModelSlot))
      && (Present(slots, RepairDetailsSlot) ==> d[|d| - 1] == DetailOf(slots, RepairDetailsSlot))
  {
    forall k | k in CardKeys ensures DetailOf(slots, k) in LeadDetails(slots) <==> Present(slots, k) {
      InDetails(slots, k);
    }
  }

  /** A key that holds null is printed with the value "None". */
  lemma NullPrintsNone(slots: Slots, k: SlotKey)
    requires k in CardKeys && IsNull(slots, k)
    ensures DetailOf(slots, k) == Label(k) + "None" && DetailOf(slots, k) in LeadDetails(slots)
  {
    InDetails(slots, k);
  }

  const LeadHeader: string := "🔔 <b>НОВАЯ ЗАЯВКА</b>"

  function BrandLine(brand: string): string { "🚗 <b>Марка:</b> " + brand }

  function UserIdLine(userId: int): string { "🆔 User ID: " + IntToString(userId) }

  function DetailBlock(details: seq<string>): seq<string> {
    if details == [] then []
    else ["📝 <b>Подробности:</b>"] + seq(|details|, k requires 0 <= k < |details| => "- " + details[k])
  }

  /** The header, client, phone and interest lines that open every card. */
  function LeadFront(lead: LeadDTO): seq<string> {
    [LeadHeader,
     "👤 <b>Клиент:</b> " + lead.name,
     "📞 <b>Телефон:</b> " + lead.phone,
     "🎯 <b>Интерес:</b> " + IntentLabel(lead.intent)]
  }

  /** The lines of the lead card, in order. */
  function LeadLines(lead: LeadDTO): seq<string> {
    LeadFront(lead)
    + (if Truthy(lead.brand) then [BrandLine(lead.brand.value)] else [])
    + DetailBlock(LeadDetails(lead.slots))
    + [UserIdLine(lead.userId)]
  }

  function FormatLeadMessage(lead: LeadDTO): string { Join(LeadLines(lead), "\n") }

  /**
   * The card opens with the header, client, phone and interest, has the brand
   * line exactly when a brand is set, one dash line per detail, and ends with
   * the user id.
   */
  lemma LeadLinesShape(lead: LeadDTO)
    ensures var r := LeadLines(lead);
      var d := LeadDetails(lead.slots);
      var b := if Truthy(lead.brand) then 1 else 0;
      |r| == 5 + b + (if d == [] then 0 else |d| + 1)
      && r[0] == LeadHeader
      && r[1] == "👤 <b>Клиент:</b> " + lead.name
      && r[2] == "📞 <b>Телефон:</b> " + lead.phone
      && r[3] == "🎯 <b>Интерес:</b> " + IntentLabel(lead.intent)
      && (Truthy(lead.brand) ==> r[4] == BrandLine(lead.brand.value))
      && (forall k | 0 <= k < |d| :: r[5 + b + k] == "- " + d[k])
      && r[|r| - 1] == UserIdLine(lead.userId)
  {
    var r := LeadLines(lead);
    var d := LeadDetails(lead.slots);
    var b := if Truthy(lead.brand) then 1 else 0;
    var fm := LeadFront(lead) + (if Truthy(lead.brand) then [BrandLine(lead.brand.value)] else []);
    var blk := DetailBlock(d);
    assert |fm| == 4 + b;
    assert r == (fm + blk) + [UserIdLine(lead.userId)];
    DetailBlockShape(d);
    forall k | 0 <= k < |d| ensures r[5 + b + k] == "- " + d[k] {
      assert r[5 + b + k] == (fm + blk)[5 + b + k] == blk[k + 1];
    }
  }

  /** The detail block is a heading and one dash line per detail, or nothing. */
  lemma DetailBlockShape(details: seq<string>)
    ensures |DetailBlock(details)| == if details == [] then 0 else |details| + 1
    ensures forall k | 0 <= k < |details| :: DetailBlock(details)[k + 1] == "- " + details[k]
  {
  }

  /** Lines none of which is empty or starts with the car mark of the brand line. */
  predicate NoCarMark(lines: seq<string>) {
    forall k | 0 <= k < |lines| :: lines[k] != [] && lines[k][0] != '🚗'
  }

  lemma NoCarMarkConcat(a: seq<string>, b: seq<string>)
    requires NoCarMark(a) && NoCarMark(b)
    ensures NoCarMark(a + b)
  {
    forall k | 0 <= k < |a + b| ensures (a + b)[k] != [] && (a + b)[k][0] != '🚗' {
      if k >= |a| {
        assert (a + b)[k] == b[k - |a|];
      }
    }
  }

  lemma FrontNoCarMark(lead: LeadDTO)
    ensures NoCarMark(LeadFront(lead))
  {
    var f := LeadFront(lead);
    assert f[0][0] == '🔔';
    assert f[1][0] == '👤';
    assert f[2][0] == '📞';
    assert f[3][0] == '🎯';
  }

  lemma DetailsNoCarMark(details: seq<string>)
    ensures NoCarMark(DetailBlock(details))
  {
    var blk := DetailBlock(details);
    forall k | 0 <= k < |blk| ensures blk[k] != [] && blk[k][0] != '🚗' {
      if k > 0 {
        assert blk[k] == "- " + details[k - 1];
      }
    }
  }

  /** Without a brand no line of the card is a brand line. */
  lemma NoBrandNoBrandLine(lead: LeadDTO)
    requires !Truthy(lead.brand)
    ensures forall k | 0 <= k < |LeadLines(lead)| :: LeadLines(lead)[k][0] != '🚗'
  {
    var tail := [UserIdLine(lead.userId)];
    assert tail[0][0] == '🆔';
    FrontNoCarMark(lead);
    DetailsNoCarMark(LeadDetails(lead.slots));
    NoCarMarkConcat(LeadFront(lead), DetailBlock(LeadDetails(lead.slots)));
    NoCarMarkConcat(LeadFront(lead) + DetailBlock(LeadDetails(lead.slots)), tail);
    assert LeadLines(lead) == LeadFront(lead) + DetailBlock(LeadDetails(lead.slots)) + tail;
  }

  /** The message carries the client's phone and, when set, the brand. */
  lemma LeadMessageNamesPhoneAndBrand(lead: LeadDTO)
    ensures Contains(FormatLeadMessage(lead), "📞 <b>Телефон:</b> " + lead.phone)
    ensures Truthy(lead.brand) ==> Contains(FormatLeadMessage(lead), BrandLine(lead.brand.value))
  {
    LeadLinesShape(lead);
    JoinContains(LeadLines(lead), "\n", 2);
    if Truthy(lead.brand) {
      JoinContains(LeadLines(lead), "\n", 4);
    }
  }

  // ---------------------------------------------------------------------
  // `format_model_response`
  // ---------------------------------------------------------------------

  /** What makes two listed cars the same variant: trim, engine, power, drive and transmission. */
  function TrimKey(c: Car): (string, string, int, string, string) {
    (c.trim, c.engineType, c.power, c.drive, c.transmission)
  }

  /** The variants listed: at most five, the first car of each distinct trim key. */
  function Shown(sorted: seq<Car>): seq<Car> { DistinctFrom(sorted, TrimKey, {}, 5) }

  function DiscountParts(c: Car): seq<string> {
    (if c.discountTradein != 0 then ["Трейд-ин: " + IntGrouped(c.discountTradein, ",")] else [])
    + (if c.discountCredit != 0 then ["Кредит: " + IntGrouped(c.discountCredit, ",")] else [])
    + (if c.discountGov != 0 then ["Гос: " + IntGrouped(c.discountGov, ",")] else [])
    + (if c.discountOther != 0 then ["Спец: " + IntGrouped(c.discountOther, ",")] else [])
  }

  /** The price, then the list price when it is set and higher, then the discounts. */
  function PriceDetails(c: Car): string {
    var price := IntGrouped(c.finalPrice, " ") + " руб";
    var d := DiscountParts(c);
    if c.basePrice != 0 && c.basePrice > c.finalPrice then
      price + " (РРЦ: " + IntGrouped(c.basePrice, " ") + " руб"
      + (if d != [] then ", Скидки: " + Join(d, ", ") else "") + ")"
    else if d != [] then price + " (Скидки: " + Join(d, ", ") + ")"
    else price
  }

  function ItemLine(c: Car): string {
    "• " + c.trim + " " + c.engineType + " " + IntToString(c.power) + "л.с. " + c.drive + " — " + PriceDetails(c) + "\n"
  }

  function ItemsText(cars: seq<Car>): string { ConcatMap(cars, ItemLine) }

  function ModelHeader(first: Car): string {
    "Да, " + first.brand + " " + first.model + " есть в наличии.\n\n"
  }

  function RemainingText(total: int, shown: int): string {
    if total - shown > 0 then "... и ещё " + IntToString(total - shown) + " вариантов.\n" else ""
  }

  /** The colours of all cars, in order, with repetitions. */
  function AllColors(cars: seq<Car>): seq<string> {
    if cars == [] then [] else AllColors(cars[..|cars| - 1]) + cars[|cars| - 1].availableColors
  }

  function StrOrder(): (string, string) -> bool { (a: string, b: string) => StrLe(a, b) }

  lemma StrOrderTotal()
    ensures Total(StrOrder())
  {
    forall a: string, b: string ensures StrOrder()(a, b) || StrOrder()(b, a) {
      StrLeTotal(a, b);
    }
    forall a: string, b: string, c: string | StrOrder()(a, b) && StrOrder()(b, c) ensures StrOrder()(a, c) {
      StrLeTransitive(a, b, c);
    }
  }

  /** `sorted(set(colours))`. */
  function SortedSet(colors: seq<string>): seq<string> { SortWith(Dedup(colors), StrOrder()) }

  /** The sorted set is strictly increasing and holds exactly the colours given. */
  lemma SortedSetProperties(colors: seq<string>)
    ensures var r := SortedSet(colors);
      SortedWith(r, StrOrder()) && NoDup(r)
      && (forall x :: x in r <==> x in colors)
      && (forall i, j | 0 <= i < j < |r| :: StrLe(r[i], r[j]) && r[i] != r[j])
  {
    var d := Dedup(colors);
    var r := SortedSet(colors);
    DedupProperties(colors);
    StrOrderTotal();
    SortWithCorrect(d, StrOrder());
    SortWithMembers(d, StrOrder());
    NoDupPermutation(r, d);
    forall i, j | 0 <= i < j < |r| ensures StrLe(r[i], r[j]) && r[i] != r[j] {
      assert StrOrder()(r[i], r[j]);
    }
  }

  function ColorsLine(colors: seq<string>): string {
    if colors == [] then "" else "\nВ наличии цвета: " + Join(colors, ", ") + "."
  }

  function ColorsText(cars: seq<Car>): string { ColorsLine(SortedSet(AllColors(cars))) }

  predicate HasDelivery(c: Car) { c.deliveryDays.Some? && c.deliveryDays.value != 0 }

  /** The largest set, non-zero delivery time. */
  function MaxDelivery(cars: seq<Car>): (r: Option<int>)
    ensures r.None? <==> forall c | c in cars :: !HasDelivery(c)
    ensures r.Some? ==> exists c | c in cars :: HasDelivery(c) && c.deliveryDays.value == r.value
    ensures forall c | c in cars && HasDelivery(c) :: c.deliveryDays.value <= r.value
  {
    if cars == [] then None
    else
      var last := cars[|cars| - 1];
      assert cars == cars[..|cars| - 1] + [last];
      var m := MaxDelivery(cars[..|cars| - 1]);
      if !HasDelivery(last) then m
      else if m.Some? && m.value >= last.deliveryDays.value then m
      else Some(last.deliveryDays.value)
  }

  /** `max(..., default=14)`. */
  function DeliveryDays(cars: seq<Car>): int { MaxDelivery(cars).GetOr(14) }

  const ModelClosing: string := "\nХотите рассчитать точную цену со всеми скидками или оформить бронирование?"

  function DeliveryText(days: int): string {
    "\nЕсли хотите другой цвет — срок поставки " + IntToString(days) + " дней.\n"
  }

  /** The answer for a list already sorted by price. */
  function ModelResponse(sorted: seq<Car>): string
    requires sorted != []
  {
    ModelHeader(sorted[0]) + ItemsText(Shown(sorted)) + RemainingText(|sorted|, |Shown(sorted)|)
    + ColorsText(sorted) + DeliveryText(DeliveryDays(sorted)) + ModelClosing
  }

  /** The sort of `format_model_response`, in place. */
  method SortByPrice(found: array<Car>)
    modifies found
    ensures found[..] == SortBy(old(found[..]), PriceKey)
  {
    var sorted := SortBy(found[..], PriceKey);
    forall i | 0 <= i < found.Length {
      found[i] := sorted[i];
    }
  }

  /** The listing loop: distinct trim keys, stopping after five; each listed car is written by `line`. */
  method ListVariants(sorted: seq<Car>, line: Car -> string) returns (items: string, shownCount: nat)
    ensures items == ConcatMap(Shown(sorted), line) && shownCount == |Shown(sorted)|
  {
    items := "";
    var seen: set<(string, string, int, string, string)> := {};
    shownCount := 0;
    ghost var shown: seq<Car> := [];
    ghost var target := Shown(sorted);
    var i := 0;
    while i < |sorted| && shownCount < 5
      invariant 0 <= i <= |sorted|
      invariant shownCount == |shown| <= 5
      invariant shown + DistinctFrom(sorted[i..], TrimKey, seen, 5 - shownCount) == target
      invariant items == ConcatMap(shown, line)
    {
      var car := sorted[i];
      assert sorted[i..] == [car] + sorted[i + 1..];
      ShownStep(shown, car, sorted[i + 1..], seen, 5 - shownCount, target);
      if TrimKey(car) !in seen {
        ConcatMapAppend(shown, car, line);
        seen := seen + {TrimKey(car)};
        items := items + line(car);
        shown := shown + [car];
        shownCount := shownCount + 1;
      }
      i := i + 1;
    }
    if i == |sorted| {
      assert sorted[i..] == [];
    }
    assert DistinctFrom(sorted[i..], TrimKey, seen, 5 - shownCount) == [];
    assert shown == shown + [] == target;
  }

  lemma ShownStep(shown: seq<Car>, car: Car, rest: seq<Car>, seen: set<(string, string, int, string, string)>, m: nat, target: seq<Car>)
    requires m > 0 && shown + DistinctFrom([car] + rest, TrimKey, seen, m) == target
    ensures TrimKey(car) in seen ==> shown + DistinctFrom(rest, TrimKey, seen, m) == target
    ensures TrimKey(car) !in seen ==> (shown + [car]) + DistinctFrom(rest, TrimKey, seen + {TrimKey(car)}, m - 1) == target
  {
    DistinctFromCons(car, rest, TrimKey, seen, m);
    if TrimKey(car) !in seen {
      var later := DistinctFrom(rest, TrimKey, seen + {TrimKey(car)}, m - 1);
      assert shown + ([car] + later) == (shown + [car]) + later;
    }
  }

  /** `all_colors.update(car.available_colors)` over the cars. */
  method CollectColors(found: array<Car>) returns (allColors: seq<string>)
    ensures allColors == AllColors(found[..])
  {
    allColors := [];
    for j := 0 to found.Length
      invariant allColors == AllColors(found[..j])
    {
      assert found[..j + 1][..j] == found[..j];
      allColors := allColors + found[j].availableColors;
    }
    assert found[..found.Length] == found[..];
  }

  /** The largest set delivery time, if any. */
  method LongestDelivery(found: array<Car>) returns (best: Option<int>)
    ensures best == MaxDelivery(found[..])
  {
    best := None;
    for j := 0 to found.Length
      invariant best == MaxDelivery(found[..j])
    {
      assert found[..j + 1][..j] == found[..j];
      var car := found[j];
      if car.deliveryDays.Some? && car.deliveryDays.value != 0 && !(best.Some? && best.value >= car.deliveryDays.value) {
        best := Some(car.deliveryDays.value);
      }
    }
    assert found[..found.Length] == found[..];
  }

  /**
   * `format_model_response`: sorts `found` in place by price, then lists the
   * variants, the remaining count, the colours and the delivery time. The
   * source indexes `found_models[0]`, so the list must not be empty.
   */
  method FormatModelResponse(found: array<Car>) returns (text: string)
    requires found.Length > 0
    modifies found
    ensures found[..] == SortBy(old(found[..]), PriceKey)
    ensures text == ModelResponse(found[..])
  {
    SortByPrice(found);
    ghost var sorted := found[..];
    var header := ModelHeader(found[0]);
    var items, shownCount := ListVariants(found[..], ItemLine);
    var remaining := found.Length - shownCount;
    var more := RemainingText(found.Length, shownCount);
    var allColors := CollectColors(found);
    var colorText := ColorsLine(SortedSet(allColors));
    var best := LongestDelivery(found);
    var delivery := DeliveryText(best.GetOr(14));
    text := header + items + more + colorText + delivery + ModelClosing;
  }

  /** `format_model_response` on a fresh list holding the models found; the list is returned sorted. */
  method ModelReply(foundModels: seq<Car>) returns (sorted: seq<Car>, text: string)
    requires foundModels != []
    ensures sorted == SortBy(foundModels, PriceKey) && |sorted| == |foundModels|
    ensures text == ModelResponse(sorted)
  {
    var found := new Car[|foundModels|](k requires 0 <= k < |foundModels| => foundModels[k]);
    assert found[..] == foundModels;
    text := FormatModelResponse(found);
    sorted := found[..];
  }

  /** The dealer models a text names, the cheapest first; none without a catalogue. */
  function DirectModels(catalog: Option<CarCatalog>, text: string): seq<Car> {
    if catalog.None? then []
    else
      var found := ModelsNamed(catalog.value.cars, text, DealerBrands);
      if found == [] then [] else SortBy(found, PriceKey)
  }

  /** `catalog.find_models` and `format_model_response`, as both handlers call them. */
  method FindDirectModels(catalog: Option<CarCatalog>, text: string) returns (sorted: seq<Car>, responseText: string)
    ensures sorted == DirectModels(catalog, text)
    ensures sorted != [] ==> responseText == ModelResponse(sorted)
  {
    sorted, responseText := [], "";
    if catalog.Some? {
      var foundModels := catalog.value.FindModels(text, DealerBrands);
      if foundModels != [] {
        sorted, responseText := ModelReply(foundModels);
      }
    }
  }

  /** The header names the cheapest car. */
  lemma HeaderIsCheapest(cars: seq<Car>)
    requires cars != []
    ensures SortBy(cars, PriceKey)[0] in cars
    ensures forall c | c in cars :: SortBy(cars, PriceKey)[0].finalPrice <= c.finalPrice
  {
    var s := SortBy(cars, PriceKey);
    SortByCorrect(cars, PriceKey);
    SortByMembers(cars, PriceKey);
    forall c | c in cars ensures s[0].finalPrice <= c.finalPrice {
      var k :| 0 <= k < |s| && s[k] == c;
      if k > 0 {
        ByKeyApply(PriceKey, s[0], s[k]);
      }
    }
  }

  /**
   * At most five variants are listed, with pairwise distinct trim keys, in
   * price order, and at least one; when fewer than five are listed, every
   * trim key occurring is listed.
   */
  lemma ShownProperties(cars: seq<Car>)
    ensures var s := SortBy(cars, PriceKey);
      var sh := Shown(s);
      |sh| <= 5 && DistinctKeys(sh, TrimKey) && SortedBy(sh, PriceKey)
      && (forall c | c in sh :: c in cars)
      && (cars != [] ==> sh != [])
      && (|sh| < 5 ==> forall c | c in cars :: exists d | d in sh :: TrimKey(d) == TrimKey(c))
  {
    var s := SortBy(cars, PriceKey);
    var sh := Shown(s);
    SortByCorrect(cars, PriceKey);
    SortByMembers(cars, PriceKey);
    DistinctFromProperties(s, TrimKey, {}, 5);
    SubsequenceOfSorted(sh, s, ByKey(PriceKey));
    SubsequenceMembers(sh, s);
    if cars != [] {
      assert s[0] in s;
    }
    if |sh| < 5 {
      DistinctFromComplete(s, TrimKey, {}, 5);
    }
  }

  /** The remaining count appears exactly when more cars were found than listed. */
  lemma RemainingIffMore(total: int, shown: int)
    ensures RemainingText(total, shown) != "" <==> total > shown
  {
  }

  /** The colours shown are the sorted union of the cars' colours, without repetition. */
  lemma ColorsShown(sorted: seq<Car>, x: string)
    ensures x in SortedSet(AllColors(sorted)) <==> exists c | c in sorted :: x in c.availableColors
  {
    SortedSetProperties(AllColors(sorted));
    AllColorsMembers(sorted);
  }

  lemma {:induction false} AllColorsMembers(cars: seq<Car>)
    ensures forall x :: x in AllColors(cars) <==> exists c | c in cars :: x in c.availableColors
    decreases |cars|
  {
    if cars != [] {
      var init := cars[..|cars| - 1];
      var last := cars[|cars| - 1];
      AllColorsMembers(init);
      assert cars == init + [last];
      forall x ensures x in AllColors(cars) <==> exists c | c in cars :: x in c.availableColors {
        if exists c | c in cars :: x in c.availableColors {
          var c :| c in cars && x in c.availableColors;
          if c != last {
            assert c in init;
          }
        }
      }
    }
  }

  /** The delivery time is the largest set one, or 14 days when none is set. */
  lemma DeliveryDaysProperties(cars: seq<Car>)
    ensures (forall c | c in cars :: !HasDelivery(c)) ==> DeliveryDays(cars) == 14
    ensures forall c | c in cars && HasDelivery(c) :: c.deliveryDays.value <= DeliveryDays(cars)
    ensures (exists c | c in cars :: HasDelivery(c)) ==>
              exists c | c in cars :: HasDelivery(c) && c.deliveryDays.value == DeliveryDays(cars)
  {
  }

  // ---------------------------------------------------------------------
  // `build_non_dealer_prompt`
  // ---------------------------------------------------------------------

  /** The three dealer brands as the prompt lists them. */
  const DealerNames: string := "Chery" + ", " + "Jetour" + " и " + "Haval"

  function PromptOpening(brand: string): string {
    "Компания \"АвтоЛидер\" не может предложить Вам новый автомобиль " + brand + ". "
  }

  const OfferLead: string := "Зато у нас есть новые автомобили "

  function PromptClosing(brand: string): string {
    "Что из этого Вас интересует? "
    + "Если же Вы всё-таки хотите купить автомобиль " + brand + ", могу организовать Вам звонок из отдела автомобилей с пробегом."
  }

  function BuildNonDealerPrompt(brand: string): string {
    PromptOpening(brand) + OfferLead + DealerNames + ". " + PromptClosing(brand)
  }

  /** The prompt names the brand it cannot offer. */
  lemma NonDealerPromptNamesBrand(brand: string)
    ensures Contains(BuildNonDealerPrompt(brand), brand)
  {
    var opening := "Компания \"АвтоЛидер\" не может предложить Вам новый автомобиль ";
    var tail := ". " + OfferLead + DealerNames + ". " + PromptClosing(brand);
    assert PromptOpening(brand) == opening + brand + ". ";
    assert BuildNonDealerPrompt(brand) == opening + brand + tail;
    ContainsMiddle(opening, brand, tail);
  }

  lemma DealerNamesListsDealers(b: string)
    requires b in DealerBrands
    ensures Contains(DealerNames, b)
  {
    if b == "Chery" {
      ContainsMiddle([], b, ", " + "Jetour" + " и " + "Haval");
      assert [] + b + (", " + "Jetour" + " и " + "Haval") == DealerNames;
    } else if b == "Jetour" {
      ContainsMiddle("Chery" + ", ", b, " и " + "Haval");
      assert "Chery" + ", " + b + (" и " + "Haval") == DealerNames;
    } else {
      ContainsMiddle("Chery" + ", " + "Jetour" + " и ", b, []);
      assert "Chery" + ", " + "Jetour" + " и " + b + [] == DealerNames;
    }
  }

  /** The prompt names each of the dealer's three brands. */
  lemma NonDealerPromptNamesDealers(brand: string, b: string)
    requires b in DealerBrands
    ensures Contains(BuildNonDealerPrompt(brand), b)
  {
    var pre := PromptOpening(brand) + OfferLead;
    var post := ". " + PromptClosing(brand);
    assert BuildNonDealerPrompt(brand) == pre + (DealerNames + post);
    DealerNamesListsDealers(b);
    ContainsInPrefix(DealerNames, post, b);
    ContainsInSuffix(pre, DealerNames + post, b);
  }

  // ---------------------------------------------------------------------
  // `format_color_overview`
  // ---------------------------------------------------------------------

  function BrandModel(c: Car): (string, string) { (c.brand, c.model) }

  /** The (brand, model) pairs in order of first appearance: the keys of the grouping dictionary. */
  function GroupKeys(cars: seq<Car>): (r: seq<(string, string)>)
    ensures NoDup(r)
    ensures forall k :: k in r <==> exists c | c in cars :: BrandModel(c) == k
  {
    if cars == [] then []
    else
      var init := cars[..|cars| - 1];
      var last := cars[|cars| - 1];
      assert cars == init + [last];
      var r := GroupKeys(init);
      if BrandModel(last) in r then r else r + [BrandModel(last)]
  }

  /** A key listed before another first appears before any car of the other. */
  predicate FirstSeenBefore(cars: seq<Car>, x: (string, string), y: (string, string)) {
    forall p | 0 <= p < |cars| && BrandModel(cars[p]) == y :: exists q | 0 <= q < p :: BrandModel(cars[q]) == x
  }

  lemma {:induction false} GroupKeysFirstSeen(cars: seq<Car>)
    ensures forall a, b | 0 <= a < b < |GroupKeys(cars)| :: FirstSeenBefore(cars, GroupKeys(cars)[a], GroupKeys(cars)[b])
    decreases |cars|
  {
    if cars != [] {
      var n := |cars|;
      var init := cars[..n - 1];
      var last := cars[n - 1];
      var r0 := GroupKeys(init);
      var r := GroupKeys(cars);
      GroupKeysFirstSeen(init);
      forall a, b | 0 <= a < b < |r| ensures FirstSeenBefore(cars, r[a], r[b]) {
        forall p | 0 <= p < n && BrandModel(cars[p]) == r[b]
          ensures exists q | 0 <= q < p :: BrandModel(cars[q]) == r[a]
        {
          if b < |r0| {
            assert r[a] == r0[a] && r[b] == r0[b];
            assert FirstSeenBefore(init, r0[a], r0[b]);
            if p < n - 1 {
              assert init[p] == cars[p];
              var q :| 0 <= q < p && BrandModel(init[q]) == r[a];
              assert cars[q] == init[q];
            } else {
              assert r0[b] in r0;
              var c :| c in init && BrandModel(c) == r0[b];
              var p' :| 0 <= p' < n - 1 && init[p'] == c;
              var q :| 0 <= q < p' && BrandModel(init[q]) == r[a];
              assert cars[q] == init[q];
            }
          } else {
            assert r == r0 + [BrandModel(last)] && r[a] == r0[a];
            assert p == n - 1;
            assert r0[a] in r0;
            var c :| c in init && BrandModel(c) == r0[a];
            var q :| 0 <= q < n - 1 && init[q] == c;
            assert cars[q] == c;
          }
        }
      }
    }
  }

  function InGroup(key: (string, string)): Car -> bool { (c: Car) => BrandModel(c) == key }

  function GroupOf(cars: seq<Car>, key: (string, string)): seq<Car> { Filter(cars, InGroup(key)) }

  function NonEmptyTest(): string -> bool { (x: string) => x != "" }

  /** The sorted distinct non-empty colours of a group. */
  function GroupColors(group: seq<Car>): seq<string> { SortedSet(Filter(AllColors(group), NonEmptyTest())) }

  function DeliveryOr14(c: Car): int { if HasDelivery(c) then c.deliveryDays.value else 14 }

  /** `min((c.delivery_days or 14) for c in group)`, and 14 for no car. */
  function MinDelivery(group: seq<Car>): (r: int)
    ensures group == [] ==> r == 14
    ensures group != [] ==> exists c | c in group :: r == DeliveryOr14(c)
    ensures forall c | c in group :: r <= DeliveryOr14(c)
  {
    if group == [] then 14
    else if |group| == 1 then DeliveryOr14(group[0])
    else
      var init := group[..|group| - 1];
      var last := group[|group| - 1];
      assert group == init + [last];
      var m := MinDelivery(init);
      if m <= DeliveryOr14(last) then m else DeliveryOr14(last)
  }

  function GroupLine(key: (string, string), group: seq<Car>): string {
    var colors := GroupColors(group);
    if colors != [] then key.0 + " " + key.1 + ": " + Join(colors, ", ")
    else key.0 + " " + key.1 + ": в наличии нет. Срок поставки " + IntToString(MinDelivery(group)) + " дней."
  }

  /** One line per key, written by `line` from the key and its group. */
  function LinesFor(cars: seq<Car>, keys: seq<(string, string)>, line: ((string, string), seq<Car>) -> string): (r: seq<string>)
    ensures |r| == |keys|
  {
    seq(|keys|, j requires 0 <= j < |keys| => line(keys[j], GroupOf(cars, keys[j])))
  }

  function OverviewLines(cars: seq<Car>, keys: seq<(string, string)>): (r: seq<string>)
    ensures |r| == |keys|
  {
    LinesFor(cars, keys, GroupLine)
  }

  const NoColorInfo: string := "По указанным моделям сейчас нет информации о цветах."
  const ColorHeader: string := "По вашим моделям доступны такие цвета:\n"

  function ColorOverview(cars: seq<Car>): string {
    var lines := OverviewLines(cars, GroupKeys(cars));
    if lines == [] then NoColorInfo else ColorHeader + Join(lines, "\n")
  }

  /** The dictionary holds exactly the keys in `order`, each mapped to its group of `cars`. */
  predicate Grouped(cars: seq<Car>, grouped: map<(string, string), seq<Car>>, order: seq<(string, string)>) {
    (forall k | k in grouped :: k in order) && (forall k | k in order :: k in grouped && grouped[k] == GroupOf(cars, k))
  }

  /** The grouping loop: `grouped[(car.brand, car.model)].append(car)`, keys kept in insertion order. */
  method GroupByModel(cars: seq<Car>) returns (grouped: map<(string, string), seq<Car>>, order: seq<(string, string)>)
    ensures order == GroupKeys(cars)
    ensures forall k | k in grouped :: k in order
    ensures forall k | k in order :: k in grouped && grouped[k] == GroupOf(cars, k)
  {
    grouped := map[];
    order := [];
    for i := 0 to |cars|
      invariant order == GroupKeys(cars[..i])
      invariant Grouped(cars[..i], grouped, order)
    {
      var car := cars[i];
      var key := BrandModel(car);
      PrefixStep(cars, i);
      GroupKeysStep(cars[..i], car);
      GroupStep(cars[..i], car, grouped, order);
      if key in grouped {
        grouped := grouped[key := grouped[key] + [car]];
      } else {
        grouped := grouped[key := [car]];
        order := order + [key];
      }
    }
    assert cars[..|cars|] == cars;
  }

  /** A car adds its key at the end unless the key was already seen. */
  lemma GroupKeysStep(prefix: seq<Car>, car: Car)
    ensures GroupKeys(prefix + [car]) ==
      if BrandModel(car) in GroupKeys(prefix) then GroupKeys(prefix) else GroupKeys(prefix) + [BrandModel(car)]
  {
    var all := prefix + [car];
    assert all[..|all| - 1] == prefix && all[|all| - 1] == car;
  }

  /** One step of the grouping loop keeps the dictionary equal to the groups of the cars seen so far. */
  lemma GroupStep(prefix: seq<Car>, car: Car, grouped: map<(string, string), seq<Car>>, order: seq<(string, string)>)
    requires order == GroupKeys(prefix) && Grouped(prefix, grouped, order)
    ensures var key := BrandModel(car);
      key in grouped ==> Grouped(prefix + [car], grouped[key := grouped[key] + [car]], order)
    ensures var key := BrandModel(car);
      key !in grouped ==> Grouped(prefix + [car], grouped[key := [car]], order + [key])
  {
    var key := BrandModel(car);
    var all := prefix + [car];
    forall k | k in order || k == key
      ensures GroupOf(all, k) == GroupOf(prefix, k) + (if k == key then [car] else [])
    {
      FilterAppend(prefix, car, InGroup(k));
    }
    if key in grouped {
      var g := grouped[key := grouped[key] + [car]];
      forall k | k in order
        ensures k in g && g[k] == GroupOf(all, k)
      {
      }
    } else {
      assert key !in order;
      FilterEmpty(prefix, InGroup(key));
      assert GroupOf(prefix, key) == [];
      var g := grouped[key := [car]];
      forall k | k in order + [key]
        ensures k in g && g[k] == GroupOf(all, k)
      {
        if k != key {
          assert k in order;
        }
      }
    }
  }

  /** The second loop of `format_color_overview`: one line per group, in key order. */
  method WriteGroupLines(cars: seq<Car>, grouped: map<(string, string), seq<Car>>, order: seq<(string, string)>,
                         line: ((string, string), seq<Car>) -> string)
    returns (lines: seq<string>)
    requires forall k | k in order :: k in grouped && grouped[k] == GroupOf(cars, k)
    ensures lines == LinesFor(cars, order, line)
  {
    lines := [];
    for j := 0 to |order|
      invariant lines == LinesFor(cars, order[..j], line)
    {
      var key := order[j];
      lines := lines + [line(key, grouped[key])];
    }
    assert order[..|order|] == order;
  }

  /** `format_color_overview`: groups the cars by (brand, model), then writes one line per group. */
  method FormatColorOverview(cars: seq<Car>) returns (text: string)
    ensures text == ColorOverview(cars)
  {
    var grouped, order := GroupByModel(cars);
    var lines := WriteGroupLines(cars, grouped, order, GroupLine);
    if lines == [] {
      text := NoColorInfo;
    } else {
      text := ColorHeader + Join(lines, "\n");
    }
  }

  /** No cars give the fixed no-information text; otherwise one line per (brand, model), in first-seen order. */
  lemma ColorOverviewShape(cars: seq<Car>)
    ensures cars == [] ==> ColorOverview(cars) == NoColorInfo
    ensures cars != [] ==>
      ColorOverview(cars) == ColorHeader + Join(OverviewLines(cars, GroupKeys(cars)), "\n")
      && |OverviewLines(cars, GroupKeys(cars))| == |GroupKeys(cars)| > 0
  {
    if cars != [] {
      assert BrandModel(cars[0]) in GroupKeys(cars);
    }
  }

  /** A group line lists the sorted distinct non-empty colours of the group, or its shortest delivery time. */
  lemma GroupLineProperties(key: (string, string), group: seq<Car>)
    ensures var cs := GroupColors(group);
      NoDup(cs) && SortedWith(cs, StrOrder())
      && (forall x :: x in cs <==> x != "" && exists c | c in group :: x in c.availableColors)
      && (cs == [] ==> GroupLine(key, group)
                       == key.0 + " " + key.1 + ": в наличии нет. Срок поставки " + IntToString(MinDelivery(group)) + " дней.")
  {
    var all := AllColors(group);
    SortedSetProperties(Filter(all, NonEmptyTest()));
    AllColorsMembers(group);
  }
}

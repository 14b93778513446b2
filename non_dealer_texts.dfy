/**
 * The parsers and reply texts of app/handlers/non_dealer_choice.py: the
 * phone prompt, the colour table and its lookup, variant references, and
 * the messages built from cached offers and from a fresh selection.
 */
module NonDealerTexts {
  import opened Wrappers
  import opened Text
  import opened Scan
  import opened Catalog
  import TP = TextParsers
  import ResponseHelpers
  import Sequences

  // ---------------------------------------------------------------------
  // The phone prompt
  // ---------------------------------------------------------------------

  /** `PHONE_PROMPT`. */
  const PhonePromptText: string := "Оставьте свой номер телефона, Вам в течение 10 минут позвонит специалист."

  const CallBackOffer: string := "Хотите поговорить со специалистом? ответьте \"ДА\", и он перезвонит Вам в течение 10 минут"

  /** `get_phone_prompt`: an offer to call back when the phone is known, else the request for it. */
  function PhonePrompt(hasPhone: bool): string {
    if hasPhone then CallBackOffer else PhonePromptText
  }

  /** `PHONE_PROMPT` with "Оставьте свой" replaced by "оставьте, пожалуйста, Ваш". */
  const PoliteAsk: string := "оставьте, пожалуйста, Ваш номер телефона, Вам в течение 10 минут позвонит специалист."

  /** `PHONE_PROMPT` with "Оставьте свой" replaced by "оставьте свой". */
  const LowerAsk: string := "оставьте свой номер телефона, Вам в течение 10 минут позвонит специалист."

  // ---------------------------------------------------------------------
  // `detect_requested_color`
  // ---------------------------------------------------------------------

  /** `COLOR_WORDS`: each colour with its inflected forms, in table order. */
  const ColorTable: TP.Table := [
    ("белый", ["белый", "белая", "белое", "белые", "белом", "белую"]),
    ("черный", ["черный", "черная", "черное", "черные", "черном", "черную",
                "чёрный", "чёрная", "чёрное", "чёрные", "чёрном", "чёрную"]),
    ("серый", ["серый", "серая", "серое", "серые", "сером", "серую"]),
    ("синий", ["синий", "синяя", "синее", "синие", "синем", "синюю"]),
    ("голубой", ["голубой", "голубая", "голубое", "голубые", "голубом", "голубую"]),
    ("красный", ["красный", "красная", "красное", "красные", "красном", "красную"]),
    ("зеленый", ["зеленый", "зеленая", "зеленое", "зеленые", "зеленом", "зеленую",
                 "зелёный", "зелёная", "зелёное", "зелёные", "зелёном", "зелёную"]),
    ("желтый", ["желтый", "желтая", "желтое", "желтые", "желтом", "желтую",
                "жёлтый", "жёлтая", "жёлтое", "жёлтые", "жёлтом", "жёлтую"]),
    ("оранжевый", ["оранжевый", "оранжевая", "оранжевое", "оранжевые", "оранжевом", "оранжевую"]),
    ("фиолетовый", ["фиолетовый", "фиолетовая", "фиолетовое", "фиолетовые", "фиолетовом", "фиолетовую"]),
    ("розовый", ["розовый", "розовая", "розовое", "розовые", "розовом", "розовую"]),
    ("бордовый", ["бордовый", "бордовая", "бордовое", "бордовые", "бордовом", "бордовую"]),
    ("коричневый", ["коричневый", "коричневая", "коричневое", "коричневые", "коричневом", "коричневую"]),
    ("бежевый", ["бежевый", "бежевая", "бежевое", "бежевые", "бежевом", "бежевую"]),
    ("серебристый", ["серебристый", "серебристая", "серебристое", "серебристые", "серебристом", "серебристую"]),
    ("золотой", ["золотой", "золотая", "золотое", "золотые", "золотом", "золотую"])]

  /** `detect_requested_color`: the first colour with a form contained in the text, ё read as е. */
  function RequestedColor(textLower: string): Option<string> {
    TP.Category(YoToYe(textLower), ColorTable)
  }

  /** The nested `for color, variants ... for variant ...: return color` loops. */
  method DetectRequestedColor(textLower: string) returns (color: Option<string>)
    ensures color == RequestedColor(textLower)
  {
    var normalized := YoToYe(textLower);
    color := TP.FirstCategory(normalized, ColorTable);
  }

  /**
   * The colour found is a key of the table, some form of it occurs in the
   * normalised text and no earlier colour has a form there; no colour is
   * found exactly when no form of any colour occurs.
   */
  lemma RequestedColorIsFirstKey(textLower: string)
    ensures RequestedColor(textLower).None? <==>
      forall m, j | 0 <= m < |ColorTable| && 0 <= j < |ColorTable[m].1| :: !Contains(YoToYe(textLower), ColorTable[m].1[j])
    ensures RequestedColor(textLower).Some? ==> exists m | 0 <= m < |ColorTable| ::
      RequestedColor(textLower) == Some(ColorTable[m].0)
      && (exists j | 0 <= j < |ColorTable[m].1| :: Contains(YoToYe(textLower), ColorTable[m].1[j]))
      && forall m' | 0 <= m' < m :: !ContainsAny(YoToYe(textLower), ColorTable[m'].1)
  {
    TP.CategoryIff(YoToYe(textLower), ColorTable);
  }

  /** Each colour's name is its own first form, so a text naming the colour finds it unless an earlier one matches. */
  lemma ColorNamesAreForms(m: nat)
    requires m < |ColorTable|
    ensures ColorTable[m].1 != [] && ColorTable[m].1[0] == ColorTable[m].0
  {
  }

  // ---------------------------------------------------------------------
  // Follow-ups on the cached offers
  // ---------------------------------------------------------------------

  /** `max(0, min(idx, n - 1))`. */
  function ClampIndex(idx: int, n: nat): (r: nat)
    requires n > 0
    ensures r < n
    ensures 0 <= idx < n ==> r == idx
    ensures idx < 0 ==> r == 0
    ensures idx >= n ==> r == n - 1
  {
    if idx < 0 then 0 else if idx > n - 1 then n - 1 else idx
  }

  /** One of the car's colours, ё read as е, contains the colour or is contained in it. */
  predicate HasColor(car: Car, color: string) {
    exists k | 0 <= k < |car.availableColors| ::
      Contains(YoToYe(car.availableColors[k]), color) || Contains(color, YoToYe(car.availableColors[k]))
  }

  function CarName(car: Car): string { car.brand + " " + car.model + " " + car.trim }

  function ColorInStockText(car: Car, color: string, prompt: string): string {
    CarName(car) + " есть в наличии в цвете " + color + ". "
    + "Хотите забронировать или посмотреть другие варианты?\n\n" + prompt
  }

  function CanBringText(eta: int, prompt: string): string {
    "Если цвета или комплектации нет в наличии, сможем привезти за " + IntToString(eta) + " дней. " + prompt
  }

  /** The answer about a requested colour for one cached car. */
  function ColorAnswer(car: Car, color: string, prompt: string): string {
    if HasColor(car, color) then ColorInStockText(car, color, prompt)
    else CanBringText(ResponseHelpers.DeliveryOr14(car), prompt)
  }

  /** `", ".join(colors) if colors else empty`. */
  function ColorsOr(colors: seq<string>, empty: string): string {
    if colors == [] then empty else Join(colors, ", ")
  }

  /** The colours of the selected variant and the delivery time for other shades. */
  function MoreColorsText(car: Car, prompt: string): string {
    CarName(car) + " сейчас есть в цветах: " + ColorsOr(car.availableColors, "сейчас отсутствуют") + ".\n"
    + "Другие оттенки сможем привезти под заказ примерно за " + IntToString(ResponseHelpers.DeliveryOr14(car)) + " дней."
    + "\n\n" + prompt
  }

  function OrderNoteText(prompt: string): string {
    "Для указанных моделей, если нужного цвета нет в наличии, мы можем привезти автомобиль под заказ (срок поставки ~14 дней).\n\n"
    + prompt
  }

  const ColorFollowUps: seq<string> := ["другие цвет", "другой цвет", "еще цвет", "ещё цвет", "есть ли другие цвета", "а другие цвета"]

  // ---------------------------------------------------------------------
  // Variant references
  // ---------------------------------------------------------------------

  const VariantWords: seq<string> := ["вариант", "варианта", "варианте", "номер", "позиция", "#"]

  /**
   * `(?:вариант|варианта|варианте|номер|позиция|#)\s*(\d+)` at `i`: the
   * alternatives are tried in order and the first one followed by optional
   * whitespace and a digit gives the number of the whole digit run.
   */
  function WordNumberFrom(s: string, i: nat, k: nat): Option<nat>
    decreases |VariantWords| - k
  {
    if k >= |VariantWords| then None
    else if OccursAt(s, VariantWords[k], i) then
      var j := SkipSpaces(s, i + |VariantWords[k]|);
      var l := DigitRun(s, j);
      if l > 0 then Some(NumberAt(s, j, j + l)) else WordNumberFrom(s, i, k + 1)
    else WordNumberFrom(s, i, k + 1)
  }

  /**
   * `(\d+)\s*(?:-?\s*(?:вариант|варианта|варианте))` at `i`; the digit run
   * is taken whole, and "вариант" begins the other two words, so it alone
   * decides whether the word follows.
   */
  function NumberWordAt(s: string, i: nat): Option<nat> {
    var l := DigitRun(s, i);
    if l == 0 then None
    else
      var j := SkipSpaces(s, i + l);
      var k := if j < |s| && s[j] == '-' then SkipSpaces(s, j + 1) else j;
      if OccursAt(s, "вариант", k) then Some(NumberAt(s, i, i + l)) else None
  }

  function WordNumberScan(s: string): nat -> Option<nat> { (i: nat) => WordNumberFrom(s, i, 0) }
  function NumberWordScan(s: string): nat -> Option<nat> { (i: nat) => NumberWordAt(s, i) }

  /** The referenced variant, counted from 0: "вариант N" first, then "N вариант". */
  function VariantNumber(textLower: string): Option<int> {
    match Scan.First(WordNumberScan(textLower), |textLower|)
    case Some(n) => Some(n as int - 1)
    case None =>
      match Scan.First(NumberWordScan(textLower), |textLower|)
      case Some(n) => Some(n as int - 1)
      case None => None
  }

  /** The ordinal words for the first three offers, or -1. */
  function OrdinalIndex(textLower: string): int {
    if Contains(textLower, "первый") || Contains(textLower, "1-й") then 0
    else if Contains(textLower, "второй") || Contains(textLower, "2-й") then 1
    else if Contains(textLower, "третий") || Contains(textLower, "3-й") then 2
    else -1
  }

  /** The index a follow-up refers to, -1 when none. */
  function TargetIndex(textLower: string): int {
    match VariantNumber(textLower)
    case Some(v) => v
    case None => OrdinalIndex(textLower)
  }

  /** A referenced number is at least -1, and an ordinal word refers to one of the first three offers. */
  lemma TargetIndexRange(textLower: string)
    ensures TargetIndex(textLower) >= -1
    ensures VariantNumber(textLower).None? ==> -1 <= TargetIndex(textLower) <= 2
  {
  }

  /** "вариант 2" refers to the second offer. */
  lemma VariantWordExample()
    ensures VariantNumber("вариант 2") == Some(1)
  {
    var s := "вариант 2";
    assert s[0..7] == "вариант";
    assert SkipSpaces(s, 7) == 8;
    assert DigitRun(s, 8) == 1;
    assert s[8..9] == "2";
    assert NumberAt(s, 8, 9) == 2;
    assert WordNumberScan(s)(0) == Some(2);
  }

  /** "3 вариант" refers to the third offer. */
  lemma {:induction false} NumberWordExample()
    ensures VariantNumber("3 вариант") == Some(2)
  {
    var s := "3 вариант";
    NoWordNumber();
    NumberWordAtStart();
    assert Scan.First(NumberWordScan(s), |s|) == Some(3);
  }

  /** "3 вариант" has no variant word followed by a number. */
  lemma NoWordNumber()
    ensures Scan.First(WordNumberScan("3 вариант"), 9).None?
  {
    var s := "3 вариант";
    forall i | 0 <= i < |s| ensures WordNumberScan(s)(i).None? {
      WordNumberNone(s, i);
    }
  }

  /** "3 вариант" starts with a number followed by a variant word. */
  lemma NumberWordAtStart()
    ensures NumberWordScan("3 вариант")(0) == Some(3)
  {
    var s := "3 вариант";
    assert |s| == 9 && s[0] == '3' && s[1] == ' ' && s[2] == 'в';
    assert DigitRun(s, 0) == 1 by { assert DigitRun(s, 1) == 0; }
    assert SkipSpaces(s, 1) == 2 by { assert SkipSpaces(s, 2) == 2; }
    assert OccursAt(s, "вариант", 2) by { assert s[2..9] == "вариант"; }
    assert NumberAt(s, 0, 1) == 3 by { assert s[0..1] == "3"; }
    NumberThenWord(s, 0, 1, 2);
  }

  /** A digit run, spaces and the word "вариант" make a "N вариант" match. */
  lemma NumberThenWord(s: string, i: nat, l: nat, j: nat)
    requires 0 < l && DigitRun(s, i) == l && i + l <= |s| && SkipSpaces(s, i + l) == j
    requires j < |s| && s[j] != '-' && OccursAt(s, "вариант", j)
    ensures NumberWordScan(s)(i) == Some(NumberAt(s, i, i + l))
  {
  }

  /** In "3 вариант" no variant word is followed by a number. */
  lemma WordNumberNone(s: string, i: nat)
    requires s == "3 вариант" && i < |s|
    ensures WordNumberScan(s)(i).None?
  {
    assert |s| == 9;
    forall k | 0 <= k < |VariantWords| ensures NoNumberAfter(s, i, VariantWords[k]) {
      var w := VariantWords[k];
      if i == 2 && k == 0 {
        assert SkipSpaces(s, 9) == 9;
      } else if i < 2 || (i == 2 && k >= 3) || w == "#" {
        assert s[i] != w[0];
        FirstCharMismatch(s, w, i);
      } else if w == "номер" && i <= 4 {
        assert s[i] != w[0];
        FirstCharMismatch(s, w, i);
      }
    }
    WordNumberFromNone(s, i, 0);
  }

  /** The variant word `w` does not occur at `i`, or no digit follows it. */
  predicate NoNumberAfter(s: string, i: nat, w: string) {
    OccursAt(s, w, i) ==> DigitRun(s, SkipSpaces(s, i + |w|)) == 0
  }

  lemma {:induction false} WordNumberFromNone(s: string, i: nat, k: nat)
    requires forall k' | k <= k' < |VariantWords| :: NoNumberAfter(s, i, VariantWords[k'])
    ensures WordNumberFrom(s, i, k).None?
    decreases |VariantWords| - k
  {
    if k < |VariantWords| {
      WordNumberFromNone(s, i, k + 1);
    }
  }

  /** A word whose first letter differs from the text's letter at `i` does not occur there. */
  lemma FirstCharMismatch(s: string, w: string, i: nat)
    requires |w| > 0 && i < |s| && s[i] != w[0]
    ensures !OccursAt(s, w, i)
  {
  }

  /** The context questions about cached offers. */
  const ContextWords: seq<string> := ["цвет", "скидк", "акци", "наличи", "стоит", "цена", "сколько", "почем"]

  // ---------------------------------------------------------------------
  // The detail card of one cached offer
  // ---------------------------------------------------------------------

  function DetailDiscounts(c: Car): seq<string> {
    (if c.discountTradein != 0 then ["Трейд-ин: " + IntGrouped(c.discountTradein, ",")] else [])
    + (if c.discountCredit != 0 then ["Кредит: " + IntGrouped(c.discountCredit, ",")] else [])
    + (if c.discountGov != 0 then ["Госпрограмма: " + IntGrouped(c.discountGov, ",")] else [])
    + (if c.discountOther != 0 then ["Спец: " + IntGrouped(c.discountOther, ",")] else [])
  }

  function Bullet(d: string): string { "- " + d }

  function Bulleted(ds: seq<string>): seq<string>
    ensures |Bulleted(ds)| == |ds|
  {
    seq(|ds|, k requires 0 <= k < |ds| => Bullet(ds[k]))
  }

  function FinalPriceLine(c: Car): string { "💰 **Цена итого:** " + IntGrouped(c.finalPrice, ",") + " ₽\n" }

  function ListPriceLine(c: Car): string {
    if c.basePrice != 0 && c.basePrice > c.finalPrice then "🏷 **РРЦ (базовая):** " + IntGrouped(c.basePrice, ",") + " ₽\n" else ""
  }

  function DiscountsBlock(ds: seq<string>): string {
    if ds == [] then "" else "📉 **Включенные скидки:**\n" + Join(Bulleted(ds), "\n") + "\n"
  }

  function CardTitle(c: Car): string { "🚙 **" + CarName(c) + "**\n\n" }

  function ColorsLine(c: Car): string {
    "🎨 **Цвета в наличии:** " + ColorsOr(c.availableColors, "уточняйте у менеджера") + "\n"
  }

  function DetailHead(c: Car): string { CardTitle(c) + ColorsLine(c) }

  function DetailTail(c: Car): string {
    ListPriceLine(c) + DiscountsBlock(DetailDiscounts(c)) + "\n"
    + "⏱ **Срок поставки (если нет цвета):** " + IntToString(ResponseHelpers.DeliveryOr14(c)) + " дней.\n\n"
    + "Хотите забронировать этот автомобиль или оформить заявку?"
  }

  /** The card of one cached offer: name and colours, prices, discounts, delivery. */
  function DetailText(c: Car): string { DetailHead(c) + FinalPriceLine(c) + DetailTail(c) }

  /** The card opens with the car's name. */
  lemma DetailNamesCar(c: Car)
    ensures StartsWith(DetailText(c), CardTitle(c))
    ensures Contains(CardTitle(c), CarName(c))
  {
    StartsWithHead(CardTitle(c), ColorsLine(c), FinalPriceLine(c), DetailTail(c));
    ContainsMiddle("🚙 **", CarName(c), "**\n\n");
  }

  /** The card shows the final price, grouped in thousands. */
  lemma DetailShowsPrice(c: Car)
    ensures Contains(DetailText(c), IntGrouped(c.finalPrice, ","))
  {
    var price := IntGrouped(c.finalPrice, ",");
    ContainsMiddle("💰 **Цена итого:** ", price, " ₽\n");
    ContainsInSuffix(DetailHead(c), FinalPriceLine(c), price);
    ContainsInPrefix(DetailHead(c) + FinalPriceLine(c), DetailTail(c), price);
  }

  // ---------------------------------------------------------------------
  // The overview of all cached offers
  // ---------------------------------------------------------------------

  /** `", ".join(colors[:3]) + ("..." if len(colors) > 3 else "")`. */
  function FirstColors(colors: seq<string>): string {
    if |colors| > 3 then Join(colors[..3], ", ") + "..." else Join(colors, ", ")
  }

  function MaxDiscount(c: Car): int {
    c.discountTradein + c.discountCredit + c.discountGov + c.discountOther
  }

  /** The overview entry of the `i`-th cached offer, counted from 1. */
  function OverviewEntry(i: nat, c: Car): string {
    NatToString(i) + ". **" + c.brand + " " + c.model + "**\n"
    + "   🎨 Цвета: " + FirstColors(c.availableColors) + "\n"
    + (if MaxDiscount(c) > 0 then "   📉 Скидки до: " + IntGrouped(MaxDiscount(c), ",") + " ₽\n"
       else "   Цена без скидок: " + IntGrouped(c.finalPrice, ",") + " ₽\n")
    + "\n"
  }

  const OverviewHeader: string := "По Вашим вариантам:\n\n"

  function Overview(cached: seq<Car>, prompt: string): string {
    OverviewHeader + Enumerated(cached, OverviewEntry, 1) + "\n" + prompt
  }

  /** The numbered loop over the cached offers. */
  method WriteOverview(cached: seq<Car>, prompt: string) returns (response: string)
    ensures response == Overview(cached, prompt)
  {
    var entries := "";
    for i := 0 to |cached|
      invariant entries == Enumerated(cached[..i], OverviewEntry, 1)
    {
      EnumeratedAppend(cached[..i], cached[i], OverviewEntry, 1);
      Sequences.PrefixStep(cached, i);
      entries := entries + OverviewEntry(i + 1, cached[i]);
    }
    assert cached[..|cached|] == cached;
    response := OverviewHeader + entries + "\n" + prompt;
  }

  /** Every cached offer appears in the overview under its number. */
  lemma OverviewListsEveryOffer(cached: seq<Car>, prompt: string, k: nat)
    requires k < |cached|
    ensures Contains(Overview(cached, prompt), OverviewEntry(k + 1, cached[k]))
  {
    EnumeratedContains(cached, OverviewEntry, 1, k);
    ContainsInSuffix(OverviewHeader, Enumerated(cached, OverviewEntry, 1), OverviewEntry(k + 1, cached[k]));
    ContainsInPrefix(OverviewHeader + Enumerated(cached, OverviewEntry, 1), "\n" + prompt, OverviewEntry(k + 1, cached[k]));
    assert Overview(cached, prompt) == OverviewHeader + Enumerated(cached, OverviewEntry, 1) + ("\n" + prompt);
  }

  // ---------------------------------------------------------------------
  // The offers of a fresh selection
  // ---------------------------------------------------------------------

  /** The drive in words: "4x4" as "полный", the two axles as themselves, anything else unchanged. */
  function DriveWords(drive: string): string {
    var d := Lower(drive);
    if d == "4x4" then "полный" else if d == "передний" then "передний" else if d == "задний" then "задний" else drive
  }

  /** The price block: the discounted price, then the list price and the discounts. */
  function PriceBlock(c: Car): string {
    var ds := ResponseHelpers.DiscountParts(c);
    "Цена с учетом скидок: " + IntGrouped(c.finalPrice, " ") + " ₽"
    + (if c.basePrice != 0 && c.basePrice > c.finalPrice then
         "\n     (РРЦ: " + IntGrouped(c.basePrice, " ") + " ₽" + (if ds != [] then ". Скидки: " + Join(ds, ", ") else "") + ")"
       else if ds != [] then "\n     (Скидки: " + Join(ds, ", ") + ")"
       else "")
  }

  /** The entry of the `i`-th offer, counted from 1. */
  function OfferEntry(i: nat, c: Car): string {
    NatToString(i) + ". " + CarName(c) + "\n"
    + "   • " + c.body + ", " + DriveWords(c.drive) + ", " + c.engineType + " " + IntToString(c.power) + " л.с.\n"
    + "   • " + c.transmission + " (" + c.transmissionDetails + ")\n"
    + "   • " + PriceBlock(c) + "\n\n"
  }

  const MoreQuestion: string := "Хотите посмотреть подробнее (цвета, скидки) или подобрать ещё варианты?"

  /** The header of the selection, by what the message asked for. */
  function OffersHeader(power: bool, expensive: bool, moreExpensive: bool): string {
    if power then "Подобрал для Вас самые мощные варианты по вашим критериям:\n"
    else if expensive then "Подобрал для Вас максимальные комплектации:\n"
    else if moreExpensive then "Посмотрел варианты подороже:\n"
    else "По вашим параметрам подобрал варианты:\n"
  }

  /** The closing address: the call-back offer when the phone is known, else the request for it. */
  function PersonalPrompt(name: string, hasPhone: bool): string {
    "\n\n" + name + ", " + (if hasPhone then PhonePrompt(true) else LowerAsk)
  }

  /** The numbered offers, the follow-up question and the personal phone prompt. */
  function OffersText(offers: seq<Car>, name: string, hasPhone: bool): string {
    Enumerated(offers, OfferEntry, 1) + MoreQuestion + PersonalPrompt(name, hasPhone)
  }

  /** The numbered loop over the offers. */
  method WriteOffers(offers: seq<Car>, name: string, hasPhone: bool) returns (response: string)
    ensures response == OffersText(offers, name, hasPhone)
  {
    response := "";
    for i := 0 to |offers|
      invariant response == Enumerated(offers[..i], OfferEntry, 1)
    {
      EnumeratedAppend(offers[..i], offers[i], OfferEntry, 1);
      Sequences.PrefixStep(offers, i);
      response := response + OfferEntry(i + 1, offers[i]);
    }
    assert offers[..|offers|] == offers;
    response := response + MoreQuestion;
    var prompt: string;
    if hasPhone {
      prompt := "\n\n" + name + ", " + PhonePrompt(true);
    } else {
      prompt := "\n\n" + name + ", " + LowerAsk;
    }
    response := response + prompt;
  }

  /** Every offer appears in the selection under its number. */
  lemma OffersListEveryOffer(offers: seq<Car>, name: string, hasPhone: bool, k: nat)
    requires k < |offers|
    ensures Contains(OffersText(offers, name, hasPhone), OfferEntry(k + 1, offers[k]))
  {
    EnumeratedContains(offers, OfferEntry, 1, k);
    ContainsInHead(Enumerated(offers, OfferEntry, 1), MoreQuestion, PersonalPrompt(name, hasPhone), OfferEntry(k + 1, offers[k]));
  }

  const CatalogUpdating: string := "Сейчас каталог обновляется. Оставьте заявку, менеджер свяжется с Вами."
  const NothingFound: string := "К сожалению, по таким параметрам сейчас нет автомобилей в наличии."

  /** The second message after an empty selection. */
  function ManagerHelpText(name: string, hasPhone: bool): string {
    "Могу предложить помощь менеджера, чтобы подобрать альтернативу индивидуально.\n"
    + name + ", " + (if hasPhone then PhonePrompt(true) else PoliteAsk)
  }
}

/**
 * `handle_non_dealer_choice` (app/handlers/non_dealer_choice.py): the
 * catalogue search and the follow-up questions about the offers shown.
 *
 * The handler tries its stages in the source's order and the first that
 * answers ends the turn: a phone number in the text, "I already gave my
 * number", a request for a manager, a service request, a colour question
 * about named models, the colour or the variant of a cached offer, a model
 * named directly, and finally the search with its fallbacks. Each stage is a
 * function from the conversation snapshot to `Some(new snapshot)` when it
 * answers; `NonDealerChoiceStep` chains them and `HandleNonDealerChoice` is
 * the handler, proved to produce exactly that snapshot.
 */
module NonDealerChoiceHandler {
  import opened Wrappers
  import opened Text
  import opened Dto
  import opened States
  import opened Brands
  import opened Catalog
  import opened SemanticSearch
  import opened Sequences
  import opened TopOffers
  import opened Session
  import opened NonDealerTexts
  import Phone
  import Scan
  import TP = TextParsers
  import ResponseHelpers
  import ConfirmHandler

  // ---------------------------------------------------------------------
  // Keyword lists
  // ---------------------------------------------------------------------

  const ActionWords: seq<string> := ["оставлял", "давал", "писал", "уже есть", "знаете", "сообщал", "оставил", "дал", "написал"]
  const ObjectWords: seq<string> := ["номер", "телефон", "контакт"]
  const ManagerWords: seq<string> := ["менеджер", "позвони", "связаться", "звонок", "перезвон", "набери", "телефон", "бронир", "забронир", "оформи"]
  const ConsentWords: seq<string> := ["да", "yes", "хочу", "конечно", "давай"]
  const UsedWords: seq<string> := ["пробег", "с пробегом", "б/у", "бу", "подержан"]
  const ServiceTokens: seq<string> := ["ремонт", "обслуж", "сервис", "техобслуж", "замен", "помен", "масло", "диагност", "шумит", "стук", "кузов", "вмятин"]
  const PriceWords: seq<string> := ["стоит", "цена", "почем", "сколько", "стоимость"]
  const MoreExpensiveWords: seq<string> := ["подороже", "дорого", "повыше", "больше", "дороже"]

  const NumberNotFoundReply: string := "Извините, не смог найти Ваш номер в текущей сессии. Напишите его еще раз, пожалуйста."
  const ServiceReply: string :=
    "Понял, Вас интересует сервис/обслуживание. Уточните, пожалуйста, какой ремонт нужен: слесарный (двигатель, подвеска, ТО) или кузовной?"

  function ManagerReply(d: SessionData): string {
    "Хорошо, передам запрос менеджеру.\n" + NameOr(d) + ", " + PoliteAsk
  }

  /** The phone prompt of this turn, by whether a phone is already known. */
  function PromptOf(d: SessionData): string { PhonePrompt(Truthy(d.phone)) }

  // ---------------------------------------------------------------------
  // Stages 1-4: phone, "already gave it", manager, service
  // ---------------------------------------------------------------------

  /** A dealer-brand first cached offer turns the lead into a new-car purchase of that brand. */
  function RoutingFix(d: SessionData, clearNonDealer: bool): SessionData {
    var last := d.lastSearchResults;
    if last != [] && last[0].brand in DealerBrands then
      var fixed := d.(intent := Some(BuyNew), targetBrand := Some(last[0].brand));
      if clearNonDealer then fixed.(nonDealerBrand := None) else fixed
    else d
  }

  /** `set_state(confirm)` followed by `ask_confirm`, with the record `d` stored. */
  function ToConfirm(s: Snapshot, d: SessionData): Snapshot {
    ConfirmHandler.AskConfirmStep(Goto(s.(data := d), Confirm))
  }

  /** A short consent: the whole text, or one of its words, is a consent word. */
  predicate Consents(lower: string) {
    exists k | 0 <= k < |ConsentWords| :: ConsentWords[k] == lower || ConsentWords[k] in Tokens(lower)
  }

  predicate ManagerRequest(text: string) {
    var lower := Lower(text);
    ContainsAny(lower, ManagerWords) || (|Tokens(text)| <= 3 && Consents(lower))
  }

  /** The manager request marks a used-car purchase, else applies the routing fix without clearing the other brand. */
  function ManagerData(d: SessionData, lower: string): SessionData {
    if ContainsAny(lower, UsedWords) then
      d.(intent := Some(BuyUsed), targetBrand := if Truthy(d.nonDealerBrand) then d.nonDealerBrand else d.targetBrand)
    else RoutingFix(d, false)
  }

  /** `looks_like_service_request`. */
  predicate LooksLikeService(lower: string) {
    Scan.HasWord(lower, "сто") || Contains(lower, " на сто") || Contains(lower, " в сто") || ContainsAny(lower, ServiceTokens)
  }

  /** A phone number in the text: store it, apply the routing fix and confirm. */
  function PhoneStage(s: Snapshot, text: string): Option<Snapshot> {
    match Phone.NormalizePhone(text)
    case Some(p) => Some(ToConfirm(s, RoutingFix(s.data.(phone := Some(p)), true)))
    case None => None
  }

  /** "I already gave my number": confirm when a phone is known, else ask for it again. */
  function GaveNumberStage(s: Snapshot, text: string): Option<Snapshot> {
    var lower := Lower(text);
    if ContainsAny(lower, ActionWords) && ContainsAny(lower, ObjectWords) then
      if Truthy(s.data.phone) then Some(ToConfirm(s, RoutingFix(s.data, true)))
      else Some(Say(Goto(s, CollectPhone), NumberNotFoundReply))
    else None
  }

  /** A request for a manager: confirm when a phone is known, else ask for it. */
  function ManagerStage(s: Snapshot, text: string): Option<Snapshot> {
    if ManagerRequest(text) then
      var m := ManagerData(s.data, Lower(text));
      if Truthy(m.phone) then Some(ToConfirm(s, m))
      else Some(Say(Goto(s.(data := m), CollectPhone), ManagerReply(m)))
    else None
  }

  /** A service request that is not a search: a repair lead, asking for the kind of repair. */
  predicate ServiceRequest(text: string) {
    !TP.IsSearchQuery(text) && LooksLikeService(Lower(text))
  }

  /** A repair lead: the repair intent, the user's car brand when one is named, and the question about the kind of repair. */
  function ServiceAnswer(s: Snapshot, env: Env, text: string): Snapshot {
    var d := s.data;
    var brand := FindBrand(env.findBrand, text);
    var r := d.(intent := Some(Repair), userCarBrand := if brand.Some? then brand else d.userCarBrand);
    Say(Goto(s.(data := r), CollectRepairType), ServiceReply)
  }

  function ServiceStage(s: Snapshot, env: Env, text: string): Option<Snapshot> {
    if ServiceRequest(text) then Some(ServiceAnswer(s, env, text)) else None
  }

  function EarlyStage(s: Snapshot, env: Env, text: string): Option<Snapshot> {
    var phone := PhoneStage(s, text);
    if phone.Some? then phone
    else
      var gave := GaveNumberStage(s, text);
      if gave.Some? then gave
      else
        var manager := ManagerStage(s, text);
        if manager.Some? then manager
        else ServiceStage(s, env, text)
  }

  // ---------------------------------------------------------------------
  // Stages 5-8: colours and variants of the cached offers
  // ---------------------------------------------------------------------

  /** The dealer models a colour question names, when it asks nothing about the price. */
  function ColorModels(env: Env, text: string): seq<Car> {
    var lower := Lower(text);
    if Contains(lower, "цвет") && !ContainsAny(lower, PriceWords) && env.catalog.Some?
    then ModelsNamed(env.catalog.value.cars, text, DealerBrands)
    else []
  }

  predicate ValidIndex(idx: Option<int>, n: nat) { idx.Some? && 0 <= idx.value < n }

  /** The offer the user last selected. */
  function SelectedOffer(d: SessionData): Car
    requires ValidIndex(d.lastVariantIdx, |d.lastSearchResults|)
  {
    d.lastSearchResults[d.lastVariantIdx.value]
  }

  /** A numbered or ordinal reference to a cached offer, or a context question about all of them. */
  function VariantStage(s: Snapshot, env: Env, text: string): Option<Snapshot> {
    var d := s.data;
    var last := d.lastSearchResults;
    var lower := Lower(text);
    var idx := TargetIndex(lower);
    var isNewSearch := TP.AnySpec(TP.SpecsOf(text)) || FindBrand(env.findBrand, text).Some?;
    var isContext := ContainsAny(lower, ContextWords);
    VariantAnswer(s, idx, isContext, isNewSearch)
  }

  /** The variant stage once the index and the kind of question are known. */
  function VariantAnswer(s: Snapshot, idx: int, isContext: bool, isNewSearch: bool): Option<Snapshot> {
    var d := s.data;
    var last := d.lastSearchResults;
    if !(idx >= 0 || (isContext && !isNewSearch)) then None
    else if 0 <= idx < |last| then
      Some(Say(s.(data := d.(lastVariantIdx := Some(idx))), DetailText(last[idx]) + "\n\n" + PromptOf(d)))
    else if idx == -1 && isContext then
      Some(Say(s.(data := d.(lastVariantIdx := None)), Overview(last, PromptOf(d))))
    else None
  }

  /** A colour question about named dealer models: their colour overview. */
  function ColorModelsStage(s: Snapshot, env: Env, text: string): Option<Snapshot> {
    var models := ColorModels(env, text);
    if models != [] then Some(Say(s, ResponseHelpers.ColorOverview(models) + "\n\n" + PromptOf(s.data)))
    else None
  }

  /** A colour asked for: about the selected (or first) cached offer, else the delivery note. */
  function RequestedColorStage(s: Snapshot, text: string): Option<Snapshot> {
    var d := s.data;
    var last := d.lastSearchResults;
    match RequestedColor(Lower(text))
    case Some(color) =>
      if last != [] then
        var idx := ClampIndex(d.lastVariantIdx.GetOr(0), |last|);
        Some(Say(s.(data := d.(lastVariantIdx := Some(idx))), ColorAnswer(last[idx], color, PromptOf(d))))
      else Some(Say(s, CanBringText(14, PromptOf(d))))
    case None => None
  }

  /** "Other colours?": the selected offer's colours, else the order note while offers are cached. */
  function MoreColorsStage(s: Snapshot, text: string): Option<Snapshot> {
    if ContainsAny(Lower(text), ColorFollowUps) then MoreColorsAnswer(s) else None
  }

  function MoreColorsAnswer(s: Snapshot): Option<Snapshot> {
    var d := s.data;
    var last := d.lastSearchResults;
    if ValidIndex(d.lastVariantIdx, |last|) then
      Some(Say(s, MoreColorsText(SelectedOffer(d), PromptOf(d))))
    else if last != [] then Some(Say(s, OrderNoteText(PromptOf(d))))
    else None
  }

  function FollowUpStage(s: Snapshot, env: Env, text: string): Option<Snapshot> {
    var models := ColorModelsStage(s, env, text);
    if models.Some? then models
    else
      var color := RequestedColorStage(s, text);
      if color.Some? then color
      else
        var more := MoreColorsStage(s, text);
        if more.Some? then more
        else if s.data.lastSearchResults != [] then VariantStage(s, env, text)
        else None
  }

  /** A dealer model named in the text: its answer, and the five cheapest cached. */
  function DirectModelStage(s: Snapshot, env: Env, text: string): Option<Snapshot> {
    var sorted := ResponseHelpers.DirectModels(env.catalog, text);
    if sorted == [] then None
    else Some(Say(s.(data := s.data.(lastSearchResults := Take(sorted, 5))), ResponseHelpers.ModelResponse(sorted)))
  }

  // ---------------------------------------------------------------------
  // Stage 9: the search
  // ---------------------------------------------------------------------

  function AsInt(n: Option<nat>): Option<int> {
    match n
    case Some(v) => Some(v)
    case None => None
  }

  /** The brand named in the text when it is a dealer's, else the dealer target brand, else all dealer brands. */
  function SearchBrands(d: SessionData, found: Option<string>): set<string> {
    if found.Some? && found.value in DealerBrands then {found.value}
    else if IsDealer(d.targetBrand) then {d.targetBrand.value}
    else DealerBrands
  }

  /** A dealer brand named in the text becomes the target of a new-car purchase. */
  function BrandData(d: SessionData, found: Option<string>): SessionData {
    if found.Some? && found.value in DealerBrands && d.targetBrand != found
    then d.(targetBrand := found, intent := Some(BuyNew))
    else d
  }

  /** The price ceiling: the target, ten percent more when approximate. */
  function PriceMax(sp: TP.CarSpecs): Option<nat> {
    if TP.Truthy(sp.priceTarget) then
      Some(if sp.isApproximate then sp.priceTarget.value * 110 / 100 else sp.priceTarget.value)
    else None
  }

  /** "More expensive" starts above the last ceiling. */
  function PriceMin(d: SessionData, lower: string): Option<nat> {
    if ContainsAny(lower, MoreExpensiveWords) && TP.Truthy(d.lastPriceMax) then d.lastPriceMax else None
  }

  function Filters(brands: set<string>, sp: TP.CarSpecs, priceMax: Option<nat>, priceMin: Option<nat>): SearchFilters {
    SearchFilters(brands, sp.body, sp.drive, AsInt(priceMax), AsInt(sp.powerTarget), sp.transmission,
                  AsInt(sp.gears), sp.engineType, AsInt(priceMin))
  }

  /** `int(x * percent / 100) if x else None`. */
  function Scale(x: Option<int>, percent: nat): Option<int> {
    if GivenInt(x) then Some(x.value * percent / 100) else None
  }

  /** The second attempt: wider prices, lower power, no drive and no gear count. */
  function Relaxed(f: SearchFilters): SearchFilters {
    f.(priceMax := Scale(f.priceMax, 115), priceMin := Scale(f.priceMin, 90), drive := None,
       powerMin := Scale(f.powerMin, 80), gears := None)
  }

  function Structural(env: Env, f: SearchFilters): seq<Car> {
    if env.catalog.Some? then Matching(env.catalog.value.cars, f) else []
  }

  /**
   * `perform_search`: the vector index unless forced, unbuilt, or asked for
   * transmission, gears or engine; only the vector index can raise.
   */
  function Searched(env: Env, f: SearchFilters, forced: bool): Result<seq<Car>, SearchError>
    requires EnvOk(env)
  {
    if forced || !(env.semantic.Some? && env.semantic.value.indexBuilt) then Ok(Structural(env, f))
    else if Given(f.transmission) || GivenInt(f.gears) || Given(f.engineType) then Ok(Structural(env, f))
    else Results(env.semantic.value, f.(transmission := None, gears := None, engineType := None), env.hits, env.embedOk)
  }

  function InBrandsTest(brands: set<string>): Car -> bool { (c: Car) => c.brand in brands }

  predicate IsCrossover(c: Car) { Lower(c.body) == "кроссовер" || Lower(c.body) == "suv" }

  function CrossoverTest(): Car -> bool { (c: Car) => IsCrossover(c) }

  /** The last resort: the crossovers of the searched brands, else the first ten or five of their cars. */
  function PoolFallback(all: seq<Car>, brands: set<string>, wide: bool): seq<Car> {
    var pool := Filter(all, InBrandsTest(brands));
    if wide then
      var crossovers := Filter(pool, CrossoverTest());
      if crossovers != [] then crossovers else Take(pool, 10)
    else if pool != [] then Take(pool, 5)
    else []
  }

  /**
   * The search, the relaxed search, then the brand pool; the relaxed search
   * is forced to be structural, so only the first can raise.
   */
  function CarsFor(env: Env, f: SearchFilters, wide: bool): Result<seq<Car>, SearchError>
    requires EnvOk(env)
  {
    match Searched(env, f, false)
    case Err(e) => Err(e)
    case Ok(first) =>
      var second := if first != [] then first else Structural(env, Relaxed(f));
      if second == [] && env.catalog.Some? then Ok(PoolFallback(env.catalog.value.cars, f.dealerBrands, wide))
      else Ok(second)
  }

  function SortStrategy(text: string): string {
    if TP.IsPowerQuery(text) then "power_desc" else if TP.IsExpensiveQuery(text) then "price_desc" else "price_mix"
  }

  /** A price ceiling is remembered for a later "more expensive". */
  function WithPriceMax(d: SessionData, priceMax: Option<nat>): SessionData {
    if priceMax.Some? then d.(lastPriceMax := priceMax) else d
  }

  /** Offers shown are cached, with no variant selected. */
  function WithOffers(d: SessionData, offers: seq<Car>): SessionData {
    if offers != [] then d.(lastVariantIdx := None, lastSearchResults := offers) else d
  }

  /** Whether the one-time note about the other brand goes before the answer. */
  predicate NoticeDue(d: SessionData) { Truthy(d.nonDealerBrand) && !d.nonDealerNoticeSent }

  function NoticeBlock(d: SessionData): seq<string> {
    if NoticeDue(d) then [ResponseHelpers.BuildNonDealerPrompt(d.nonDealerBrand.value)] else []
  }

  /** The blocks of the answer when nothing was found. */
  function EmptyBlocks(env: Env, d: SessionData): seq<string> {
    if NoticeDue(d) then
      NoticeBlock(d) + (if env.catalog.None? || env.catalog.value.cars == [] then [CatalogUpdating] else [])
    else [NothingFound]
  }

  /** The filters of the first search. */
  function FiltersFor(d: SessionData, lower: string, sp: TP.CarSpecs, found: Option<string>): SearchFilters {
    Filters(SearchBrands(d, found), sp, PriceMax(sp), PriceMin(d, lower))
  }

  /** Whether the brand pool falls back to crossovers: another brand was asked for, or no spec at all. */
  predicate WidePool(d: SessionData, sp: TP.CarSpecs) { Truthy(d.nonDealerBrand) || !TP.AnySpec(sp) }

  /** The offers of the search stage, for the parsed specs and the brand found. */
  function OffersFrom(env: Env, text: string, d: SessionData, sp: TP.CarSpecs, found: Option<string>): Result<seq<Car>, SearchError>
    requires EnvOk(env)
  {
    match CarsFor(env, FiltersFor(d, Lower(text), sp, found), WidePool(d, sp))
    case Err(e) => Err(e)
    case Ok(cars) => Ok(Top3(cars, AsInt(sp.priceTarget), sp.isApproximate, SortStrategy(text)))
  }

  /** The record marks the note about the other brand as sent when it was due for `d`, the record the turn started with. */
  function MarkNotice(r: SessionData, d: SessionData): SessionData {
    if NoticeDue(d) then r.(nonDealerNoticeSent := true) else r
  }

  /** The record after the search: brand, ceiling and offers stored, and the note marked as sent when it was due. */
  function SearchRecord(d: SessionData, found: Option<string>, sp: TP.CarSpecs, offers: seq<Car>): SessionData {
    MarkNotice(WithOffers(WithPriceMax(BrandData(d, found), PriceMax(sp)), offers), d)
  }

  /** The one message with offers: the notice when due, the header and the numbered offers. */
  function OffersMessage(text: string, d: SessionData, offers: seq<Car>): string {
    var header := OffersHeader(TP.IsPowerQuery(text), TP.IsExpensiveQuery(text), ContainsAny(Lower(text), MoreExpensiveWords));
    Join(NoticeBlock(d) + [header] + [OffersText(offers, NameOr(d), Truthy(d.phone))], "\n")
  }

  /** The answer of the search, `d` being the record the turn started with: one message with offers, two without. */
  function SearchAnswer(s: Snapshot, env: Env, text: string, d: SessionData, offers: seq<Car>): Snapshot {
    if offers != [] then Say(s, OffersMessage(text, d, offers))
    else Say(Say(s, Join(EmptyBlocks(env, d), "\n")), ManagerHelpText(NameOr(d), Truthy(d.phone)))
  }

  /**
   * The search stage. When embedding the query raises, the handler stops
   * with no answer; the brand and the ceiling it stored before stay.
   */
  function SearchStage(s: Snapshot, env: Env, text: string): Snapshot
    requires EnvOk(env)
  {
    var d := s.data;
    var sp := TP.SpecsOf(text);
    var found := FindBrand(env.findBrand, text);
    match OffersFrom(env, text, d, sp, found)
    case Err(_) => s.(data := WithPriceMax(BrandData(d, found), PriceMax(sp)))
    case Ok(offers) => SearchAnswer(s.(data := SearchRecord(d, found, sp, offers)), env, text, d, offers)
  }

  // ---------------------------------------------------------------------
  // The whole turn
  // ---------------------------------------------------------------------

  function NonDealerChoiceStep(s: Snapshot, env: Env, msg: Message): Snapshot
    requires EnvOk(env)
  {
    var text := TextOf(msg);
    match EarlyStage(s, env, text)
    case Some(r) => r
    case None =>
      match FollowUpStage(s, env, text)
      case Some(r) => r
      case None =>
        match DirectModelStage(s, env, text)
        case Some(r) => r
        case None => SearchStage(s, env, text)
  }

  // ---------------------------------------------------------------------
  // The handler
  // ---------------------------------------------------------------------

  /** `handle_non_dealer_choice`. */
  method HandleNonDealerChoice(ctx: Conversation, env: Env, msg: Message)
    requires EnvOk(env)
    modifies ctx
    ensures ctx.Snap() == NonDealerChoiceStep(old(ctx.Snap()), env, msg)
  {
    var text := TextOf(msg);
    var handled := HandleEarly(ctx, env, text);
    if handled {
      return;
    }
    handled := HandleFollowUp(ctx, env, text);
    if handled {
      return;
    }
    handled := HandleDirectModel(ctx, env, text);
    if handled {
      return;
    }
    HandleSearch(ctx, env, text);
  }

  /** The routing fix on the stored record. */
  method FixRouting(ctx: Conversation, clearNonDealer: bool)
    modifies ctx
    ensures ctx.Snap() == old(ctx.Snap()).(data := RoutingFix(old(ctx.data), clearNonDealer))
  {
    var last := ctx.data.lastSearchResults;
    if last != [] {
      var resultBrand := last[0].brand;
      if resultBrand in DealerBrands {
        ctx.data := ctx.data.(intent := Some(BuyNew), targetBrand := Some(resultBrand));
        if clearNonDealer {
          ctx.data := ctx.data.(nonDealerBrand := None);
        }
      }
    }
  }

  /** `set_state(confirm)` and `ask_confirm`. */
  method GoToConfirm(ctx: Conversation)
    modifies ctx
    ensures ctx.Snap() == ToConfirm(old(ctx.Snap()), old(ctx.data))
  {
    ctx.SetState(Confirm);
    ConfirmHandler.AskConfirm(ctx);
  }

  method HandleEarly(ctx: Conversation, env: Env, text: string) returns (handled: bool)
    modifies ctx
    ensures handled == EarlyStage(old(ctx.Snap()), env, text).Some?
    ensures handled ==> ctx.Snap() == EarlyStage(old(ctx.Snap()), env, text).value
    ensures !handled ==> ctx.Snap() == old(ctx.Snap())
  {
    handled := HandlePhone(ctx, text);
    if handled {
      return;
    }
    handled := HandleGaveNumber(ctx, text);
    if handled {
      return;
    }
    handled := HandleManager(ctx, text);
    if handled {
      return;
    }
    handled := HandleService(ctx, env, text);
  }

  method HandlePhone(ctx: Conversation, text: string) returns (handled: bool)
    modifies ctx
    ensures handled == PhoneStage(old(ctx.Snap()), text).Some?
    ensures handled ==> ctx.Snap() == PhoneStage(old(ctx.Snap()), text).value
    ensures !handled ==> ctx.Snap() == old(ctx.Snap())
  {
    var potentialPhone := Phone.NormalizePhone(text);
    if potentialPhone.Some? {
      ctx.data := ctx.data.(phone := potentialPhone);
      FixRouting(ctx, true);
      GoToConfirm(ctx);
      return true;
    }
    return false;
  }

  method HandleGaveNumber(ctx: Conversation, text: string) returns (handled: bool)
    modifies ctx
    ensures handled == GaveNumberStage(old(ctx.Snap()), text).Some?
    ensures handled ==> ctx.Snap() == GaveNumberStage(old(ctx.Snap()), text).value
    ensures !handled ==> ctx.Snap() == old(ctx.Snap())
  {
    var lower := Lower(text);
    var hasActionKw := ContainsAny(lower, ActionWords);
    var hasObjectKw := ContainsAny(lower, ObjectWords);
    if hasActionKw && hasObjectKw {
      if Truthy(ctx.data.phone) {
        FixRouting(ctx, true);
        GoToConfirm(ctx);
      } else {
        ctx.SetState(CollectPhone);
        ctx.Answer(NumberNotFoundReply);
      }
      return true;
    }
    return false;
  }

  method HandleManager(ctx: Conversation, text: string) returns (handled: bool)
    modifies ctx
    ensures handled == ManagerStage(old(ctx.Snap()), text).Some?
    ensures handled ==> ctx.Snap() == ManagerStage(old(ctx.Snap()), text).value
    ensures !handled ==> ctx.Snap() == old(ctx.Snap())
  {
    var lower := Lower(text);
    if !ManagerRequest(text) {
      return false;
    }
    if ContainsAny(lower, UsedWords) {
      var nonDealerBrand := ctx.data.nonDealerBrand;
      ctx.data := ctx.data.(intent := Some(BuyUsed));
      if Truthy(nonDealerBrand) {
        ctx.data := ctx.data.(targetBrand := nonDealerBrand);
      }
    } else {
      FixRouting(ctx, false);
    }
    if Truthy(ctx.data.phone) {
      GoToConfirm(ctx);
    } else {
      ctx.SetState(CollectPhone);
      ctx.Answer(ManagerReply(ctx.data));
    }
    return true;
  }

  method HandleService(ctx: Conversation, env: Env, text: string) returns (handled: bool)
    modifies ctx
    ensures handled == ServiceStage(old(ctx.Snap()), env, text).Some?
    ensures handled ==> ctx.Snap() == ServiceStage(old(ctx.Snap()), env, text).value
    ensures !handled ==> ctx.Snap() == old(ctx.Snap())
  {
    var isService := ServiceRequest(text);
    if isService {
      StartRepairLead(ctx, env, text);
      return true;
    }
    return false;
  }

  method StartRepairLead(ctx: Conversation, env: Env, text: string)
    modifies ctx
    ensures ctx.Snap() == ServiceAnswer(old(ctx.Snap()), env, text)
  {
    var serviceBrand := FindBrand(env.findBrand, text);
    ctx.data := ctx.data.(intent := Some(Repair));
    if serviceBrand.Some? {
      ctx.data := ctx.data.(userCarBrand := serviceBrand);
    }
    ctx.SetState(CollectRepairType);
    ctx.Answer(ServiceReply);
  }

  method HandleFollowUp(ctx: Conversation, env: Env, text: string) returns (handled: bool)
    modifies ctx
    ensures handled == FollowUpStage(old(ctx.Snap()), env, text).Some?
    ensures handled ==> ctx.Snap() == FollowUpStage(old(ctx.Snap()), env, text).value
    ensures !handled ==> ctx.Snap() == old(ctx.Snap())
  {
    handled := HandleColorModels(ctx, env, text);
    if handled {
      return;
    }
    handled := HandleRequestedColor(ctx, text);
    if handled {
      return;
    }
    handled := HandleMoreColors(ctx, text);
    if handled {
      return;
    }
    if ctx.data.lastSearchResults != [] {
      handled := HandleVariant(ctx, env, text);
    }
  }

  method HandleColorModels(ctx: Conversation, env: Env, text: string) returns (handled: bool)
    modifies ctx
    ensures handled == ColorModelsStage(old(ctx.Snap()), env, text).Some?
    ensures handled ==> ctx.Snap() == ColorModelsStage(old(ctx.Snap()), env, text).value
    ensures !handled ==> ctx.Snap() == old(ctx.Snap())
  {
    var lower := Lower(text);
    var isPriceQuestion := ContainsAny(lower, PriceWords);
    if Contains(lower, "цвет") && !isPriceQuestion && env.catalog.Some? {
      var modelMatches := env.catalog.value.FindModels(text, DealerBrands);
      if modelMatches != [] {
        var overview := ResponseHelpers.FormatColorOverview(modelMatches);
        ctx.Answer(overview + "\n\n" + PromptOf(ctx.data));
        return true;
      }
    }
    return false;
  }

  method HandleRequestedColor(ctx: Conversation, text: string) returns (handled: bool)
    modifies ctx
    ensures handled == RequestedColorStage(old(ctx.Snap()), text).Some?
    ensures handled ==> ctx.Snap() == RequestedColorStage(old(ctx.Snap()), text).value
    ensures !handled ==> ctx.Snap() == old(ctx.Snap())
  {
    var last := ctx.data.lastSearchResults;
    var prompt := PromptOf(ctx.data);
    var requestedColor := DetectRequestedColor(Lower(text));
    if requestedColor.None? {
      return false;
    }
    if last != [] {
      var targetIdx := ClampIndex(ctx.data.lastVariantIdx.GetOr(0), |last|);
      ctx.data := ctx.data.(lastVariantIdx := Some(targetIdx));
      ctx.Answer(ColorAnswer(last[targetIdx], requestedColor.value, prompt));
    } else {
      ctx.Answer(CanBringText(14, prompt));
    }
    return true;
  }

  method HandleMoreColors(ctx: Conversation, text: string) returns (handled: bool)
    modifies ctx
    ensures handled == MoreColorsStage(old(ctx.Snap()), text).Some?
    ensures handled ==> ctx.Snap() == MoreColorsStage(old(ctx.Snap()), text).value
    ensures !handled ==> ctx.Snap() == old(ctx.Snap())
  {
    var asked := ContainsAny(Lower(text), ColorFollowUps);
    handled := false;
    if asked {
      handled := AnswerMoreColors(ctx);
    }
  }

  method AnswerMoreColors(ctx: Conversation) returns (handled: bool)
    modifies ctx
    ensures handled == MoreColorsAnswer(old(ctx.Snap())).Some?
    ensures handled ==> ctx.Snap() == MoreColorsAnswer(old(ctx.Snap())).value
    ensures !handled ==> ctx.Snap() == old(ctx.Snap())
  {
    ghost var s0 := ctx.Snap();
    var d := ctx.data;
    if ValidIndex(d.lastVariantIdx, |d.lastSearchResults|) {
      ctx.Answer(MoreColorsText(SelectedOffer(d), PromptOf(d)));
      assert MoreColorsAnswer(s0) == Some(ctx.Snap());
      return true;
    } else if d.lastSearchResults != [] {
      ctx.Answer(OrderNoteText(PromptOf(d)));
      assert MoreColorsAnswer(s0) == Some(ctx.Snap());
      return true;
    }
    return false;
  }

  method HandleVariant(ctx: Conversation, env: Env, text: string) returns (handled: bool)
    modifies ctx
    ensures handled == VariantStage(old(ctx.Snap()), env, text).Some?
    ensures handled ==> ctx.Snap() == VariantStage(old(ctx.Snap()), env, text).value
    ensures !handled ==> ctx.Snap() == old(ctx.Snap())
  {
    var lower := Lower(text);
    var targetIdx := TargetIndex(lower);
    var specs := TP.ParseCarSpecs(text);
    var foundBrandContext := FindBrand(env.findBrand, text);
    var isNewSearch := TP.AnySpec(specs) || foundBrandContext.Some?;
    var isContextQuestion := ContainsAny(lower, ContextWords);
    handled := AnswerVariant(ctx, targetIdx, isContextQuestion, isNewSearch);
  }

  method AnswerVariant(ctx: Conversation, targetIdx: int, isContextQuestion: bool, isNewSearch: bool) returns (handled: bool)
    modifies ctx
    ensures handled == VariantAnswer(old(ctx.Snap()), targetIdx, isContextQuestion, isNewSearch).Some?
    ensures handled ==> ctx.Snap() == VariantAnswer(old(ctx.Snap()), targetIdx, isContextQuestion, isNewSearch).value
    ensures !handled ==> ctx.Snap() == old(ctx.Snap())
  {
    var last := ctx.data.lastSearchResults;
    var prompt := PromptOf(ctx.data);
    if targetIdx >= 0 || (isContextQuestion && !isNewSearch) {
      if 0 <= targetIdx < |last| {
        ctx.data := ctx.data.(lastVariantIdx := Some(targetIdx));
        ctx.Answer(DetailText(last[targetIdx]) + "\n\n" + prompt);
        return true;
      } else if targetIdx == -1 && isContextQuestion {
        var response := WriteOverview(last, prompt);
        ctx.data := ctx.data.(lastVariantIdx := None);
        ctx.Answer(response);
        return true;
      }
    }
    return false;
  }

  method HandleDirectModel(ctx: Conversation, env: Env, text: string) returns (handled: bool)
    modifies ctx
    ensures handled == DirectModelStage(old(ctx.Snap()), env, text).Some?
    ensures handled ==> ctx.Snap() == DirectModelStage(old(ctx.Snap()), env, text).value
    ensures !handled ==> ctx.Snap() == old(ctx.Snap())
  {
    var found, responseText := ResponseHelpers.FindDirectModels(env.catalog, text);
    if found == [] {
      return false;
    }
    ctx.Answer(responseText);
    ctx.data := ctx.data.(lastSearchResults := Take(found, 5));
    return true;
  }

  /** The structural search, or nothing without a catalogue. */
  method StructuralSearch(env: Env, f: SearchFilters) returns (cars: seq<Car>)
    ensures cars == Structural(env, f)
  {
    if env.catalog.Some? {
      cars := env.catalog.value.Search(f);
    } else {
      cars := [];
    }
  }

  /** `perform_search`. */
  method PerformSearch(env: Env, f: SearchFilters, forced: bool) returns (cars: Result<seq<Car>, SearchError>)
    requires EnvOk(env)
    ensures cars == Searched(env, f, forced)
  {
    if forced || !(env.semantic.Some? && env.semantic.value.indexBuilt) {
      var found := StructuralSearch(env, f);
      return Ok(found);
    }
    var useSemantic := !(Given(f.transmission) || GivenInt(f.gears) || Given(f.engineType));
    if useSemantic {
      cars := env.semantic.value.Search(f.(transmission := None, gears := None, engineType := None), env.hits, env.embedOk);
      return;
    }
    var found := StructuralSearch(env, f);
    cars := Ok(found);
  }

  /** The search with its two fallbacks. */
  method FindCars(env: Env, f: SearchFilters, wide: bool) returns (r: Result<seq<Car>, SearchError>)
    requires EnvOk(env)
    ensures r == CarsFor(env, f, wide)
  {
    var first := PerformSearch(env, f, false);
    if first.Err? {
      return first;
    }
    var cars := first.value;
    if cars == [] {
      var second := PerformSearch(env, Relaxed(f), true);
      cars := second.value;
    }
    if cars == [] && env.catalog.Some? {
      var allCars := env.catalog.value.GetAllCars();
      var fallbackPool := Filter(allCars, InBrandsTest(f.dealerBrands));
      if wide {
        var crossovers := Filter(fallbackPool, CrossoverTest());
        cars := if crossovers != [] then crossovers else Take(fallbackPool, 10);
      } else if fallbackPool != [] && cars == [] {
        cars := Take(fallbackPool, 5);
      }
    }
    r := Ok(cars);
  }

  /** The brands to search; a dealer brand named in the text becomes the target. */
  method SelectBrands(ctx: Conversation, found: Option<string>) returns (searchBrands: set<string>)
    modifies ctx
    ensures searchBrands == SearchBrands(old(ctx.data), found)
    ensures ctx.Snap() == old(ctx.Snap()).(data := BrandData(old(ctx.data), found))
  {
    searchBrands := DealerBrands;
    if found.Some? && found.value in DealerBrands {
      searchBrands := {found.value};
      if ctx.data.targetBrand != found {
        ctx.data := ctx.data.(targetBrand := found, intent := Some(BuyNew));
      }
    } else if IsDealer(ctx.data.targetBrand) {
      searchBrands := {ctx.data.targetBrand.value};
    }
  }

  /** The price bounds; a ceiling is stored. `d` is the record the turn started with. */
  method PriceFilters(ctx: Conversation, specs: TP.CarSpecs, d: SessionData, lower: string)
    returns (priceMaxFilter: Option<nat>, priceMinFilter: Option<nat>)
    modifies ctx
    ensures priceMaxFilter == PriceMax(specs) && priceMinFilter == PriceMin(d, lower)
    ensures ctx.Snap() == old(ctx.Snap()).(data := WithPriceMax(old(ctx.data), PriceMax(specs)))
  {
    priceMaxFilter := None;
    priceMinFilter := None;
    if TP.Truthy(specs.priceTarget) {
      if specs.isApproximate {
        priceMaxFilter := Some(specs.priceTarget.value * 110 / 100);
      } else {
        priceMaxFilter := specs.priceTarget;
      }
      ctx.data := ctx.data.(lastPriceMax := priceMaxFilter);
    }
    if ContainsAny(lower, MoreExpensiveWords) && TP.Truthy(d.lastPriceMax) {
      priceMinFilter := d.lastPriceMax;
    }
  }

  /** The answer: the notice, the header and the numbered offers, or the two messages of an empty search. */
  method AnswerSearch(ctx: Conversation, env: Env, text: string, d: SessionData, bestOffers: seq<Car>)
    modifies ctx
    ensures ctx.Snap() == SearchAnswer(old(ctx.Snap()).(data := MarkNotice(old(ctx.data), d)), env, text, d, bestOffers)
  {
    if NoticeDue(d) {
      ctx.data := ctx.data.(nonDealerNoticeSent := true);
    }
    ghost var s1 := ctx.Snap();
    assert s1 == old(ctx.Snap()).(data := MarkNotice(old(ctx.data), d));
    if bestOffers != [] {
      AnswerOffers(ctx, text, d, bestOffers);
      assert SearchAnswer(s1, env, text, d, bestOffers) == Say(s1, OffersMessage(text, d, bestOffers));
    } else {
      AnswerEmpty(ctx, env, d);
      assert SearchAnswer(s1, env, text, d, bestOffers)
        == Say(Say(s1, Join(EmptyBlocks(env, d), "\n")), ManagerHelpText(NameOr(d), Truthy(d.phone)));
    }
  }

  /** The notice when due, the header and the numbered offers, in one message. */
  method AnswerOffers(ctx: Conversation, text: string, d: SessionData, bestOffers: seq<Car>)
    modifies ctx
    ensures ctx.Snap() == Say(old(ctx.Snap()), OffersMessage(text, d, bestOffers))
  {
    var header := OffersHeader(TP.IsPowerQuery(text), TP.IsExpensiveQuery(text), ContainsAny(Lower(text), MoreExpensiveWords));
    var responseText := WriteOffers(bestOffers, NameOr(d), Truthy(d.phone));
    ctx.Answer(Join(NoticeBlock(d) + [header] + [responseText], "\n"));
  }

  /** After the notice: "the catalogue is being updated" when there is no catalogue, or "nothing found" without a notice; then the offer of a manager's help. */
  method AnswerEmpty(ctx: Conversation, env: Env, d: SessionData)
    modifies ctx
    ensures ctx.Snap() == Say(Say(old(ctx.Snap()), Join(EmptyBlocks(env, d), "\n")), ManagerHelpText(NameOr(d), Truthy(d.phone)))
  {
    ctx.Answer(Join(EmptyBlocks(env, d), "\n"));
    ctx.Answer(ManagerHelpText(NameOr(d), Truthy(d.phone)));
  }

  method HandleSearch(ctx: Conversation, env: Env, text: string)
    requires EnvOk(env)
    modifies ctx
    ensures ctx.Snap() == SearchStage(old(ctx.Snap()), env, text)
  {
    var d := ctx.data;
    var searched := SearchOffers(ctx, env, text);
    if searched.Err? {
      return;
    }
    var bestOffers := searched.value;
    if bestOffers != [] {
      ctx.data := ctx.data.(lastVariantIdx := None, lastSearchResults := bestOffers);
    }
    AnswerSearch(ctx, env, text, d, bestOffers);
  }

  /** The brands, the price bounds and the three offers, or the embedding failure; the brand and the ceiling are stored. */
  method SearchOffers(ctx: Conversation, env: Env, text: string) returns (bestOffers: Result<seq<Car>, SearchError>)
    requires EnvOk(env)
    modifies ctx
    ensures bestOffers == OffersFrom(env, text, old(ctx.data), TP.SpecsOf(text), FindBrand(env.findBrand, text))
    ensures ctx.Snap() == old(ctx.Snap()).(data := WithPriceMax(BrandData(old(ctx.data), FindBrand(env.findBrand, text)), PriceMax(TP.SpecsOf(text))))
  {
    var d := ctx.data;
    var lower := Lower(text);
    var specs := TP.ParseCarSpecs(text);
    var foundBrand := FindBrand(env.findBrand, text);
    var searchBrands := SelectBrands(ctx, foundBrand);
    var priceMaxFilter, priceMinFilter := PriceFilters(ctx, specs, d, lower);
    var f := Filters(searchBrands, specs, priceMaxFilter, priceMinFilter);
    assert f == FiltersFor(d, lower, specs, foundBrand);
    var found := FindCars(env, f, Truthy(d.nonDealerBrand) || !TP.AnySpec(specs));
    if found.Err? {
      return Err(found.error);
    }
    var cars := found.value;

    var sortStrategy := if TP.IsPowerQuery(text) then "power_desc" else if TP.IsExpensiveQuery(text) then "price_desc" else "price_mix";
    var offers := PickTop3Offers(cars, AsInt(specs.priceTarget), specs.isApproximate, sortStrategy);
    bestOffers := Ok(offers);
  }


}

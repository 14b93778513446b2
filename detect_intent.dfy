/**
 * `handle_detect_intent` (app/handlers/detect_intent.py): classifies a
 * request and sends the conversation down the matching branch.
 *
 * A turn first runs the service pre-scan. Unless it fires, four shortcuts are
 * tried in order: a dealer model named directly, a dealer brand with a
 * search question, a brand with a purchase word, and a search query. When
 * none applies, the language model classifies the text, a chain of keyword
 * rules corrects its result, the result is stored, and the intent picks the
 * next state. Each shortcut is a function to `Some(new snapshot)` when it
 * answers; `DetectIntentStep` is the whole turn and `HandleDetectIntent` the
 * handler, proved to produce exactly that snapshot.
 */
module DetectIntentHandler {
  import opened Wrappers
  import opened Text
  import opened Dto
  import opened States
  import opened Brands
  import opened Catalog
  import opened Sequences
  import opened TopOffers
  import opened Session
  import opened LlmRouter
  import Scan
  import TP = TextParsers
  import ResponseHelpers
  import ConfirmHandler
  import NDC = NonDealerChoiceHandler

  // ---------------------------------------------------------------------
  // Keyword lists
  // ---------------------------------------------------------------------

  const ServicePartsKeywords: seq<string> := [
    "ремонт", "сервис", "обслуж", "замен", "помен", "покрас",
    "кузов", "вмятин", "бампер", "крыло", "капот", "дверь", "диагност",
    "запчаст", "диск", "шин", "масло", "фильтр", "колодк", "свечи", "сто ", "переобу",
    "провести", "пройти"]
  const SmartTriggers: seq<string> := ["какие", "есть", "наличи", "цен", "стоит", "сколько", "почем", "вариант", "модел"]
  const PurchaseTriggers: seq<string> :=
    ["куп", "есть", "налич", "прод", "хочу", "брони", "интересует", "новый", "новая", "новое", "новую", "новых"]
  const SameCarWords: seq<string> := ["такой же", "новую такую", "обновить"]
  const SparesKeywords: seq<string> := [
    "запчаст", "запасные части", "отдел запчастей",
    "диск", "шины", "резина", "колеса", "колодки",
    "сцепление", "свечи", "стекло", "дворники", "стеклоочистители",
    "подвеск", "шаровая", "шрус", "двигатель", "коробка", "фильтр",
    "накладки", "прокладки", "сальники", "аккумулятор"]
  const ReplaceWords: seq<string> := ["замен", "помен", "установ", "шиномонтаж", "переобу"]
  const OilKeywords: seq<string> := ["масло", "заменить масло", "поменять масло", "замена масла"]
  const PurchaseKeywords: seq<string> :=
    ["хочу купить", "покупка", "нужен новый", "ищу новый", "хочу новый", "купить новый", "купить новую", "забронировать", "оформить"]
  const GeneralRepairKeywords: seq<string> := [
    "ремонт", "отремонтировать", "заменить", "поменять", "сменить", "починить", "сломалось",
    "неисправность", "записаться", "сервис", "обслуживание", "то ", "то,", "проблем"]
  const LocksmithKeywords: seq<string> := [
    "продиагностировать", "диагностика", "найти неисправность",
    "шиномонтаж", "отрегулировать", "установить", "переобу", "шин",
    "колодк", "свечи", "фильтр", "подвеск", "ходов", "масло", "то ", "то,"]
  const BodyworkKeywords: seq<string> := [
    "покрасить", "подобрать колер", "подобрать краску",
    "вытянуть кузов", "отрихтовать", "вмятин", "дтп", "авария", "царапин"]
  const BodyParts: seq<string> := ["крыло", "бампер", "крыш", "дверь", "багажник", "капот", "кузов", "порог"]
  /** The union of the four repair lists; a substring test over it is a test over each. */
  const RepairTriggers: seq<string> := GeneralRepairKeywords + LocksmithKeywords + BodyworkKeywords + BodyParts
  const AccountingKeywords: seq<string> := ["бухгалтер", "счет", "акт", "документ", "оплат"]
  const OwnershipTriggers: seq<string> := ["у меня", "езжу на", "владею", "мой автомобиль", "моя машина"]

  // ---------------------------------------------------------------------
  // Replies
  // ---------------------------------------------------------------------

  const BudgetQuestion: string := "До какой суммы рассматриваете автомобиль?"
  const WhichCarQuestion: string :=
    "Правильно понимаю, Вы хотите купить автомобиль? Подскажите, новый или с пробегом, и какую марку/модель рассматриваете?"
  const PhoneAsk: string := "Оставьте, пожалуйста, номер телефона, по которому Вам удобно принять звонок."
  const CarModelQuestion: string := "Какой у Вас автомобиль (марка и модель)?"
  const SorryCallback: string := "Извините, я Вас не понял. В течение 10 минут Вам перезвонит специалист."
  const OwnBrandQuestion: string := "Подскажите, какой у Вас автомобиль (марка)?"
  const RephraseAsk: string :=
    "Не совсем понял Ваш запрос. Пожалуйста, уточните, что Вас интересует: покупка, ремонт или другое?"
  /** The chat that receives the leads of requests the bot gave up on. */
  const GroupOther: string := "-1002944317515"

  function AmbiguousQuestion(brand: string): string {
    "Вас интересует покупка автомобиля " + brand + " или ремонт/обслуживание этого автомобиля?"
  }

  function SameBrandQuestion(brand: string): string {
    "Вы хотите купить автомобиль " + brand + " или рассматриваете другой вариант?"
  }

  function ServicePhoneAsk(name: string): string {
    "Да, мы можем это сделать. " + name + ", оставьте, пожалуйста, Ваш номер телефона, в течение 10 минут Вам перезвонит специалист."
  }

  function SorryPhoneAsk(name: string): string {
    "Извините, я Вас не понял. " + name + ", оставьте, пожалуйста, свой номер телефона, в течение 10 минут Вам перезвонит специалист"
  }

  function OwnedQuestion(brand: string): string {
    "Понял, у Вас " + brand + ". Планируете обменять его на новый (Trade-in), продать или нужно обслуживание?"
  }

  // ---------------------------------------------------------------------
  // The service pre-scan and the shortcuts
  // ---------------------------------------------------------------------

  /** A service or parts keyword occurs, or "то" as a whole word. */
  predicate ServiceScan(lower: string) {
    ContainsAny(lower, ServicePartsKeywords) || Scan.HasWord(lower, "то")
  }

  /** A new-car purchase of a dealer brand, with the other brand and its notice cleared. */
  function DealerLead(d: SessionData, brand: string): SessionData {
    d.(intent := Some(BuyNew), targetBrand := Some(brand), nonDealerBrand := None, nonDealerNoticeSent := false)
  }

  /** A new-car purchase of a brand the dealer does not sell, whose notice is still to be shown. */
  function NonDealerLead(d: SessionData, brand: string): SessionData {
    d.(nonDealerBrand := Some(brand), intent := Some(BuyNew), targetBrand := Some(brand), nonDealerNoticeSent := false)
  }

  /** The purchase of a model named directly: its brand, and slots holding only the model. */
  function ModelLead(d: SessionData, car: Car): SessionData {
    d.(intent := Some(BuyNew), targetBrand := Some(car.brand), slots := NoSlots.(model := Some(car.model)))
  }

  /**
   * How a branch ends: with its own answer, or by handing the same message to
   * the search handler once the state is `non_dealer_choice`.
   */
  datatype Outcome = Done(snap: Snapshot) | HandOver(snap: Snapshot)

  /** `set_state(non_dealer_choice)` with the record `d`, and the hand-over to the search handler. */
  function SearchOn(s: Snapshot, d: SessionData): (o: Outcome)
    ensures o.HandOver? && o.snap.state == Some(NonDealerChoice) && o.snap.data == d && o.snap.outbox == s.outbox
  {
    HandOver(Goto(s.(data := d), NonDealerChoice))
  }

  /** The conversation after an outcome: a hand-over runs `handle_non_dealer_choice` on the message. */
  function Finish(o: Outcome, env: Env, msg: Message): Snapshot
    requires EnvOk(env)
  {
    match o
    case Done(t) => t
    case HandOver(t) => NDC.NonDealerChoiceStep(t, env, msg)
  }

  /** A dealer model named in the text: its answer, and the cheapest one becomes the purchase. */
  function DirectModelStage(s: Snapshot, env: Env, text: string): Option<Outcome> {
    var sorted := ResponseHelpers.DirectModels(env.catalog, text);
    if sorted == [] then None
    else Some(Done(Say(s.(data := ModelLead(s.data, sorted[0])), ResponseHelpers.ModelResponse(sorted))))
  }

  /** A dealer brand together with a search, power, price or "what is there" question. */
  predicate SmartSearch(env: Env, text: string) {
    IsDealer(FindBrand(env.findBrand, text)) &&
    (TP.IsPowerQuery(text) || TP.IsExpensiveQuery(text) || TP.IsSearchQuery(text) || ContainsAny(Lower(text), SmartTriggers))
  }

  function SmartSearchStage(s: Snapshot, env: Env, msg: Message): Option<Outcome> {
    var text := TextOf(msg);
    if SmartSearch(env, text) then Some(SearchOn(s, DealerLead(s.data, FindBrand(env.findBrand, text).value)))
    else None
  }

  /** A brand with a purchase word: a dealer brand asks for the budget, another brand goes to the search. */
  function PurchaseStage(s: Snapshot, env: Env, msg: Message): Option<Outcome> {
    var text := TextOf(msg);
    var brand := FindBrand(env.findBrand, text);
    if brand.Some? && ContainsAny(Lower(text), PurchaseTriggers) then
      if brand.value in DealerBrands then
        Some(Done(Say(Goto(s.(data := DealerLead(s.data, brand.value)), CollectSpecs), BudgetQuestion)))
      else Some(SearchOn(s, NonDealerLead(s.data, brand.value)))
    else None
  }

  /** The record before a search: a new brand the dealer does not sell re-arms its notice; no brand, or a dealer one, clears both. */
  function SearchNotice(d: SessionData, found: Option<string>): SessionData {
    if IsNonDealer(found) then
      if found != d.nonDealerBrand then d.(nonDealerBrand := found, nonDealerNoticeSent := false)
      else d.(nonDealerBrand := found)
    else d.(nonDealerBrand := None, nonDealerNoticeSent := false)
  }

  predicate SearchQuery(text: string) {
    TP.IsSearchQuery(text) || TP.IsExpensiveQuery(text) || TP.IsPowerQuery(text)
  }

  function SearchQueryStage(s: Snapshot, env: Env, msg: Message): Option<Outcome> {
    var text := TextOf(msg);
    if SearchQuery(text) then Some(SearchOn(s, SearchNotice(s.data, FindBrand(env.findBrand, text))))
    else None
  }

  /** The four shortcuts, in order; none of them is tried when the service pre-scan fired. */
  function ShortcutStage(s: Snapshot, env: Env, msg: Message, service: bool): Option<Outcome> {
    if service then None
    else
      var direct := DirectModelStage(s, env, TextOf(msg));
      if direct.Some? then direct
      else
        var smart := SmartSearchStage(s, env, msg);
        if smart.Some? then smart
        else
          var purchase := PurchaseStage(s, env, msg);
          if purchase.Some? then purchase
          else SearchQueryStage(s, env, msg)
  }

  // ---------------------------------------------------------------------
  // Correcting the classifier's result
  // ---------------------------------------------------------------------

  predicate IsBuy(i: Intent) { i == BuyNew || i == BuyUsed }
  predicate IsService(i: Intent) { i == Repair || i == Spares || i == Sell }

  /** The classifier is not sure: intent other, or low confidence. */
  predicate Unsure(r: RouterResult) { r.intent == Other || r.confidence == Low }

  /** The user's car brand from the matcher, when the result has none. */
  function FillUserBrand(r: RouterResult, find: BrandFinder, text: string): RouterResult {
    if Truthy(r.userCarBrand) then r
    else
      var found := FindBrand(find, text);
      if found.Some? then r.(userCarBrand := found) else r
  }

  /** The target brand from the matcher, when the result has none. */
  function FillTargetBrand(r: RouterResult, find: BrandFinder, text: string): RouterResult {
    if Truthy(r.targetBrand) then r
    else
      var found := FindBrand(find, text);
      if found.Some? then r.(targetBrand := found) else r
  }

  /** The model's target brand is replaced by the matcher's reading of it, else by the brand in the text. */
  function NormalizeBrand(r: RouterResult, find: BrandFinder, text: string): RouterResult {
    if Truthy(r.targetBrand) then
      var normalized := FindBrand(find, r.targetBrand.value);
      if normalized.Some? then r.(targetBrand := normalized)
      else
        var fromText := FindBrand(find, text);
        if fromText.Some? then r.(targetBrand := fromText) else r
    else r
  }

  /** No brand at all: the text's brand becomes the target of a purchase or the car of a service request. */
  function MatcherFallback(r: RouterResult, find: BrandFinder, text: string): RouterResult {
    if !Truthy(r.targetBrand) && !Truthy(r.userCarBrand) then
      var found := FindBrand(find, text);
      if found.Some? && IsBuy(r.intent) then r.(targetBrand := found)
      else if found.Some? && IsService(r.intent) then r.(userCarBrand := found)
      else r
    else r
  }

  /** "The same one" with no brand: the purchase targets the user's own car brand. */
  function SameCarContext(r: RouterResult, lower: string, d: SessionData): RouterResult {
    if IsBuy(r.intent) && !Truthy(r.targetBrand) && ContainsAny(lower, SameCarWords) && Truthy(d.userCarBrand)
    then r.(targetBrand := d.userCarBrand)
    else r
  }

  /** Parts named without a replacement word: a spares request. */
  function SparesFirst(r: RouterResult, find: BrandFinder, text: string, lower: string): RouterResult {
    if Unsure(r) && ContainsAny(lower, SparesKeywords) && !ContainsAny(lower, ReplaceWords)
    then FillUserBrand(r.(intent := Spares, confidence := High), find, text)
    else r
  }

  /** The user's car for an oil change: the text's brand, else the stored one. */
  function OilBrand(r: RouterResult, find: BrandFinder, text: string, d: SessionData): RouterResult {
    var newBrand := FindBrand(find, text);
    if Truthy(r.userCarBrand) then r
    else if newBrand.Some? then r.(userCarBrand := newBrand)
    else if Truthy(d.userCarBrand) then r.(userCarBrand := d.userCarBrand)
    else r
  }

  /** An oil change: a locksmith repair with its details filled in. */
  function OilRepair(r: RouterResult, find: BrandFinder, text: string, lower: string, d: SessionData): RouterResult {
    if Unsure(r) && ContainsAny(lower, OilKeywords) then
      var b := OilBrand(r.(intent := Repair, confidence := High), find, text, d);
      b.(slots := b.slots.(repairType := Some("слесарный"), repairDetails := Some("замена масла в двигателе")))
    else r
  }

  /** A purchase phrase, outside a service request: a new-car purchase. */
  function BuyFallback(r: RouterResult, find: BrandFinder, text: string, lower: string, service: bool): RouterResult {
    if (r.intent == Other || (r.intent == BuyNew && r.confidence == Low)) && !service && ContainsAny(lower, PurchaseKeywords)
    then FillTargetBrand(r.(intent := BuyNew, confidence := Medium), find, text)
    else r
  }

  /** "купить" or "покупка" still reading as other: a new-car purchase. */
  function BuyWord(r: RouterResult, lower: string, service: bool): RouterResult {
    if r.intent == Other && (Contains(lower, "купить") || Contains(lower, "покупка")) && !service
    then r.(intent := BuyNew)
    else r
  }

  /** A replacement of a body part. */
  predicate ReplacesBodyPart(lower: string) {
    (Contains(lower, "замен") || Contains(lower, "помен")) && ContainsAny(lower, BodyParts)
  }

  /** The kind of repair the text describes, written into the slots when one is recognised. */
  function RepairSlots(slots: Slots, lower: string): Slots {
    var replace := Contains(lower, "замен") || Contains(lower, "помен");
    var bodyKeyword := ContainsAny(lower, BodyworkKeywords);
    if bodyKeyword || ReplacesBodyPart(lower) then
      slots.(repairType := Some("кузовной"),
             repairDetails := Some(if ReplacesBodyPart(lower) then "замена кузовной детали" else "кузовной ремонт"))
    else if replace then
      slots.(repairType := Some("слесарный"), repairDetails := Some("замена детали/расходника"))
    else if Scan.HasWord(lower, "то") then
      slots.(repairType := Some("слесарный"), repairDetails := Some("техническое обслуживание"))
    else if ContainsAny(lower, LocksmithKeywords) then
      slots.(repairType := Some("слесарный"), repairDetails := Some("слесарный ремонт"))
    else slots
  }

  /** A repair word, or a service pre-scan that fired: a repair request and its kind. */
  function ServiceFallback(r: RouterResult, find: BrandFinder, text: string, lower: string, service: bool): RouterResult {
    if Unsure(r) || service then
      var forced := if service then r.(intent := Repair, confidence := High) else r;
      if service || ContainsAny(lower, RepairTriggers) || Scan.HasWord(lower, "то") then
        var b := FillUserBrand(forced.(intent := Repair, confidence := Medium), find, text);
        b.(slots := RepairSlots(b.slots, lower))
      else forced
    else r
  }

  /** An accounting word while still unsure: an accounting request. */
  function AccountingFallback(r: RouterResult, lower: string): RouterResult {
    if Unsure(r) && ContainsAny(lower, AccountingKeywords) then r.(intent := Accounting, confidence := High) else r
  }

  /** The classifier's result after every correction, in the source's order. */
  function Refine(r: RouterResult, find: BrandFinder, text: string, d: SessionData, service: bool): RouterResult {
    var lower := Lower(text);
    var r1 := SameCarContext(MatcherFallback(NormalizeBrand(r, find, text), find, text), lower, d);
    var r2 := OilRepair(SparesFirst(r1, find, text, lower), find, text, lower, d);
    var r3 := BuyWord(BuyFallback(r2, find, text, lower, service), lower, service);
    AccountingFallback(ServiceFallback(r3, find, text, lower, service), lower)
  }

  /** The stored record: intent, confidence and slots replaced, each brand replaced only when the result names one. */
  function Stored(d: SessionData, r: RouterResult): SessionData {
    d.(intent := Some(r.intent), confidence := Some(r.confidence), slots := r.slots,
       targetBrand := if Truthy(r.targetBrand) then r.targetBrand else d.targetBrand,
       userCarBrand := if Truthy(r.userCarBrand) then r.userCarBrand else d.userCarBrand)
  }

  /** The result the branching reads: a service request without a brand takes the stored car brand. */
  function Carried(r: RouterResult, d: SessionData): RouterResult {
    if IsService(r.intent) && !Truthy(r.userCarBrand) && Truthy(d.userCarBrand) then r.(userCarBrand := d.userCarBrand)
    else r
  }

  // ---------------------------------------------------------------------
  // Branching on the intent
  // ---------------------------------------------------------------------

  /** A known phone goes to the summary; otherwise ask for the phone with `ask`. */
  function PhoneOrConfirm(s: Snapshot, ask: string): Snapshot {
    if Truthy(s.data.phone) then ConfirmHandler.AskConfirmStep(Goto(s, Confirm))
    else Say(Goto(s, CollectPhone), ask)
  }

  function BuyStep(s: Snapshot, msg: Message, r: RouterResult): Outcome {
    var d := s.data;
    if r.intent == BuyNew && IsNonDealer(r.targetBrand) then
      SearchOn(s, d.(nonDealerBrand := r.targetBrand, nonDealerNoticeSent := false))
    else if !Truthy(r.targetBrand) then
      if Truthy(d.userCarBrand) then
        Done(Say(Goto(s.(data := d.(targetBrand := d.userCarBrand)), CollectBrand), SameBrandQuestion(d.userCarBrand.value)))
      else if TP.IsSearchQuery(TextOf(msg)) then SearchOn(s, d.(nonDealerBrand := None))
      else Done(Say(Goto(s, CollectBrand), WhichCarQuestion))
    else if r.intent == BuyNew && r.targetBrand.value in DealerBrands then Done(Say(Goto(s, CollectSpecs), BudgetQuestion))
    else Done(PhoneOrConfirm(s, PhoneAsk))
  }

  function ServiceStep(s: Snapshot, r: RouterResult): Snapshot {
    if !Truthy(r.userCarBrand) then Say(Goto(s, CollectBrand), CarModelQuestion)
    else PhoneOrConfirm(s, ServicePhoneAsk(NameOr(s.data)))
  }

  /** The lead of a request the bot gave up on. */
  function FallbackLead(d: SessionData, userId: int): LeadDTO {
    LeadDTO(userId, NameOr(d), "fallback_other", OrElse(d.userCarBrand, d.targetBrand), d.phone.GetOr(""), d.slots)
  }

  /** The post to the general group, when sending succeeds. */
  function FallbackPost(lead: LeadDTO, sendOk: bool): seq<Output> {
    if sendOk then [ToGroup(GroupOther, ResponseHelpers.FormatLeadMessage(lead))] else []
  }

  /** Third failure with a known phone: the lead is saved and posted where that works, and the dialogue ends. */
  function GiveUpStep(s: Snapshot, env: Env, msg: Message): Snapshot {
    var lead := FallbackLead(s.data, msg.userId);
    var sent := s.(outbox := s.outbox + ConfirmHandler.SavedLead(lead, env.saveOk) + FallbackPost(lead, env.sendOk));
    Goto(Say(sent, SorryCallback), Finished)
  }

  /** A statement of ownership: the named car is stored and the bot asks what to do with it, or asks which car. */
  function OwnershipStep(s: Snapshot, owned: Option<string>): Snapshot {
    if !Truthy(owned) then Say(Goto(s, CollectBrand), OwnBrandQuestion)
    else Say(s.(data := s.data.(userCarBrand := owned)), OwnedQuestion(owned.value))
  }

  /** The third attempt: give up, with a lead when the phone is known, else asking for the phone. */
  function ExhaustedStep(s: Snapshot, env: Env, msg: Message): Snapshot {
    var d := s.data;
    if Truthy(d.phone) then GiveUpStep(s, env, msg)
    else Say(Goto(s.(data := d.(intent := Some(FallbackOther))), CollectPhone), SorryPhoneAsk(NameOr(d)))
  }

  /** One more failed attempt counted. */
  function Counted(s: Snapshot): Snapshot { s.(data := s.data.(retryCount := s.data.retryCount + 1)) }

  /** After counting: ask about the car owned, or ask to rephrase. */
  function AskAgainStep(s: Snapshot, env: Env, msg: Message, r: RouterResult): Snapshot {
    var text := TextOf(msg);
    if ContainsAny(Lower(text), OwnershipTriggers) then
      OwnershipStep(s, OrElse(r.userCarBrand, FindBrand(env.findBrand, text)))
    else Say(s, RephraseAsk)
  }

  /** Still "other" and no brand in the text: give up on the third attempt, else count the attempt and ask again. */
  function RetryStep(s: Snapshot, env: Env, msg: Message, r: RouterResult): Snapshot {
    if s.data.retryCount >= 2 then ExhaustedStep(s, env, msg) else AskAgainStep(Counted(s), env, msg, r)
  }

  /** Intent other: a brand alone asks "buy or service?" and stays; otherwise a retry. */
  function OtherStep(s: Snapshot, env: Env, msg: Message, r: RouterResult): Snapshot {
    var found := FindBrand(env.findBrand, TextOf(msg));
    if found.Some? then Say(s.(data := s.data.(userCarBrand := found, targetBrand := found)), AmbiguousQuestion(found.value))
    else RetryStep(s, env, msg, r)
  }

  function BranchStep(s: Snapshot, env: Env, msg: Message, r: RouterResult): Outcome {
    if r.intent == Other then Done(OtherStep(s, env, msg, r))
    else if IsBuy(r.intent) then BuyStep(s, msg, r)
    else if IsService(r.intent) then Done(ServiceStep(s, r))
    else Done(PhoneOrConfirm(s, PhoneAsk))
  }

  /** The classifier's corrected result of this turn. */
  function Classified(s: Snapshot, env: Env, text: string, service: bool): RouterResult {
    Refine(ClassifyText(env.llm(text), env.decode), env.findBrand, text, s.data, service)
  }

  /** Classification, storing its result, and the branch its intent selects. */
  function ClassifiedStep(s: Snapshot, env: Env, msg: Message, service: bool): Outcome {
    var r := Classified(s, env, TextOf(msg), service);
    BranchStep(s.(data := Stored(s.data, r)), env, msg, Carried(r, s.data))
  }

  /** How the turn ends, before any hand-over to the search handler. */
  function TurnOutcome(s: Snapshot, env: Env, msg: Message): Outcome {
    var service := ServiceScan(Lower(TextOf(msg)));
    match ShortcutStage(s, env, msg, service)
    case Some(o) => o
    case None => ClassifiedStep(s, env, msg, service)
  }

  /** The whole turn. */
  function DetectIntentStep(s: Snapshot, env: Env, msg: Message): Snapshot
    requires EnvOk(env)
  {
    Finish(TurnOutcome(s, env, msg), env, msg)
  }

  // ---------------------------------------------------------------------
  // The handler
  // ---------------------------------------------------------------------

  /** `handle_detect_intent`. */
  method HandleDetectIntent(ctx: Conversation, env: Env, msg: Message)
    requires EnvOk(env)
    modifies ctx
    ensures ctx.Snap() == DetectIntentStep(old(ctx.Snap()), env, msg)
  {
    var outcome := DetectTurn(ctx, env, msg);
    Conclude(ctx, env, msg, outcome);
  }

  /** `handle_detect_intent` up to the hand-over to the search handler, which it returns. */
  method DetectTurn(ctx: Conversation, env: Env, msg: Message) returns (outcome: Outcome)
    modifies ctx
    ensures outcome == TurnOutcome(old(ctx.Snap()), env, msg) && ctx.Snap() == outcome.snap
  {
    var text := TextOf(msg);
    var textLower := Lower(text);
    var isPotentialService := ContainsAny(textLower, ServicePartsKeywords);
    if !isPotentialService {
      if Scan.HasWord(textLower, "то") {
        isPotentialService := true;
      }
    }
    var shortcut := HandleShortcuts(ctx, env, msg, isPotentialService);
    if shortcut.Some? {
      return shortcut.value;
    }
    outcome := ClassifyAndBranch(ctx, env, msg, isPotentialService);
  }

  /** A hand-over runs the search handler on the same message; otherwise the turn is over. */
  method Conclude(ctx: Conversation, env: Env, msg: Message, outcome: Outcome)
    requires EnvOk(env) && ctx.Snap() == outcome.snap
    modifies ctx
    ensures ctx.Snap() == Finish(outcome, env, msg)
  {
    match outcome
    case Done(_) =>
    case HandOver(_) => NDC.HandleNonDealerChoice(ctx, env, msg);
  }

  method HandleShortcuts(ctx: Conversation, env: Env, msg: Message, service: bool) returns (r: Option<Outcome>)
    modifies ctx
    ensures r == ShortcutStage(old(ctx.Snap()), env, msg, service)
    ensures r.Some? ==> ctx.Snap() == r.value.snap
    ensures r.None? ==> ctx.Snap() == old(ctx.Snap())
  {
    if service {
      return None;
    }
    r := HandleDirectModel(ctx, env, TextOf(msg));
    if r.Some? {
      return;
    }
    r := HandleSmartSearch(ctx, env, msg);
    if r.Some? {
      return;
    }
    r := HandlePurchase(ctx, env, msg);
    if r.Some? {
      return;
    }
    r := HandleSearchQuery(ctx, env, msg);
  }

  method HandleDirectModel(ctx: Conversation, env: Env, text: string) returns (r: Option<Outcome>)
    modifies ctx
    ensures r == DirectModelStage(old(ctx.Snap()), env, text)
    ensures r.Some? ==> ctx.Snap() == r.value.snap
    ensures r.None? ==> ctx.Snap() == old(ctx.Snap())
  {
    var found, responseText := ResponseHelpers.FindDirectModels(env.catalog, text);
    if found == [] {
      return None;
    }
    var firstCar := found[0];
    ctx.data := ctx.data.(intent := Some(BuyNew), targetBrand := Some(firstCar.brand),
                          slots := NoSlots.(model := Some(firstCar.model)));
    ctx.Answer(responseText);
    return Some(Done(ctx.Snap()));
  }

  /** `set_state(non_dealer_choice)`, after the record became `d`, and the hand-over to the search handler. */
  method SearchNow(ctx: Conversation, ghost d: SessionData) returns (outcome: Outcome)
    requires ctx.data == d
    modifies ctx
    ensures outcome == SearchOn(old(ctx.Snap()), d) && ctx.Snap() == outcome.snap
  {
    ctx.SetState(NonDealerChoice);
    return HandOver(ctx.Snap());
  }

  method HandleSmartSearch(ctx: Conversation, env: Env, msg: Message) returns (r: Option<Outcome>)
    modifies ctx
    ensures r == SmartSearchStage(old(ctx.Snap()), env, msg)
    ensures r.Some? ==> ctx.Snap() == r.value.snap
    ensures r.None? ==> ctx.Snap() == old(ctx.Snap())
  {
    var text := TextOf(msg);
    var simpleBrand := FindBrand(env.findBrand, text);
    if simpleBrand.Some? && simpleBrand.value in DealerBrands {
      if TP.IsPowerQuery(text) || TP.IsExpensiveQuery(text) || TP.IsSearchQuery(text) || ContainsAny(Lower(text), SmartTriggers) {
        ctx.data := ctx.data.(intent := Some(BuyNew), targetBrand := simpleBrand,
                              nonDealerBrand := None, nonDealerNoticeSent := false);
        var outcome := SearchNow(ctx, DealerLead(old(ctx.data), simpleBrand.value));
        return Some(outcome);
      }
    }
    return None;
  }

  method HandlePurchase(ctx: Conversation, env: Env, msg: Message) returns (r: Option<Outcome>)
    modifies ctx
    ensures r == PurchaseStage(old(ctx.Snap()), env, msg)
    ensures r.Some? ==> ctx.Snap() == r.value.snap
    ensures r.None? ==> ctx.Snap() == old(ctx.Snap())
  {
    var text := TextOf(msg);
    var simpleBrand := FindBrand(env.findBrand, text);
    if simpleBrand.Some? && ContainsAny(Lower(text), PurchaseTriggers) {
      if simpleBrand.value in DealerBrands {
        ctx.data := ctx.data.(intent := Some(BuyNew), targetBrand := simpleBrand,
                              nonDealerBrand := None, nonDealerNoticeSent := false);
        ctx.SetState(CollectSpecs);
        ctx.Answer(BudgetQuestion);
        return Some(Done(ctx.Snap()));
      }
      ctx.data := ctx.data.(nonDealerBrand := simpleBrand, intent := Some(BuyNew),
                            targetBrand := simpleBrand, nonDealerNoticeSent := false);
      var outcome := SearchNow(ctx, NonDealerLead(old(ctx.data), simpleBrand.value));
      return Some(outcome);
    }
    return None;
  }

  method HandleSearchQuery(ctx: Conversation, env: Env, msg: Message) returns (r: Option<Outcome>)
    modifies ctx
    ensures r == SearchQueryStage(old(ctx.Snap()), env, msg)
    ensures r.Some? ==> ctx.Snap() == r.value.snap
    ensures r.None? ==> ctx.Snap() == old(ctx.Snap())
  {
    var text := TextOf(msg);
    if TP.IsSearchQuery(text) || TP.IsExpensiveQuery(text) || TP.IsPowerQuery(text) {
      var foundBrand := FindBrand(env.findBrand, text);
      ResetNotice(ctx, foundBrand);
      var outcome := SearchNow(ctx, SearchNotice(old(ctx.data), foundBrand));
      return Some(outcome);
    }
    return None;
  }

  /** The non-dealer brand and its notice flag before a search. */
  method ResetNotice(ctx: Conversation, foundBrand: Option<string>)
    modifies ctx
    ensures ctx.Snap() == old(ctx.Snap()).(data := SearchNotice(old(ctx.data), foundBrand))
  {
    var lastNonDealer := ctx.data.nonDealerBrand;
    if IsNonDealer(foundBrand) {
      var shouldResetNotice := foundBrand != lastNonDealer;
      ctx.data := ctx.data.(nonDealerBrand := foundBrand);
      if shouldResetNotice {
        ctx.data := ctx.data.(nonDealerNoticeSent := false);
      }
    } else {
      ctx.data := ctx.data.(nonDealerBrand := None, nonDealerNoticeSent := false);
    }
  }

  /** The rules that correct the classifier's result, applied in sequence to one result. */
  method RefineResult(result0: RouterResult, find: BrandFinder, text: string, data: SessionData, service: bool)
    returns (result: RouterResult)
    ensures result == Refine(result0, find, text, data, service)
  {
    var textLower := Lower(text);
    result := NormalizeBrand(result0, find, text);
    result := MatcherFallback(result, find, text);
    result := SameCarContext(result, textLower, data);
    result := SparesRule(result, find, text, textLower);
    result := OilRule(result, find, text, textLower, data);
    result := BuyFallbackRule(result, find, text, textLower, service);
    result := BuyWordRule(result, textLower, service);
    result := ServiceRule(result, find, text, textLower, service);
    result := AccountingRule(result, textLower);
  }

  method SparesRule(result0: RouterResult, find: BrandFinder, text: string, textLower: string) returns (result: RouterResult)
    ensures result == SparesFirst(result0, find, text, textLower)
  {
    result := result0;
    if Unsure(result) && ContainsAny(textLower, SparesKeywords) {
      var isReplace := ContainsAny(textLower, ReplaceWords);
      if !isReplace {
        result := result.(intent := Spares, confidence := High);
        result := FillUserBrand(result, find, text);
      }
    }
  }

  method OilRule(result0: RouterResult, find: BrandFinder, text: string, textLower: string, data: SessionData)
    returns (result: RouterResult)
    ensures result == OilRepair(result0, find, text, textLower, data)
  {
    result := result0;
    if Unsure(result) && ContainsAny(textLower, OilKeywords) {
      result := result.(intent := Repair, confidence := High);
      result := OilBrand(result, find, text, data);
      result := result.(slots := result.slots.(repairType := Some("слесарный"), repairDetails := Some("замена масла в двигателе")));
    }
  }

  method BuyFallbackRule(result0: RouterResult, find: BrandFinder, text: string, textLower: string, service: bool)
    returns (result: RouterResult)
    ensures result == BuyFallback(result0, find, text, textLower, service)
  {
    result := result0;
    if result.intent == Other || (result.intent == BuyNew && result.confidence == Low) {
      if !service && ContainsAny(textLower, PurchaseKeywords) {
        result := result.(intent := BuyNew, confidence := Medium);
        result := FillTargetBrand(result, find, text);
      }
    }
  }

  method BuyWordRule(result0: RouterResult, textLower: string, service: bool) returns (result: RouterResult)
    ensures result == BuyWord(result0, textLower, service)
  {
    result := result0;
    if result.intent == Other && (Contains(textLower, "купить") || Contains(textLower, "покупка")) && !service {
      result := result.(intent := BuyNew);
    }
  }

  method ServiceRule(result0: RouterResult, find: BrandFinder, text: string, textLower: string, service: bool)
    returns (result: RouterResult)
    ensures result == ServiceFallback(result0, find, text, textLower, service)
  {
    result := result0;
    if Unsure(result) || service {
      if service {
        result := result.(intent := Repair, confidence := High);
      }
      if service || ContainsAny(textLower, RepairTriggers) || Scan.HasWord(textLower, "то") {
        result := result.(intent := Repair, confidence := Medium);
        result := FillUserBrand(result, find, text);
        var slots := ClassifyRepair(result.slots, textLower);
        result := result.(slots := slots);
      }
    }
  }

  method AccountingRule(result0: RouterResult, textLower: string) returns (result: RouterResult)
    ensures result == AccountingFallback(result0, textLower)
  {
    result := result0;
    if Unsure(result) && ContainsAny(textLower, AccountingKeywords) {
      result := result.(intent := Accounting, confidence := High);
    }
  }

  /** Bodywork first, then locksmith work, each setting the repair type and its details. */
  method ClassifyRepair(slots0: Slots, textLower: string) returns (slots: Slots)
    ensures slots == RepairSlots(slots0, textLower)
  {
    slots := slots0;
    var isBodywork := false;
    if ContainsAny(textLower, BodyworkKeywords) {
      isBodywork := true;
      slots := slots.(repairDetails := Some("кузовной ремонт"));
    }
    var replace := Contains(textLower, "замен") || Contains(textLower, "помен");
    if replace {
      if ContainsAny(textLower, BodyParts) {
        isBodywork := true;
        slots := slots.(repairDetails := Some("замена кузовной детали"));
      }
    }
    if isBodywork {
      slots := slots.(repairType := Some("кузовной"));
    } else {
      var isLocksmith := false;
      var maintenance := Scan.HasWord(textLower, "то");
      if ContainsAny(textLower, LocksmithKeywords) || maintenance {
        isLocksmith := true;
        if maintenance {
          slots := slots.(repairDetails := Some("техническое обслуживание"));
        } else {
          slots := slots.(repairDetails := Some("слесарный ремонт"));
        }
      }
      if replace && !isBodywork {
        isLocksmith := true;
        slots := slots.(repairDetails := Some("замена детали/расходника"));
      }
      if isLocksmith {
        slots := slots.(repairType := Some("слесарный"));
      }
    }
  }

  /** Classification, the corrected result stored, and the branch of its intent. */
  method ClassifyAndBranch(ctx: Conversation, env: Env, msg: Message, service: bool) returns (outcome: Outcome)
    modifies ctx
    ensures outcome == ClassifiedStep(old(ctx.Snap()), env, msg, service) && ctx.Snap() == outcome.snap
  {
    var text := TextOf(msg);
    var classified := ClassifyText(env.llm(text), env.decode);
    var result := RefineResult(classified, env.findBrand, text, ctx.data, service);
    assert result == Classified(old(ctx.Snap()), env, text, service);
    var data := ctx.data;
    StoreResult(ctx, result);
    if IsService(result.intent) && !Truthy(result.userCarBrand) {
      if Truthy(data.userCarBrand) {
        result := result.(userCarBrand := data.userCarBrand);
      }
    }
    assert result == Carried(Classified(old(ctx.Snap()), env, text, service), old(ctx.data));
    outcome := Branch(ctx, env, msg, result);
  }

  /** The corrected result stored: intent, confidence and slots, and each brand it names. */
  method StoreResult(ctx: Conversation, result: RouterResult)
    modifies ctx
    ensures ctx.Snap() == old(ctx.Snap()).(data := Stored(old(ctx.data), result))
  {
    ctx.data := ctx.data.(intent := Some(result.intent), confidence := Some(result.confidence), slots := result.slots);
    if Truthy(result.targetBrand) {
      ctx.data := ctx.data.(targetBrand := result.targetBrand);
    }
    if Truthy(result.userCarBrand) {
      ctx.data := ctx.data.(userCarBrand := result.userCarBrand);
    }
  }

  method Branch(ctx: Conversation, env: Env, msg: Message, result: RouterResult) returns (outcome: Outcome)
    modifies ctx
    ensures outcome == BranchStep(old(ctx.Snap()), env, msg, result) && ctx.Snap() == outcome.snap
  {
    if result.intent == BuyNew || result.intent == BuyUsed {
      outcome := HandleBuy(ctx, msg, result);
    } else {
      HandleNotBuy(ctx, env, msg, result);
      outcome := Done(ctx.Snap());
    }
  }

  /** The intents that end the turn here: other, the services and accounting. */
  method HandleNotBuy(ctx: Conversation, env: Env, msg: Message, result: RouterResult)
    requires !IsBuy(result.intent)
    modifies ctx
    ensures BranchStep(old(ctx.Snap()), env, msg, result) == Done(ctx.Snap())
  {
    var intent := result.intent;
    if intent == Other {
      HandleOther(ctx, env, msg, result);
    } else if intent == Repair || intent == Spares || intent == Sell {
      HandleService(ctx, result);
    } else {
      AskPhoneOrConfirm(ctx, PhoneAsk);
    }
  }

  /** Repair, spares or sale: the car's make is asked for unless known, then the phone. */
  method HandleService(ctx: Conversation, result: RouterResult)
    modifies ctx
    ensures ctx.Snap() == ServiceStep(old(ctx.Snap()), result)
  {
    if !Truthy(result.userCarBrand) {
      ctx.SetState(CollectBrand);
      ctx.Answer(CarModelQuestion);
    } else {
      AskPhoneOrConfirm(ctx, ServicePhoneAsk(NameOr(ctx.data)));
    }
  }

  method AskPhoneOrConfirm(ctx: Conversation, ask: string)
    modifies ctx
    ensures ctx.Snap() == PhoneOrConfirm(old(ctx.Snap()), ask)
  {
    var hasPhone := Truthy(ctx.data.phone);
    if hasPhone {
      ctx.SetState(Confirm);
      ConfirmHandler.AskConfirm(ctx);
    } else {
      ctx.SetState(CollectPhone);
      ctx.Answer(ask);
    }
  }

  method HandleBuy(ctx: Conversation, msg: Message, result: RouterResult) returns (outcome: Outcome)
    modifies ctx
    ensures outcome == BuyStep(old(ctx.Snap()), msg, result) && ctx.Snap() == outcome.snap
  {
    var d := ctx.data;
    if result.intent == BuyNew && IsNonDealer(result.targetBrand) {
      ctx.data := ctx.data.(nonDealerBrand := result.targetBrand, nonDealerNoticeSent := false);
      outcome := SearchNow(ctx, d.(nonDealerBrand := result.targetBrand, nonDealerNoticeSent := false));
      return;
    }
    if !Truthy(result.targetBrand) {
      if Truthy(d.userCarBrand) {
        var prevBrand := d.userCarBrand;
        ctx.data := ctx.data.(targetBrand := prevBrand);
        ctx.SetState(CollectBrand);
        ctx.Answer(SameBrandQuestion(prevBrand.value));
      } else if TP.IsSearchQuery(TextOf(msg)) {
        ctx.data := ctx.data.(nonDealerBrand := None);
        outcome := SearchNow(ctx, d.(nonDealerBrand := None));
        return;
      } else {
        ctx.SetState(CollectBrand);
        ctx.Answer(WhichCarQuestion);
      }
    } else if result.intent == BuyNew && result.targetBrand.value in DealerBrands {
      ctx.SetState(CollectSpecs);
      ctx.Answer(BudgetQuestion);
    } else {
      AskPhoneOrConfirm(ctx, PhoneAsk);
    }
    outcome := Done(ctx.Snap());
  }

  method HandleOther(ctx: Conversation, env: Env, msg: Message, result: RouterResult)
    modifies ctx
    ensures ctx.Snap() == OtherStep(old(ctx.Snap()), env, msg, result)
  {
    var text := TextOf(msg);
    var foundBrand := FindBrand(env.findBrand, text);
    if foundBrand.Some? {
      ctx.data := ctx.data.(userCarBrand := foundBrand, targetBrand := foundBrand);
      ctx.Answer(AmbiguousQuestion(foundBrand.value));
      return;
    }
    HandleRetry(ctx, env, msg, result);
  }

  method HandleRetry(ctx: Conversation, env: Env, msg: Message, result: RouterResult)
    modifies ctx
    ensures ctx.Snap() == RetryStep(old(ctx.Snap()), env, msg, result)
  {
    var retryCount := ctx.data.retryCount;
    if retryCount >= 2 {
      GiveUpOrAskPhone(ctx, env, msg);
      return;
    }
    ctx.data := ctx.data.(retryCount := retryCount + 1);
    assert ctx.Snap() == Counted(old(ctx.Snap()));
    AskAgain(ctx, env, msg, result);
  }

  method AskAgain(ctx: Conversation, env: Env, msg: Message, result: RouterResult)
    modifies ctx
    ensures ctx.Snap() == AskAgainStep(old(ctx.Snap()), env, msg, result)
  {
    var text := TextOf(msg);
    if ContainsAny(Lower(text), OwnershipTriggers) {
      var owned := OrElse(result.userCarBrand, FindBrand(env.findBrand, text));
      AnswerOwnership(ctx, owned);
      return;
    }
    ctx.Answer(RephraseAsk);
  }

  method GiveUpOrAskPhone(ctx: Conversation, env: Env, msg: Message)
    modifies ctx
    ensures ctx.Snap() == ExhaustedStep(old(ctx.Snap()), env, msg)
  {
    if Truthy(ctx.data.phone) {
      GiveUp(ctx, env, msg);
      return;
    }
    var name := NameOr(ctx.data);
    ctx.data := ctx.data.(intent := Some(FallbackOther));
    ctx.SetState(CollectPhone);
    ctx.Answer(SorryPhoneAsk(name));
  }

  method AnswerOwnership(ctx: Conversation, owned: Option<string>)
    modifies ctx
    ensures ctx.Snap() == OwnershipStep(old(ctx.Snap()), owned)
  {
    if !Truthy(owned) {
      ctx.SetState(CollectBrand);
      ctx.Answer(OwnBrandQuestion);
      return;
    }
    ctx.data := ctx.data.(userCarBrand := owned);
    ctx.Answer(OwnedQuestion(owned.value));
  }

  /** The lead of the third failed attempt: saved, posted to the general group, and the dialogue ends. */
  method GiveUp(ctx: Conversation, env: Env, msg: Message)
    modifies ctx
    ensures ctx.Snap() == GiveUpStep(old(ctx.Snap()), env, msg)
  {
    var lead := FallbackLead(ctx.data, msg.userId);
    if env.saveOk {
      ctx.Send(LeadSaved(lead));
    }
    if env.sendOk {
      ctx.Send(ToGroup(GroupOther, ResponseHelpers.FormatLeadMessage(lead)));
    }
    ctx.Answer(SorryCallback);
    ctx.SetState(Finished);
  }
}

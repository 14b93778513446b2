/**
 * The confirmation step (app/handlers/confirm.py): `ask_confirm` shows the
 * summary of the request with the phone masked, and `handle_final_confirm`
 * reads the answer — yes, a corrected brand, no — and routes a confirmed
 * lead to the manager group of its intent and brand.
 */
module ConfirmHandler {
  import opened Wrappers
  import opened Text
  import opened Dto
  import opened States
  import opened Brands
  import opened Catalog
  import opened Session
  import ResponseHelpers

  // ---------------------------------------------------------------------
  // `ask_confirm`
  // ---------------------------------------------------------------------

  /** The phrase of the summary for each intent; the bot's own fallback intent reads like "other". */
  function IntentText(i: Intent): string {
    match i
    case BuyNew => "Вы ищете новый"
    case BuyUsed => "Вы ищете б/у"
    case Sell => "Вы хотите продать"
    case Repair => "Вам нужен ремонт"
    case Spares => "Вам нужны запчасти"
    case Accounting => "У Вас вопрос по бухгалтерии"
    case Other => "Ваш запрос"
    case FallbackOther => "Ваш запрос"
  }

  /** `phone[:4] + "****" + phone[-4:]`, where both slices stop at the ends of a short string. */
  function MaskPhone(phone: string): string {
    var n := if |phone| < 4 then |phone| else 4;
    phone[..n] + "****" + phone[|phone| - n..]
  }

  /** `f"{budget / 1_000_000:.1f}"` for a budget of a million or more, rounded half up. */
  function MillionsOneDecimal(budget: nat): string {
    var tenths := (budget + 50000) / 100000;
    NatToString(tenths / 10) + "." + [DigitChar(tenths % 10)]
  }

  /** A budget of a million or more in millions with one decimal, a smaller one with comma groups. */
  function BudgetText(budget: int): string {
    if budget >= 1000000 then "до " + MillionsOneDecimal(budget) + " млн"
    else "до " + IntGrouped(budget, ",") + " руб."
  }

  /** The body, budget and drive parts a purchase summary adds. */
  function PurchaseParts(slots: Slots): seq<string> {
    (if Truthy(slots.body) then [slots.body.value] else [])
    + (if GivenInt(slots.budgetMax) then [BudgetText(slots.budgetMax.value)] else [])
    + (if Truthy(slots.drive) then ["(" + slots.drive.value + ")"] else [])
  }

  /** The closing question: the masked phone when one is known. */
  function PhoneQuestion(phone: Option<string>): string {
    if Truthy(phone) then "Ваш номер " + MaskPhone(phone.value) + "?" else "?"
  }

  /** The brand part of a summary, when a brand is set. */
  function BrandParts(brand: Option<string>): seq<string> {
    if Truthy(brand) then [brand.value] else []
  }

  /** The details a summary shows for its intent: purchase details, or the repair type of a repair. */
  function DetailParts(intent: Intent, slots: Slots): seq<string> {
    if intent == BuyNew || intent == BuyUsed then PurchaseParts(slots)
    else if intent == Repair && Truthy(slots.repairType) then ["(" + slots.repairType.value + ")"]
    else []
  }

  function SummaryParts(d: SessionData): seq<string> {
    var intent := d.intent.GetOr(Other);
    [NameOr(d) + ", правильно понял:", IntentText(intent)]
    + BrandParts(LeadBrand(d)) + DetailParts(intent, d.slots) + [PhoneQuestion(d.phone)]
  }

  /** The summary message. */
  function Summary(d: SessionData): string { Join(SummaryParts(d), " ") }

  /** What `ask_confirm` does to a conversation: one summary message, and the state becomes `confirm_final`. */
  function AskConfirmStep(s: Snapshot): Snapshot {
    Goto(Say(s, Summary(s.data)), ConfirmFinal)
  }

  /** `ask_confirm`: builds the summary part by part, answers with it and waits for the confirmation. */
  method AskConfirm(ctx: Conversation)
    modifies ctx
    ensures ctx.Snap() == AskConfirmStep(old(ctx.Snap()))
  {
    var d := ctx.data;
    var intent := d.intent.GetOr(Other);
    var brand := OrElse(d.targetBrand, d.userCarBrand);
    var parts := [NameOr(d) + ", правильно понял:", IntentText(intent)];
    var brandPart: seq<string> := [];
    if Truthy(brand) {
      brandPart := [brand.value];
    }
    var details: seq<string> := [];
    if intent == BuyNew || intent == BuyUsed {
      if Truthy(d.slots.body) {
        details := details + [d.slots.body.value];
      }
      if GivenInt(d.slots.budgetMax) {
        details := details + [BudgetText(d.slots.budgetMax.value)];
      }
      if Truthy(d.slots.drive) {
        details := details + ["(" + d.slots.drive.value + ")"];
      }
    }
    if intent == Repair && Truthy(d.slots.repairType) {
      details := details + ["(" + d.slots.repairType.value + ")"];
    }
    var question := "?";
    if Truthy(d.phone) {
      var masked := MaskPhone(d.phone.value);
      question := "Ваш номер " + masked + "?";
    }
    assert details == DetailParts(intent, d.slots);
    parts := parts + brandPart + details + [question];
    ctx.Answer(Join(parts, " "));
    ctx.SetState(ConfirmFinal);
  }

  // ---------------------------------------------------------------------
  // Properties of the summary
  // ---------------------------------------------------------------------

  /** A normalised phone keeps its first and last four characters and hides the four between them. */
  lemma MaskNormalisedPhone(phone: string)
    requires |phone| == 12
    ensures MaskPhone(phone) == phone[..4] + "****" + phone[8..]
    ensures |MaskPhone(phone)| == 12
    ensures forall j | 4 <= j < 8 :: MaskPhone(phone)[j] == '*'
  {
  }

  /** A phone of at most four characters shows up whole on both sides of the stars. */
  lemma MaskShortPhone(phone: string)
    requires |phone| <= 4
    ensures MaskPhone(phone) == phone + "****" + phone
  {
  }

  /**
   * The summary opens with the name and the intent phrase, names the brand
   * right after them exactly when one is set, and always ends with the phone
   * question; it has one part per detail the record holds.
   */
  lemma SummaryShape(d: SessionData)
    ensures SummaryParts(d)[0] == NameOr(d) + ", правильно понял:"
    ensures SummaryParts(d)[1] == IntentText(d.intent.GetOr(Other))
    ensures SummaryParts(d)[|SummaryParts(d)| - 1] == PhoneQuestion(d.phone)
    ensures Truthy(LeadBrand(d)) ==> SummaryParts(d)[2] == LeadBrand(d).value
    ensures var intent := d.intent.GetOr(Other);
      |SummaryParts(d)| == 3 + (if Truthy(LeadBrand(d)) then 1 else 0)
        + (if intent == BuyNew || intent == BuyUsed then |PurchaseParts(d.slots)| else 0)
        + (if intent == Repair && Truthy(d.slots.repairType) then 1 else 0)
  {
  }

  /** Details appear only for purchases (body, budget, drive) and repairs (the repair type). */
  lemma SummaryDetailsOnlyForPurchaseAndRepair(d: SessionData)
    requires d.intent.GetOr(Other) !in {BuyNew, BuyUsed, Repair}
    ensures SummaryParts(d) == [NameOr(d) + ", правильно понял:", IntentText(d.intent.GetOr(Other))]
      + (if Truthy(LeadBrand(d)) then [LeadBrand(d).value] else []) + [PhoneQuestion(d.phone)]
  {
  }

  /** The summary of a known phone shows it masked; without a phone the last part is a bare question mark. */
  lemma PhoneQuestionCases(phone: Option<string>)
    ensures Truthy(phone) ==> PhoneQuestion(phone) == "Ваш номер " + MaskPhone(phone.value) + "?"
    ensures !Truthy(phone) ==> PhoneQuestion(phone) == "?"
    ensures PhoneQuestion(phone)[|PhoneQuestion(phone)| - 1] == '?'
  {
  }

  /** Budgets of a million or more are shown in millions with one decimal. */
  lemma {:induction false} BudgetTextExample()
    ensures BudgetText(2500000) == "до 2.5 млн"
    ensures BudgetText(900000) == "до 900,000 руб."
  {
    OneDecimalExample();
    GroupedExample();
  }

  lemma OneDecimalExample()
    ensures MillionsOneDecimal(2500000) == "2.5"
  {
    assert (2500000 + 50000) / 100000 == 25;
    assert NatToString(2) == "2";
    assert DigitChar(5) == '5';
  }

  lemma GroupedExample()
    ensures IntGrouped(900000, ",") == "900,000"
  {
    assert NatToString(900) == "900";
    assert Grouped(900, ",") == "900";
    assert Pad3(0) == "000";
    assert Grouped(900000, ",") == "900" + "," + "000";
  }

  // ---------------------------------------------------------------------
  // Routing of a confirmed lead
  // ---------------------------------------------------------------------

  const GroupChery: string := "-1002972087933"
  const GroupJetour: string := "-4920166613"
  const GroupHaval: string := "-1004894652862"
  const GroupProbeg: string := "-1002914948690"
  const GroupOther: string := "-1002944317515"
  const GroupAccounting: string := "-1002746330909"
  const GroupStoChery: string := "-1003182881943"
  const GroupKuzov: string := "-1003127031679"
  const GroupStoHaval: string := "-1003159687346"
  const GroupSparesChery: string := "-1003186058405"
  const GroupSparesHaval: string := "-1003056030547"

  /** The brands served by the Chery service and parts departments, in Latin and Cyrillic spelling. */
  const CheryEcosystem: seq<string> :=
    ["Chery", "Jetour", "Omoda", "Tenet", "Jaecoo", "Чери", "Джетур", "Омода", "Тенет", "Джеку"]

  /** Some ecosystem name is a case-insensitive substring of the brand. */
  predicate InCheryEcosystem(brand: string) {
    exists k | 0 <= k < |CheryEcosystem| :: Contains(Lower(brand), Lower(CheryEcosystem[k]))
  }

  /** The first dealer brand from position `k` of the list spelt like `brand` up to case. */
  function DealerSpellingFrom(brand: string, k: nat): (r: Option<string>)
    ensures r.Some? ==> r.value in DealerBrands && Lower(r.value) == Lower(brand)
    ensures r.None? ==> forall m | k <= m < |DealerBrandList| :: Lower(DealerBrandList[m]) != Lower(brand)
    decreases |DealerBrandList| - k
  {
    if k >= |DealerBrandList| then None
    else if Lower(DealerBrandList[k]) == Lower(brand) then Some(DealerBrandList[k])
    else DealerSpellingFrom(brand, k + 1)
  }

  /** The brand used for routing: the dealer's spelling of a dealer brand, anything else unchanged. */
  function RoutingBrand(brand: Option<string>): Option<string> {
    if !Truthy(brand) then brand
    else match DealerSpellingFrom(brand.value, 0)
      case Some(db) => Some(db)
      case None => brand
  }

  /** The manager group of a confirmed lead; sell and other leads have none. */
  function TargetGroup(intent: Intent, brand: Option<string>, slots: Slots): Option<string> {
    match intent
    case BuyNew =>
      var rb := RoutingBrand(brand);
      if IsDealer(rb) then
        (if rb.value == "Chery" then Some(GroupChery)
         else if rb.value == "Jetour" then Some(GroupJetour)
         else Some(GroupHaval))
      else Some(GroupProbeg)
    case BuyUsed => Some(GroupProbeg)
    case FallbackOther => Some(GroupOther)
    case Spares =>
      if Truthy(brand) && InCheryEcosystem(brand.value) then Some(GroupSparesChery) else Some(GroupSparesHaval)
    case Repair =>
      if Contains(Lower(slots.repairType.GetOr("")), "кузов") then Some(GroupKuzov)
      else if Truthy(brand) && InCheryEcosystem(brand.value) then Some(GroupStoChery)
      else Some(GroupStoHaval)
    case Accounting => Some(GroupAccounting)
    case Sell => None
    case Other => None
  }

  /** The lead written for a confirmed request. */
  function ConfirmedLead(d: SessionData, userId: int): LeadDTO {
    LeadDTO(userId, NameOr(d), IntentName(d.intent.GetOr(Other)), LeadBrand(d), d.phone.GetOr(""), d.slots)
  }

  /** The lead file entry, when writing it succeeds. */
  function SavedLead(lead: LeadDTO, saveOk: bool): seq<Output> {
    if saveOk then [LeadSaved(lead)] else []
  }

  /** The group post, when there is a group whose id starts with "-" and sending succeeds. */
  function GroupPost(group: Option<string>, lead: LeadDTO, sendOk: bool): seq<Output> {
    if group.Some? && StartsWith(group.value, "-") && sendOk
    then [ToGroup(group.value, ResponseHelpers.FormatLeadMessage(lead))] else []
  }

  const ConfirmedReply: string := "Менеджер свяжется с Вами в течение 10 минут."

  /**
   * Line 156: `slots.get("repair_type", "").lower()` raises for a repair
   * lead whose repair type holds null, since null has no `lower`.
   */
  predicate RoutingRaises(intent: Intent, slots: Slots) { intent == Repair && IsNull(slots, RepairTypeSlot) }

  /**
   * A positive answer: the lead is saved where that works; then, unless the
   * routing raises and ends the turn there, it is posted where that works,
   * the user is told, and the dialogue ends.
   */
  function ConfirmedStep(s: Snapshot, env: Env, msg: Message): Snapshot {
    var lead := ConfirmedLead(s.data, msg.userId);
    var intent := s.data.intent.GetOr(Other);
    var saved := s.(outbox := s.outbox + SavedLead(lead, env.saveOk));
    if RoutingRaises(intent, s.data.slots) then saved
    else
      var group := TargetGroup(intent, LeadBrand(s.data), s.data.slots);
      Goto(Say(saved.(outbox := saved.outbox + GroupPost(group, lead, env.sendOk)), ConfirmedReply), Finished)
  }

  const PositiveWords: seq<string> := ["да", "верно", "ага", "угу", "правильно", "ок", "ok", "yes", "конечно"]
  const NegativeWords: seq<string> := ["нет", "неверно", "ошибка", "no", "не"]

  const PhoneAgainReply: string := "Пожалуйста, введите верный номер телефона."
  const RestartReply: string := "Хорошо, давайте начнем сначала. Напишите /start."
  const UnclearReply: string :=
    "Не совсем понял Ваш ответ. Пожалуйста, подтвердите, что все верно, написав 'Да', или укажите марку авто для исправления."

  /** A brand correction: both brand fields take the new brand and the non-dealer notice may be shown again. */
  function Corrected(d: SessionData, brand: string): SessionData {
    d.(targetBrand := Some(brand), userCarBrand := Some(brand), nonDealerNoticeSent := false)
  }

  /** What `handle_final_confirm` does to a conversation. */
  function FinalConfirmStep(s: Snapshot, env: Env, msg: Message): Snapshot {
    var text := Lower(TextOf(msg));
    if ContainsAny(text, PositiveWords) then ConfirmedStep(s, env, msg)
    else
      var newBrand := FindBrand(env.findBrand, TextOf(msg));
      if newBrand.Some? && newBrand != LeadBrand(s.data) then
        var fixed := s.(data := Corrected(s.data, newBrand.value));
        AskConfirmStep(Say(fixed, "Понял, исправляем на " + newBrand.value + "."))
      else if ContainsAny(text, NegativeWords) then
        if Contains(text, "номер") || Contains(text, "телефон") then Say(Goto(s, CollectPhone), PhoneAgainReply)
        else Goto(Say(s, RestartReply), Finished)
      else Say(s, UnclearReply)
  }

  /** `handle_final_confirm`. */
  method HandleFinalConfirm(ctx: Conversation, env: Env, msg: Message)
    modifies ctx
    ensures ctx.Snap() == FinalConfirmStep(old(ctx.Snap()), env, msg)
  {
    var text := Lower(TextOf(msg));
    if ContainsAny(text, PositiveWords) {
      var d := ctx.data;
      var lead := LeadDTO(msg.userId, NameOr(d), IntentName(d.intent.GetOr(Other)),
                          OrElse(d.targetBrand, d.userCarBrand), d.phone.GetOr(""), d.slots);
      if env.saveOk {
        ctx.Send(LeadSaved(lead));
      }
      if d.intent.GetOr(Other) == Repair && IsNull(d.slots, RepairTypeSlot) {
        return;
      }
      var targetGroup := TargetGroup(d.intent.GetOr(Other), OrElse(d.targetBrand, d.userCarBrand), d.slots);
      if targetGroup.Some? && StartsWith(targetGroup.value, "-") && env.sendOk {
        ctx.Send(ToGroup(targetGroup.value, ResponseHelpers.FormatLeadMessage(lead)));
      }
      ctx.Answer(ConfirmedReply);
      ctx.SetState(Finished);
      return;
    }

    var newBrand := FindBrand(env.findBrand, TextOf(msg));
    var isNegative := ContainsAny(text, NegativeWords);
    if newBrand.Some? {
      if newBrand != OrElse(ctx.data.targetBrand, ctx.data.userCarBrand) {
        ctx.data := ctx.data.(targetBrand := newBrand, userCarBrand := newBrand, nonDealerNoticeSent := false);
        ctx.Answer("Понял, исправляем на " + newBrand.value + ".");
        AskConfirm(ctx);
        return;
      }
    }

    if isNegative {
      if Contains(text, "номер") || Contains(text, "телефон") {
        ctx.SetState(CollectPhone);
        ctx.Answer(PhoneAgainReply);
        return;
      } else {
        ctx.Answer(RestartReply);
        ctx.SetState(Finished);
        return;
      }
    }

    ctx.Answer(UnclearReply);
  }

  // ---------------------------------------------------------------------
  // Properties of the routing and of the answer handling
  // ---------------------------------------------------------------------

  /** Every group id starts with "-", so a lead with a group is always posted when sending works. */
  lemma GroupIdsStartWithDash(intent: Intent, brand: Option<string>, slots: Slots)
    ensures TargetGroup(intent, brand, slots).Some? ==> StartsWith(TargetGroup(intent, brand, slots).value, "-")
  {
  }

  /** The dealer brands are matched up to case: any spelling of one routes like the dealer's own. */
  lemma RoutingBrandIgnoresCase(brand: string, k: nat)
    requires k < |DealerBrandList| && Lower(brand) == Lower(DealerBrandList[k])
    ensures RoutingBrand(Some(brand)) == Some(DealerBrandList[k])
  {
    assert Lower("Chery") == "chery";
    assert Lower("Jetour") == "jetour";
    assert Lower("Haval") == "haval";
  }

  /** A brand that is no dealer brand up to case routes unchanged. */
  lemma RoutingBrandKeepsOthers(brand: Option<string>)
    requires forall k | 0 <= k < |DealerBrandList| :: brand.None? || Lower(brand.value) != Lower(DealerBrandList[k])
    ensures RoutingBrand(brand) == brand
  {
  }

  /** The purchase routes: new cars of a dealer brand go to that brand's group, every other purchase to the used-car group. */
  lemma PurchaseRouting(brand: Option<string>, slots: Slots)
    ensures RoutingBrand(brand) == Some("Chery") ==> TargetGroup(BuyNew, brand, slots) == Some(GroupChery)
    ensures RoutingBrand(brand) == Some("Jetour") ==> TargetGroup(BuyNew, brand, slots) == Some(GroupJetour)
    ensures RoutingBrand(brand) == Some("Haval") ==> TargetGroup(BuyNew, brand, slots) == Some(GroupHaval)
    ensures !IsDealer(RoutingBrand(brand)) ==> TargetGroup(BuyNew, brand, slots) == Some(GroupProbeg)
    ensures TargetGroup(BuyUsed, brand, slots) == Some(GroupProbeg)
  {
  }

  /** The fixed routes: fallback leads to the general group, accounting to accounting, sell and other nowhere. */
  lemma FixedRouting(brand: Option<string>, slots: Slots)
    ensures TargetGroup(FallbackOther, brand, slots) == Some(GroupOther)
    ensures TargetGroup(Accounting, brand, slots) == Some(GroupAccounting)
    ensures TargetGroup(Sell, brand, slots).None? && TargetGroup(Other, brand, slots).None?
  {
  }

  /**
   * Service routes (a repair type that holds null raises first, see
   * `RoutingRaises`): a bodywork repair goes to the bodywork group whatever
   * the brand; other repairs and parts go to the Chery departments exactly
   * when the brand names a member of the Chery ecosystem.
   */
  lemma ServiceRouting(brand: Option<string>, slots: Slots)
    ensures Contains(Lower(slots.repairType.GetOr("")), "кузов") ==> TargetGroup(Repair, brand, slots) == Some(GroupKuzov)
    ensures !Contains(Lower(slots.repairType.GetOr("")), "кузов") ==>
      (TargetGroup(Repair, brand, slots) == Some(GroupStoChery) <==> Truthy(brand) && InCheryEcosystem(brand.value))
    ensures !Contains(Lower(slots.repairType.GetOr("")), "кузов") ==>
      (TargetGroup(Repair, brand, slots) == Some(GroupStoHaval) <==> !(Truthy(brand) && InCheryEcosystem(brand.value)))
    ensures TargetGroup(Spares, brand, slots) == Some(GroupSparesChery) <==> Truthy(brand) && InCheryEcosystem(brand.value)
    ensures TargetGroup(Spares, brand, slots) == Some(GroupSparesHaval) <==> !(Truthy(brand) && InCheryEcosystem(brand.value))
  {
  }

  /** The ecosystem test is a substring test: a brand name around "Omoda" belongs to it. */
  lemma EcosystemSubstring(brand: string)
    requires Contains(Lower(brand), "omoda")
    ensures InCheryEcosystem(brand)
  {
    assert Lower(CheryEcosystem[2]) == "omoda";
  }

  /**
   * A positive answer wins over everything and keeps the record. The lead
   * file entry comes first, present exactly when saving works. Unless the
   * routing raises, the group post follows, present exactly when sending
   * works, and the dialogue ends with the reassurance message; when it
   * raises, nothing else is sent and the state stays as it was.
   */
  lemma PositiveAnswerOutcome(s: Snapshot, env: Env, msg: Message)
    requires ContainsAny(Lower(TextOf(msg)), PositiveWords)
    ensures var r := FinalConfirmStep(s, env, msg);
      var lead := ConfirmedLead(s.data, msg.userId);
      var intent := s.data.intent.GetOr(Other);
      var group := TargetGroup(intent, LeadBrand(s.data), s.data.slots);
      r.data == s.data
      && (!RoutingRaises(intent, s.data.slots) ==>
            r.state == Some(Finished)
            && r.outbox == s.outbox + SavedLead(lead, env.saveOk) + GroupPost(group, lead, env.sendOk) + [ToUser(ConfirmedReply)])
      && (RoutingRaises(intent, s.data.slots) ==>
            r.state == s.state && r.outbox == s.outbox + SavedLead(lead, env.saveOk))
  {
  }

  /** The lead is posted, to its intent's group, exactly when that intent has a group and sending works. */
  lemma GroupPostWhenRouted(group: Option<string>, lead: LeadDTO, sendOk: bool)
    requires group.Some? ==> StartsWith(group.value, "-")
    ensures GroupPost(group, lead, sendOk) != [] <==> group.Some? && sendOk
    ensures GroupPost(group, lead, sendOk) != [] ==>
      GroupPost(group, lead, sendOk) == [ToGroup(group.value, ResponseHelpers.FormatLeadMessage(lead))]
  {
  }

  /**
   * Every confirmed lead with a group is posted there when sending works,
   * since all group ids start with "-", unless the routing raises, when
   * only the lead file entry is written.
   */
  lemma ConfirmedLeadReachesGroup(s: Snapshot, env: Env, msg: Message)
    requires ContainsAny(Lower(TextOf(msg)), PositiveWords)
    requires env.sendOk
    requires TargetGroup(s.data.intent.GetOr(Other), LeadBrand(s.data), s.data.slots).Some?
    ensures !RoutingRaises(s.data.intent.GetOr(Other), s.data.slots) ==>
      ToGroup(TargetGroup(s.data.intent.GetOr(Other), LeadBrand(s.data), s.data.slots).value,
              ResponseHelpers.FormatLeadMessage(ConfirmedLead(s.data, msg.userId)))
      in FinalConfirmStep(s, env, msg).outbox
    ensures RoutingRaises(s.data.intent.GetOr(Other), s.data.slots) ==>
      FinalConfirmStep(s, env, msg).outbox == s.outbox + SavedLead(ConfirmedLead(s.data, msg.userId), env.saveOk)
  {
    var lead := ConfirmedLead(s.data, msg.userId);
    var group := TargetGroup(s.data.intent.GetOr(Other), LeadBrand(s.data), s.data.slots);
    GroupIdsStartWithDash(s.data.intent.GetOr(Other), LeadBrand(s.data), s.data.slots);
    GroupPostWhenRouted(group, lead, true);
    PositiveAnswerOutcome(s, env, msg);
    if RoutingRaises(s.data.intent.GetOr(Other), s.data.slots) {
      return;
    }
    var r := FinalConfirmStep(s, env, msg);
    var post := ToGroup(group.value, ResponseHelpers.FormatLeadMessage(lead));
    var before := s.outbox + SavedLead(lead, env.saveOk);
    assert r.outbox == before + [post] + [ToUser(ConfirmedReply)];
    assert r.outbox[|before|] == post;
  }

  /**
   * Without a positive word, a brand the matcher finds that differs from the
   * current one is taken as a correction: both brand fields take it, the
   * non-dealer notice is re-armed, and the corrected summary is shown.
   */
  lemma CorrectionRewritesBrands(s: Snapshot, env: Env, msg: Message)
    requires !ContainsAny(Lower(TextOf(msg)), PositiveWords)
    requires FindBrand(env.findBrand, TextOf(msg)).Some?
    requires FindBrand(env.findBrand, TextOf(msg)) != LeadBrand(s.data)
    ensures var b := FindBrand(env.findBrand, TextOf(msg)).value;
      var r := FinalConfirmStep(s, env, msg);
      r.data == Corrected(s.data, b) && r.state == Some(ConfirmFinal)
      && r.outbox == s.outbox + [ToUser("Понял, исправляем на " + b + "."), ToUser(Summary(Corrected(s.data, b)))]
  {
  }

  /**
   * Otherwise a negative answer mentioning the number goes back to phone
   * collection, any other negative answer ends the dialogue, and anything
   * else asks again without changing the state or the record.
   */
  lemma NegativeAndUnclear(s: Snapshot, env: Env, msg: Message)
    requires !ContainsAny(Lower(TextOf(msg)), PositiveWords)
    requires FindBrand(env.findBrand, TextOf(msg)).None? || FindBrand(env.findBrand, TextOf(msg)) == LeadBrand(s.data)
    ensures var text := Lower(TextOf(msg));
      var r := FinalConfirmStep(s, env, msg);
      r.data == s.data
      && (ContainsAny(text, NegativeWords) && (Contains(text, "номер") || Contains(text, "телефон"))
          ==> r.state == Some(CollectPhone) && r.outbox == s.outbox + [ToUser(PhoneAgainReply)])
      && (ContainsAny(text, NegativeWords) && !(Contains(text, "номер") || Contains(text, "телефон"))
          ==> r.state == Some(Finished) && r.outbox == s.outbox + [ToUser(RestartReply)])
      && (!ContainsAny(text, NegativeWords) ==> r.state == s.state && r.outbox == s.outbox + [ToUser(UnclearReply)])
  {
  }

  /** Only a positive answer saves or posts anything. */
  lemma OnlyPositiveSendsLeads(s: Snapshot, env: Env, msg: Message)
    requires !ContainsAny(Lower(TextOf(msg)), PositiveWords)
    ensures forall o | o in FinalConfirmStep(s, env, msg).outbox[|s.outbox|..] :: o.ToUser?
  {
    var r := FinalConfirmStep(s, env, msg);
    assert |r.outbox| >= |s.outbox| && r.outbox[..|s.outbox|] == s.outbox;
  }
}

/**
 * `handle_collect_repair_type` (app/handlers/collect_repair_type.py): asks
 * whether a repair is mechanical ("слесарный") or bodywork ("кузовной").
 *
 * A text that reads as a purchase goes back to the intent handler with the
 * intent dropped. A repair type set earlier makes the handler ask about the
 * car and wait for a yes/no; that answer, or a classified repair type, leads
 * to the phone request or, with a phone known, to the confirmation summary.
 */
module CollectRepairTypeHandler {
  import opened Wrappers
  import opened Text
  import opened States
  import opened Brands
  import opened Session
  import opened Handoff
  import opened Dto
  import TP = TextParsers
  import ConfirmHandler
  import DI = DetectIntentHandler

  const PurchaseWords: seq<string> :=
    ["куп", "покуп", "интересует покуп", "новый", "с пробегом", "подобрать", "ищу", "нужен", "авто", "машин"]
  const YesWords: seq<string> := ["да", "верно", "ага", "yes"]
  const LocksmithWords: seq<string> :=
    ["слесарный", "двигатель", "подвеска", "то", "техобслуживание", "механика", "масло", "фильтр", "диагностика"]
  const BodyworkWords: seq<string> :=
    ["кузовной", "вмятины", "покраска", "дтп", "авария", "кузов", "крыло", "бампер"]

  const Locksmith: string := "слесарный"
  const Bodywork: string := "кузовной"
  const DefaultDetails: string := "обслуживание"
  const TypePrompt: string :=
    "Пожалуйста, укажите тип ремонта: слесарный (двигатель, подвеска, ТО) или кузовной (вмятины, покраска, после ДТП)."
  const CanDo: string := "Да, мы можем это сделать. "

  /** Lines 36-44: a purchase word, a search query or any brand. */
  predicate Escapes(env: Env, text: string) {
    ContainsAny(Lower(text), PurchaseWords) || TP.IsSearchQuery(text) || Truthy(FindBrand(env.findBrand, text))
  }

  /** `slots.get('repair_details', 'обслуживание')` as printed: a null value prints as "None". */
  function Details(slots: Slots): string {
    if slots.repairDetails.Some? then slots.repairDetails.value
    else if IsNull(slots, RepairDetailsSlot) then "None"
    else DefaultDetails
  }

  /** Lines 53-66: the question about the car, naming it when it is known. */
  function CarQuestion(d: SessionData): string {
    "Понял, Вас интересует " + Details(d.slots) + "." +
    if Truthy(d.userCarBrand) then " Ваш автомобиль - " + d.userCarBrand.value + "?"
    else " Какой у Вас автомобиль (марка)?"
  }

  /** Lines 118-122: mechanical words win over bodywork words. */
  function Classify(lower: string): (r: Option<string>)
    ensures r.Some? <==> ContainsAny(lower, LocksmithWords) || ContainsAny(lower, BodyworkWords)
    ensures r.Some? ==> r.value in {Locksmith, Bodywork}
  {
    if ContainsAny(lower, LocksmithWords) then Some(Locksmith)
    else if ContainsAny(lower, BodyworkWords) then Some(Bodywork)
    else None
  }

  /** With a phone known the summary is shown; otherwise the phone is asked for. */
  function ToPhone(t: Snapshot, ask: string): Snapshot {
    if Truthy(t.data.phone) then ConfirmHandler.AskConfirmStep(Goto(t, Confirm))
    else Goto(Say(t, ask), CollectPhone)
  }

  /** Lines 70-115: the answer to the car question, which always clears the waiting flag. */
  function Confirmation(s: Snapshot, env: Env, text: string): Snapshot {
    var cleared := s.data.(waitingBrandConfirmation := false);
    if Lower(text) in YesWords then ToPhone(s.(data := cleared), PhoneAsk(s.data))
    else match FindBrand(env.findBrand, text)
      case Some(b) => ToPhone(s.(data := cleared.(userCarBrand := Some(b))), PhoneAsk(s.data))
      case None => ToPhone(s.(data := cleared), PhoneAsk(s.data))
  }

  /** Lines 117-142: a classified reply is stored and leads on; any other reply asks again. */
  function Classified(s: Snapshot, text: string): Snapshot {
    match Classify(Lower(text))
    case Some(rt) => ToPhone(s.(data := s.data.(slots := s.data.slots.(repairType := Some(rt)))), CanDo + PhoneAsk(s.data))
    case None => Say(s, TypePrompt)
  }

  /** One turn in `collect_repair_type`, up to its hand-over. */
  function RepairNext(s: Snapshot, env: Env, msg: Message): Next {
    var text := TextOf(msg);
    if Escapes(env, text) then ToDetect(Goto(s, DetectIntent).(data := s.data.(intent := None)), msg, true)
    else if Truthy(s.data.slots.repairType) then
      Stop(Say(s, CarQuestion(s.data)).(data := s.data.(waitingBrandConfirmation := true)))
    else if s.data.waitingBrandConfirmation then Stop(Confirmation(s, env, text))
    else Stop(Classified(s, text))
  }

  /** The whole turn. */
  function CollectRepairTypeStep(s: Snapshot, env: Env, msg: Message): Snapshot
    requires EnvOk(env)
  {
    Run(RepairNext(s, env, msg), env)
  }

  /** Lines 74-83 and their two copies: confirm with the known phone, or ask for it. */
  method GoToPhone(ctx: Conversation, ask: string)
    modifies ctx
    ensures ctx.Snap() == ToPhone(old(ctx.Snap()), ask)
  {
    if Truthy(ctx.data.phone) {
      ctx.SetState(Confirm);
      ConfirmHandler.AskConfirm(ctx);
      return;
    }
    ctx.SetState(CollectPhone);
    ctx.Answer(ask);
  }

  /** Lines 70-115. */
  method AnswerCarQuestion(ctx: Conversation, env: Env, text: string)
    modifies ctx
    ensures ctx.Snap() == Confirmation(old(ctx.Snap()), env, text)
  {
    var ask := PhoneAsk(ctx.data);
    if Lower(text) in YesWords {
      ctx.data := ctx.data.(waitingBrandConfirmation := false);
      GoToPhone(ctx, ask);
      return;
    }
    var newBrand := FindBrand(env.findBrand, text);
    if newBrand.Some? {
      ctx.data := ctx.data.(userCarBrand := newBrand, waitingBrandConfirmation := false);
    } else {
      ctx.data := ctx.data.(waitingBrandConfirmation := false);
    }
    GoToPhone(ctx, ask);
  }

  /** Lines 117-142. */
  method ClassifyReply(ctx: Conversation, text: string)
    modifies ctx
    ensures ctx.Snap() == Classified(old(ctx.Snap()), text)
  {
    var repairType := Classify(Lower(text));
    ghost var s0 := ctx.Snap();
    if repairType.Some? {
      var ask := CanDo + PhoneAsk(ctx.data);
      ctx.data := ctx.data.(slots := ctx.data.slots.(repairType := repairType));
      assert Classified(s0, text) == ToPhone(ctx.Snap(), ask) by {
        assert ctx.Snap() == s0.(data := s0.data.(slots := s0.data.slots.(repairType := Some(repairType.value))));
      }
      GoToPhone(ctx, ask);
    } else {
      ctx.Answer(TypePrompt);
    }
  }

  /** `handle_collect_repair_type` up to its hand-over, which it returns. */
  method RepairTurn(ctx: Conversation, env: Env, msg: Message) returns (next: Next)
    modifies ctx
    ensures next == RepairNext(old(ctx.Snap()), env, msg) && ctx.Snap() == next.snap
  {
    var text := TextOf(msg);
    var textLower := Lower(text);
    if ContainsAny(textLower, PurchaseWords) || TP.IsSearchQuery(text) || Truthy(FindBrand(env.findBrand, text)) {
      ctx.SetState(DetectIntent);
      ctx.data := ctx.data.(intent := None);
      return ToDetect(ctx.Snap(), msg, true);
    }
    if Truthy(ctx.data.slots.repairType) {
      ctx.Answer(CarQuestion(ctx.data));
      ctx.data := ctx.data.(waitingBrandConfirmation := true);
    } else if ctx.data.waitingBrandConfirmation {
      AnswerCarQuestion(ctx, env, text);
    } else {
      ClassifyReply(ctx, text);
    }
    return Stop(ctx.Snap());
  }

  /** `handle_collect_repair_type`. */
  method HandleCollectRepairType(ctx: Conversation, env: Env, msg: Message)
    requires EnvOk(env)
    modifies ctx
    ensures ctx.Snap() == CollectRepairTypeStep(old(ctx.Snap()), env, msg)
  {
    var next := RepairTurn(ctx, env, msg);
    Continue(ctx, env, next);
  }
}

/**
 * `handle_collect_brand` (app/handlers/collect_brand.py): reads the make the
 * user was asked for, stores it as the car wanted (purchases) or the car
 * owned (repair, spares, sale), and moves on to the next question.
 */
module CollectBrandHandler {
  import opened Wrappers
  import opened Text
  import opened States
  import opened Brands
  import opened Catalog
  import opened Dto
  import opened Session

  const NewWords: seq<string> := ["новый", "новая", "новое"]
  const UsedWords: seq<string> := ["б/у", "бу", "б у", "с пробегом", "пробег", "подержанный"]

  const NoBrand: string := "Не удалось определить марку. Пожалуйста, укажите марку и модель автомобиля."
  const BudgetAsk: string := "До какой суммы рассматриваете автомобиль?"
  const RepairTypeAsk: string :=
    "Это слесарный ремонт (двигатель, подвеска, ТО) или кузовной (вмятины, покраска, после ДТП)?"

  const NoticeOpening: string := "Компания \"АвтоЛидер\" не может предложить Вам новый автомобиль "
  const NoticeMiddle: string :=
    ". Зато у нас есть новые автомобили Chery, Jetour и Haval.\nЧто из этого Вас интересует?\nЕсли же Вы всё-таки хотите купить автомобиль "
  const NoticeClosing: string := ", могу организовать Вам звонок из отдела автомобилей с пробегом."

  /** Lines 75-81: the make is not sold new here; the dealer's makes are offered instead. */
  function NonDealerNotice(brand: string): string {
    NoticeOpening + brand + NoticeMiddle + brand + NoticeClosing
  }

  /** Lines 37-46: a new car unless only used-car words are present. */
  function PurchaseType(lower: string): (r: (Intent, string)) {
    if ContainsAny(lower, NewWords) then (BuyNew, "new")
    else if ContainsAny(lower, UsedWords) then (BuyUsed, "used")
    else (BuyNew, "new")
  }

  /** Lines 35-49: with the purchase flag raised, the reply decides new or used and lowers the flag. */
  function WithPurchaseType(d: SessionData, lower: string): SessionData {
    if d.purchaseIntent then
      var (intent, buyType) := PurchaseType(lower);
      d.(intent := Some(intent), slots := d.slots.(buyType := Some(buyType)), purchaseIntent := false)
    else d
  }

  predicate IsBuy(i: Option<Intent>) { i == Some(BuyNew) || i == Some(BuyUsed) }

  /** The intents about a car the user owns. */
  predicate IsOwnCar(i: Option<Intent>) { i == Some(Repair) || i == Some(Spares) || i == Some(Sell) }

  /** Lines 35-59: the record after the reply is read. */
  function Slotted(d: SessionData, found: Option<string>, text: string): SessionData {
    var typed := WithPurchaseType(d, Lower(text));
    var branded :=
      if IsBuy(typed.intent) then typed.(targetBrand := found)
      else if IsOwnCar(typed.intent) then typed.(userCarBrand := found)
      else typed;
    branded.(slots := branded.slots.(rawModel := Some(text)))
  }

  /** Lines 68-81: the make is kept as the one not sold here, and the dealer's makes are offered. */
  function OfferDealerMakes(t: Snapshot, brand: string): Snapshot {
    Say(Goto(t.(data := t.data.(nonDealerBrand := Some(brand))), NonDealerChoice), NonDealerNotice(brand))
  }

  /** Lines 62-88. */
  function BuyRoute(t: Snapshot, found: Option<string>): Snapshot {
    if found.None? then Say(t, NoBrand)
    else if t.data.intent == Some(BuyNew) && found.value !in DealerBrands then OfferDealerMakes(t, found.value)
    else if !GivenInt(t.data.slots.budgetMax) then Say(Goto(t, CollectSpecs), BudgetAsk)
    else AskForPhone(t)
  }

  /** Lines 90-110. */
  function ServiceRoute(t: Snapshot, found: Option<string>): Snapshot {
    if found.None? then Say(t, NoBrand)
    else if t.data.intent == Some(Repair) && !Truthy(t.data.slots.repairType) then
      Say(Goto(t, CollectRepairType), RepairTypeAsk)
    else AskForPhone(t)
  }

  /** Lines 61-110: other intents get no reply and no transition. */
  function Route(t: Snapshot, found: Option<string>): Snapshot {
    if IsBuy(t.data.intent) then BuyRoute(t, found)
    else if IsOwnCar(t.data.intent) then ServiceRoute(t, found)
    else t
  }

  /** One turn in `collect_brand`. */
  function CollectBrandStep(s: Snapshot, env: Env, msg: Message): Snapshot {
    var text := TextOf(msg);
    var found := FindBrand(env.findBrand, text);
    Route(s.(data := Slotted(s.data, found, text)), found)
  }

  /** Lines 33-46: the purchase type read from the reply while the purchase flag is raised. */
  method ReadPurchaseType(data: SessionData, textLower: string) returns (typed: SessionData)
    ensures typed == WithPurchaseType(data, textLower)
  {
    typed := data;
    if data.purchaseIntent {
      var intent: Intent;
      var buyType: string;
      if ContainsAny(textLower, NewWords) {
        intent, buyType := BuyNew, "new";
      } else if ContainsAny(textLower, UsedWords) {
        intent, buyType := BuyUsed, "used";
      } else {
        intent, buyType := BuyNew, "new";
      }
      typed := data.(intent := Some(intent), slots := data.slots.(buyType := Some(buyType)), purchaseIntent := false);
    }
  }

  /** Lines 24-59. */
  method SlotBrand(ctx: Conversation, found: Option<string>, text: string)
    modifies ctx
    ensures ctx.Snap() == old(ctx.Snap()).(data := Slotted(old(ctx.data), found, text))
  {
    var data := ReadPurchaseType(ctx.data, Lower(text));
    var intent := data.intent;
    if intent == Some(BuyNew) || intent == Some(BuyUsed) {
      data := data.(targetBrand := found);
    } else if intent == Some(Repair) || intent == Some(Spares) || intent == Some(Sell) {
      data := data.(userCarBrand := found);
    }
    data := data.(slots := data.slots.(rawModel := Some(text)));
    ctx.data := data;
  }

  /** Lines 68-81. */
  method OfferDealers(ctx: Conversation, brand: string)
    modifies ctx
    ensures ctx.Snap() == OfferDealerMakes(old(ctx.Snap()), brand)
  {
    ctx.data := ctx.data.(nonDealerBrand := Some(brand));
    ctx.SetState(NonDealerChoice);
    ctx.Answer(NonDealerNotice(brand));
  }

  /** Lines 62-88. */
  method RouteBuy(ctx: Conversation, foundBrand: Option<string>)
    modifies ctx
    ensures ctx.Snap() == BuyRoute(old(ctx.Snap()), foundBrand)
  {
    if foundBrand.None? {
      ctx.Answer(NoBrand);
      return;
    }
    if ctx.data.intent == Some(BuyNew) && foundBrand.value !in DealerBrands {
      OfferDealers(ctx, foundBrand.value);
    } else if !GivenInt(ctx.data.slots.budgetMax) {
      ctx.SetState(CollectSpecs);
      ctx.Answer(BudgetAsk);
    } else {
      RequestPhone(ctx);
    }
  }

  /** Lines 90-110. */
  method RouteService(ctx: Conversation, foundBrand: Option<string>)
    modifies ctx
    ensures ctx.Snap() == ServiceRoute(old(ctx.Snap()), foundBrand)
  {
    if foundBrand.None? {
      ctx.Answer(NoBrand);
      return;
    }
    if ctx.data.intent == Some(Repair) && !Truthy(ctx.data.slots.repairType) {
      ctx.SetState(CollectRepairType);
      ctx.Answer(RepairTypeAsk);
    } else {
      RequestPhone(ctx);
    }
  }

  /** `handle_collect_brand`. */
  method HandleCollectBrand(ctx: Conversation, env: Env, msg: Message)
    modifies ctx
    ensures ctx.Snap() == CollectBrandStep(old(ctx.Snap()), env, msg)
  {
    var text := TextOf(msg);
    var foundBrand := FindBrand(env.findBrand, text);
    SlotBrand(ctx, foundBrand, text);
    var intent := ctx.data.intent;
    if intent == Some(BuyNew) || intent == Some(BuyUsed) {
      RouteBuy(ctx, foundBrand);
    } else if intent == Some(Repair) || intent == Some(Spares) || intent == Some(Sell) {
      RouteService(ctx, foundBrand);
    }
  }
}

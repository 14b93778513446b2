/** What one turn in `collect_brand` stores and where it leads. */
module CollectBrandFacts {
  import opened Wrappers
  import opened Text
  import opened States
  import opened Brands
  import opened Catalog
  import opened Dto
  import opened Session
  import opened CollectBrandHandler

  /** The intents the handler answers. */
  predicate Handled(i: Option<Intent>) { IsBuy(i) || IsOwnCar(i) }

  /** With the purchase flag raised the intent becomes a purchase, used only on used-car words alone; the flag is lowered. */
  lemma PurchaseFlagDecides(d: SessionData, lower: string)
    requires d.purchaseIntent
    ensures var r := WithPurchaseType(d, lower);
      && !r.purchaseIntent
      && IsBuy(r.intent)
      && (r.intent == Some(BuyUsed) <==> !ContainsAny(lower, NewWords) && ContainsAny(lower, UsedWords))
      && (r.slots.buyType == Some("used") <==> r.intent == Some(BuyUsed))
      && (r.slots.buyType == Some("new") <==> r.intent == Some(BuyNew))
      && r == d.(intent := r.intent, slots := d.slots.(buyType := r.slots.buyType), purchaseIntent := false)
  {
  }

  /** Without the flag the intent and the buy type are kept. */
  lemma NoFlagKeepsIntent(d: SessionData, lower: string)
    requires !d.purchaseIntent
    ensures WithPurchaseType(d, lower) == d
  {
  }

  /**
   * The make found, even none, becomes the car wanted for a purchase and the
   * car owned for repair, spares and sale; the reply is always kept as the raw
   * model, and nothing else but the purchase type changes.
   */
  lemma {:induction false} BrandSlotting(d: SessionData, found: Option<string>, text: string)
    ensures var typed := WithPurchaseType(d, Lower(text));
      var r := Slotted(d, found, text);
      && r.slots.rawModel == Some(text)
      && r.intent == typed.intent
      && (IsBuy(r.intent) ==> r.targetBrand == found && r.userCarBrand == d.userCarBrand)
      && (IsOwnCar(r.intent) ==> r.userCarBrand == found && r.targetBrand == d.targetBrand)
      && (!Handled(r.intent) ==> r.userCarBrand == d.userCarBrand && r.targetBrand == d.targetBrand)
      && r.(slots := typed.slots, targetBrand := d.targetBrand, userCarBrand := d.userCarBrand) == typed
  {
    var typed := WithPurchaseType(d, Lower(text));
    if d.purchaseIntent {
      PurchaseFlagDecides(d, Lower(text));
    } else {
      NoFlagKeepsIntent(d, Lower(text));
    }
    assert typed.targetBrand == d.targetBrand && typed.userCarBrand == d.userCarBrand;
  }

  /** Without a make the handler keeps the state and asks again, for every intent it answers. */
  lemma MissingBrandStays(t: Snapshot, found: Option<string>)
    requires Handled(t.data.intent) && found.None?
    ensures Route(t, found) == Say(t, NoBrand)
  {
  }

  /** A new car of a make not sold here: the make is noted and the dealer's makes are offered. */
  lemma BuyOtherMake(t: Snapshot, brand: string)
    requires t.data.intent == Some(BuyNew) && brand !in DealerBrands
    ensures var r := Route(t, Some(brand));
      && r.state == Some(NonDealerChoice)
      && r.data == t.data.(nonDealerBrand := Some(brand))
      && r.outbox == t.outbox + [ToUser(NonDealerNotice(brand))]
  {
  }

  /** A dealer make, or a used car: the budget is asked for unless known, then the phone. */
  lemma BuyDealerOrUsed(t: Snapshot, brand: string)
    requires IsBuy(t.data.intent) && (t.data.intent == Some(BuyUsed) || brand in DealerBrands)
    ensures var r := Route(t, Some(brand));
      && r.data == t.data
      && (!GivenInt(t.data.slots.budgetMax) ==> r == Say(Goto(t, CollectSpecs), BudgetAsk))
      && (GivenInt(t.data.slots.budgetMax) ==> r == AskForPhone(t))
  {
  }

  /** Repair without a repair type asks for it; repair with one, spares and sale ask for the phone. */
  lemma ServiceRouting(t: Snapshot, brand: string)
    requires IsOwnCar(t.data.intent)
    ensures var r := Route(t, Some(brand));
      && r.data == t.data
      && (t.data.intent == Some(Repair) && !Truthy(t.data.slots.repairType) ==> r.state == Some(CollectRepairType))
      && (t.data.intent != Some(Repair) || Truthy(t.data.slots.repairType) ==> r == AskForPhone(t))
  {
    assert Route(t, Some(brand)) == ServiceRoute(t, Some(brand));
  }

  /** Other intents: no reply and no transition, only the stored record. */
  lemma {:induction false} OtherIntentSilent(s: Snapshot, env: Env, msg: Message)
    requires !Handled(Slotted(s.data, FindBrand(env.findBrand, TextOf(msg)), TextOf(msg)).intent)
    ensures var r := CollectBrandStep(s, env, msg);
      r.state == s.state && r.outbox == s.outbox
  {
  }

  /** The notice names the make it cannot offer. */
  lemma {:induction false} NoticeNamesMake(brand: string)
    ensures Contains(NonDealerNotice(brand), brand)
  {
    assert NonDealerNotice(brand) == NoticeOpening + brand + (NoticeMiddle + brand + NoticeClosing);
    ContainsMiddle(NoticeOpening, brand, NoticeMiddle + brand + NoticeClosing);
  }

  /** In every case the turn leaves the conversation in one of the states the handler can choose, or where it was. */
  lemma {:induction false} NextStates(s: Snapshot, env: Env, msg: Message)
    ensures CollectBrandStep(s, env, msg).state in
      {s.state, Some(NonDealerChoice), Some(CollectSpecs), Some(CollectRepairType), Some(CollectPhone)}
  {
  }
}

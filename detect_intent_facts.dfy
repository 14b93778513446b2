/**
 * What `handle_detect_intent` guarantees: the service pre-scan, the
 * shortcuts it blocks, the corrections of the classifier's result, the
 * record stored and the state each intent leads to.
 */
module DetectIntentFacts {
  import opened Wrappers
  import opened Text
  import opened Dto
  import opened States
  import opened Brands
  import opened Session
  import opened LlmRouter
  import opened DetectIntentHandler
  import Scan
  import ConfirmHandler
  import ResponseHelpers

  /** The pre-scan fires exactly when a service keyword occurs as a substring or "то" occurs as a whole word. */
  lemma ServiceScanIff(lower: string)
    ensures ServiceScan(lower) <==>
      (exists k | 0 <= k < |ServicePartsKeywords| :: Contains(lower, ServicePartsKeywords[k])) ||
      (exists i | 0 <= i <= |lower| :: Scan.WordAt(lower, "то", i))
  {
    ContainsAnyIff(lower, ServicePartsKeywords);
  }

  /** While the pre-scan fires, no shortcut runs: the turn goes straight to classification. */
  lemma ServiceSkipsShortcuts(s: Snapshot, env: Env, msg: Message)
    requires ServiceScan(Lower(TextOf(msg)))
    ensures ShortcutStage(s, env, msg, true).None?
    ensures TurnOutcome(s, env, msg) == ClassifiedStep(s, env, msg, true)
  {
  }

  /** Without the pre-scan the shortcuts run in order: a named model, a dealer search, a purchase word, a search query. */
  lemma ShortcutOrder(s: Snapshot, env: Env, msg: Message)
    requires !ServiceScan(Lower(TextOf(msg)))
    ensures DirectModelStage(s, env, TextOf(msg)).Some? ==>
      TurnOutcome(s, env, msg) == DirectModelStage(s, env, TextOf(msg)).value
    ensures DirectModelStage(s, env, TextOf(msg)).None? && SmartSearchStage(s, env, msg).Some? ==>
      TurnOutcome(s, env, msg) == SmartSearchStage(s, env, msg).value
    ensures (DirectModelStage(s, env, TextOf(msg)).None? && SmartSearchStage(s, env, msg).None? &&
             PurchaseStage(s, env, msg).Some?) ==>
      TurnOutcome(s, env, msg) == PurchaseStage(s, env, msg).value
    ensures (DirectModelStage(s, env, TextOf(msg)).None? && SmartSearchStage(s, env, msg).None? &&
             PurchaseStage(s, env, msg).None? && SearchQuery(TextOf(msg))) ==>
      TurnOutcome(s, env, msg) == SearchQueryStage(s, env, msg).value
  {
  }

  /** A fired pre-scan makes the corrected intent repair with medium confidence, whatever the earlier rules decided. */
  lemma ServiceForcesRepair(r: RouterResult, find: BrandFinder, text: string, d: SessionData)
    ensures Refine(r, find, text, d, true).intent == Repair
    ensures Refine(r, find, text, d, true).confidence == Medium
  {
  }

  /** A turn that ends without a hand-over is exactly its outcome's snapshot. */
  lemma FinishDone(s: Snapshot, env: Env, msg: Message)
    requires EnvOk(env)
    requires TurnOutcome(s, env, msg).Done?
    ensures DetectIntentStep(s, env, msg) == TurnOutcome(s, env, msg).snap
  {
  }

  /** The service branch keeps the record and asks for the brand or the phone, or shows the summary. */
  lemma ServiceStepKeepsRecord(t: Snapshot, c: RouterResult)
    ensures ServiceStep(t, c).data == t.data
    ensures ServiceStep(t, c).state in {Some(CollectBrand), Some(CollectPhone), Some(ConfirmFinal)}
  {
  }

  /** A turn whose pre-scan fired ends without a hand-over, with intent repair stored, asking for the brand or the phone, or confirming. */
  lemma {:induction false} ServiceTurn(s: Snapshot, env: Env, msg: Message)
    requires ServiceScan(Lower(TextOf(msg)))
    ensures TurnOutcome(s, env, msg).Done?
    ensures TurnOutcome(s, env, msg).snap.data.intent == Some(Repair)
    ensures TurnOutcome(s, env, msg).snap.state in {Some(CollectBrand), Some(CollectPhone), Some(ConfirmFinal)}
  {
    ServiceSkipsShortcuts(s, env, msg);
    var r := Classified(s, env, TextOf(msg), true);
    ServiceForcesRepair(ClassifyText(env.llm(TextOf(msg)), env.decode), env.findBrand, TextOf(msg), s.data);
    var c := Carried(r, s.data);
    var t := s.(data := Stored(s.data, r));
    assert ClassifiedStep(s, env, msg, true) == BranchStep(t, env, msg, c);
    assert c.intent == Repair;
    assert c.intent != Other && !IsBuy(c.intent) && IsService(c.intent);
    assert BranchStep(t, env, msg, c) == Done(ServiceStep(t, c));
    ServiceStepKeepsRecord(t, c);
    assert t.data.intent == Some(Repair);
  }

  /** A dealer brand with a purchase word: a new-car purchase of that brand, the other brand cleared, and the budget question. */
  lemma DealerPurchase(s: Snapshot, env: Env, msg: Message)
    requires IsDealer(FindBrand(env.findBrand, TextOf(msg)))
    requires ContainsAny(Lower(TextOf(msg)), PurchaseTriggers)
    ensures PurchaseStage(s, env, msg).Some? && PurchaseStage(s, env, msg).value.Done?
    ensures PurchaseStage(s, env, msg).value.snap.state == Some(CollectSpecs)
    ensures PurchaseStage(s, env, msg).value.snap.data ==
      s.data.(intent := Some(BuyNew), targetBrand := FindBrand(env.findBrand, TextOf(msg)),
              nonDealerBrand := None, nonDealerNoticeSent := false)
    ensures PurchaseStage(s, env, msg).value.snap.outbox == s.outbox + [ToUser(BudgetQuestion)]
  {
  }

  /** Another brand with a purchase word: the search runs on a record naming that brand with its notice still due. */
  lemma NonDealerPurchase(s: Snapshot, env: Env, msg: Message)
    requires IsNonDealer(FindBrand(env.findBrand, TextOf(msg)))
    requires ContainsAny(Lower(TextOf(msg)), PurchaseTriggers)
    ensures var b := FindBrand(env.findBrand, TextOf(msg));
      var d := s.data.(intent := Some(BuyNew), targetBrand := b, nonDealerBrand := b, nonDealerNoticeSent := false);
      PurchaseStage(s, env, msg) == Some(HandOver(s.(data := d, state := Some(NonDealerChoice))))
  {
  }

  /** The notice flag before a search: re-armed by a new other brand, kept for the same one, cleared with the brand otherwise. */
  lemma SearchNoticeFlag(d: SessionData, found: Option<string>)
    ensures IsNonDealer(found) && found != d.nonDealerBrand ==>
      SearchNotice(d, found) == d.(nonDealerBrand := found, nonDealerNoticeSent := false)
    ensures IsNonDealer(found) && found == d.nonDealerBrand ==> SearchNotice(d, found) == d
    ensures !IsNonDealer(found) ==> SearchNotice(d, found) == d.(nonDealerBrand := None, nonDealerNoticeSent := false)
  {
  }

  /** Bodywork words, or a replaced body part, give bodywork; otherwise locksmith words, "то" or a replacement give locksmith work. */
  lemma RepairSubtype(slots: Slots, lower: string)
    ensures var bodywork := ContainsAny(lower, BodyworkKeywords) || ReplacesBodyPart(lower);
      var locksmith := ContainsAny(lower, LocksmithKeywords) || Scan.HasWord(lower, "то") ||
        Contains(lower, "замен") || Contains(lower, "помен");
      RepairSlots(slots, lower).repairType ==
        (if bodywork then Some("кузовной") else if locksmith then Some("слесарный") else slots.repairType)
    ensures var r := RepairSlots(slots, lower);
      r.model == slots.model && r.rawModel == slots.rawModel && r.body == slots.body &&
      r.drive == slots.drive && r.budgetMax == slots.budgetMax && r.buyType == slots.buyType
  {
  }

  /**
   * A brand is stored only when the result names one, so a request without a
   * brand keeps the stored car; a service request then branches on that car.
   */
  lemma BrandCarryOver(d: SessionData, r: RouterResult)
    ensures Stored(d, r).userCarBrand == (if Truthy(r.userCarBrand) then r.userCarBrand else d.userCarBrand)
    ensures Stored(d, r).targetBrand == (if Truthy(r.targetBrand) then r.targetBrand else d.targetBrand)
    ensures IsService(r.intent) ==> (Truthy(Carried(r, d).userCarBrand) <==> Truthy(Stored(d, r).userCarBrand))
    ensures IsService(r.intent) && !Truthy(r.userCarBrand) && Truthy(d.userCarBrand) ==>
      Carried(r, d).userCarBrand == d.userCarBrand
    ensures Carried(r, d).intent == r.intent && Carried(r, d).targetBrand == r.targetBrand
  {
  }

  /** The stored record takes the result's intent, confidence and slots, and keeps the phone, the name and the counters. */
  lemma StoredRecord(d: SessionData, r: RouterResult)
    ensures Stored(d, r).intent == Some(r.intent) && Stored(d, r).confidence == Some(r.confidence)
    ensures Stored(d, r).slots == r.slots
    ensures Stored(d, r).phone == d.phone && Stored(d, r).name == d.name
    ensures Stored(d, r).retryCount == d.retryCount && Stored(d, r).nonDealerBrand == d.nonDealerBrand
  {
  }

  /** "Other" with a brand in the text asks "buy or service?" and stays, leaving the retry counter alone. */
  lemma OtherWithBrand(s: Snapshot, env: Env, msg: Message, r: RouterResult)
    requires FindBrand(env.findBrand, TextOf(msg)).Some?
    ensures var b := FindBrand(env.findBrand, TextOf(msg));
      OtherStep(s, env, msg, r) ==
        s.(data := s.data.(userCarBrand := b, targetBrand := b), outbox := s.outbox + [ToUser(AmbiguousQuestion(b.value))])
  {
  }

  /** Before the third attempt "other" counts the attempt and asks again, staying or asking which car. */
  lemma OtherRetry(s: Snapshot, env: Env, msg: Message, r: RouterResult)
    requires FindBrand(env.findBrand, TextOf(msg)).None?
    requires s.data.retryCount < 2
    ensures OtherStep(s, env, msg, r).data.retryCount == s.data.retryCount + 1
    ensures OtherStep(s, env, msg, r).state in {s.state, Some(CollectBrand)}
    ensures |OtherStep(s, env, msg, r).outbox| == |s.outbox| + 1
  {
    assert OtherStep(s, env, msg, r) == AskAgainStep(Counted(s), env, msg, r);
    AskAgainShape(Counted(s), env, msg, r);
  }

  /** Asking again adds one message, keeps the record's counter, and stays or asks which car. */
  lemma AskAgainShape(t: Snapshot, env: Env, msg: Message, r: RouterResult)
    ensures AskAgainStep(t, env, msg, r).data.retryCount == t.data.retryCount
    ensures AskAgainStep(t, env, msg, r).state in {t.state, Some(CollectBrand)}
    ensures |AskAgainStep(t, env, msg, r).outbox| == |t.outbox| + 1
  {
    var text := TextOf(msg);
    if ContainsAny(Lower(text), OwnershipTriggers) {
      var owned := OrElse(r.userCarBrand, FindBrand(env.findBrand, text));
      assert AskAgainStep(t, env, msg, r) == OwnershipStep(t, owned);
      if !Truthy(owned) {
        SayAddsOne(Goto(t, CollectBrand), OwnBrandQuestion);
      } else {
        SayAddsOne(t.(data := t.data.(userCarBrand := owned)), OwnedQuestion(owned.value));
      }
    } else {
      SayAddsOne(t, RephraseAsk);
    }
  }

  /** A reply adds one message and changes nothing else. */
  lemma SayAddsOne(t: Snapshot, text: string)
    ensures Say(t, text).data == t.data && Say(t, text).state == t.state
    ensures |Say(t, text).outbox| == |t.outbox| + 1
  {
  }

  /** On the third attempt with a known phone the lead is saved and posted where that works, and the dialogue ends. */
  lemma OtherGiveUpWithPhone(s: Snapshot, env: Env, msg: Message, r: RouterResult)
    requires FindBrand(env.findBrand, TextOf(msg)).None?
    requires s.data.retryCount >= 2 && Truthy(s.data.phone)
    ensures var t := OtherStep(s, env, msg, r);
      var lead := FallbackLead(s.data, msg.userId);
      t.state == Some(Finished) && t.data == s.data &&
      (env.saveOk <==> LeadSaved(lead) in t.outbox[|s.outbox|..]) &&
      (env.sendOk <==> ToGroup(GroupOther, ResponseHelpers.FormatLeadMessage(lead)) in t.outbox[|s.outbox|..])
  {
    var lead := FallbackLead(s.data, msg.userId);
    var t := OtherStep(s, env, msg, r);
    assert t == ExhaustedStep(s, env, msg);
    assert t == GiveUpStep(s, env, msg);
    var tail := ConfirmHandler.SavedLead(lead, env.saveOk) + FallbackPost(lead, env.sendOk) + [ToUser(SorryCallback)];
    assert t.outbox == s.outbox + tail;
    assert t.outbox[|s.outbox|..] == tail;
    GiveUpTail(lead, env.saveOk, env.sendOk);
  }

  /** What giving up sends: the saved lead only when saving works, the group post only when sending works. */
  lemma GiveUpTail(lead: LeadDTO, saveOk: bool, sendOk: bool)
    ensures var tail := ConfirmHandler.SavedLead(lead, saveOk) + FallbackPost(lead, sendOk) + [ToUser(SorryCallback)];
      (saveOk <==> LeadSaved(lead) in tail) &&
      (sendOk <==> ToGroup(GroupOther, ResponseHelpers.FormatLeadMessage(lead)) in tail)
  {
    var saved := ConfirmHandler.SavedLead(lead, saveOk);
    var post := FallbackPost(lead, sendOk);
    var tail := saved + post + [ToUser(SorryCallback)];
    assert forall o | o in tail :: o in saved || o in post || o == ToUser(SorryCallback);
    if saveOk {
      assert tail[0] == LeadSaved(lead);
    }
    if sendOk {
      assert tail[|saved|] == ToGroup(GroupOther, ResponseHelpers.FormatLeadMessage(lead));
    }
  }

  /** On the third attempt without a phone the intent becomes fallback_other and the phone is asked for. */
  lemma OtherGiveUpWithoutPhone(s: Snapshot, env: Env, msg: Message, r: RouterResult)
    requires FindBrand(env.findBrand, TextOf(msg)).None?
    requires s.data.retryCount >= 2 && !Truthy(s.data.phone)
    ensures OtherStep(s, env, msg, r).state == Some(CollectPhone)
    ensures OtherStep(s, env, msg, r).data == s.data.(intent := Some(FallbackOther))
  {
    assert OtherStep(s, env, msg, r) == ExhaustedStep(s, env, msg);
  }

  /** A new-car purchase of a dealer brand asks for the budget. */
  lemma BuyDealerAsksBudget(s: Snapshot, env: Env, msg: Message, r: RouterResult)
    requires r.intent == BuyNew && IsDealer(r.targetBrand)
    ensures BranchStep(s, env, msg, r) == Done(Say(Goto(s, CollectSpecs), BudgetQuestion))
  {
    assert BranchStep(s, env, msg, r) == BuyStep(s, msg, r);
    assert !IsNonDealer(r.targetBrand) && Truthy(r.targetBrand);
  }

  /** A service request without a car brand asks for the car. */
  lemma ServiceAsksCar(s: Snapshot, env: Env, msg: Message, r: RouterResult)
    requires IsService(r.intent) && !Truthy(r.userCarBrand)
    ensures BranchStep(s, env, msg, r) == Done(Say(Goto(s, CollectBrand), CarModelQuestion))
  {
    assert BranchStep(s, env, msg, r) == Done(ServiceStep(s, r));
  }

  /** The phone step: the summary with a known phone, else the phone request. */
  lemma PhoneOrConfirmState(s: Snapshot, ask: string)
    ensures PhoneOrConfirm(s, ask).state == (if Truthy(s.data.phone) then Some(ConfirmFinal) else Some(CollectPhone))
  {
    if Truthy(s.data.phone) {
      assert PhoneOrConfirm(s, ask) == ConfirmHandler.AskConfirmStep(Goto(s, Confirm));
    }
  }

  /** Accounting goes to the phone step. */
  lemma AccountingPhoneStep(s: Snapshot, env: Env, msg: Message, r: RouterResult)
    requires r.intent == Accounting
    ensures BranchStep(s, env, msg, r) == Done(PhoneOrConfirm(s, DetectIntentHandler.PhoneAsk))
  {
    assert r.intent != Other && !IsBuy(r.intent) && !IsService(r.intent);
  }

  /** A service request with a car brand goes to the phone step, with the service wording. */
  lemma ServicePhoneStep(s: Snapshot, env: Env, msg: Message, r: RouterResult)
    requires IsService(r.intent) && Truthy(r.userCarBrand)
    ensures BranchStep(s, env, msg, r) == Done(PhoneOrConfirm(s, ServicePhoneAsk(NameOr(s.data))))
  {
    assert r.intent != Other && !IsBuy(r.intent);
  }

  /** A used-car purchase with a brand goes to the phone step. */
  lemma UsedBuyPhoneStep(s: Snapshot, env: Env, msg: Message, r: RouterResult)
    requires r.intent == BuyUsed && Truthy(r.targetBrand)
    ensures BranchStep(s, env, msg, r) == Done(PhoneOrConfirm(s, DetectIntentHandler.PhoneAsk))
  {
    assert r.intent != Other && IsBuy(r.intent);
    assert BranchStep(s, env, msg, r) == BuyStep(s, msg, r);
  }

  /** A new-car purchase of another brand hands over to the search with that brand's notice due. */
  lemma BuyNonDealerHandsOver(s: Snapshot, env: Env, msg: Message, r: RouterResult)
    requires r.intent == BuyNew && IsNonDealer(r.targetBrand)
    ensures BranchStep(s, env, msg, r) ==
      SearchOn(s, s.data.(nonDealerBrand := r.targetBrand, nonDealerNoticeSent := false))
  {
  }

  /** A purchase with no brand at all, whose user has a stored car, proposes that car's brand. */
  lemma BuyProposesOwnBrand(s: Snapshot, env: Env, msg: Message, r: RouterResult)
    requires IsBuy(r.intent) && !Truthy(r.targetBrand) && Truthy(s.data.userCarBrand)
    ensures BranchStep(s, env, msg, r) ==
      Done(Say(Goto(s.(data := s.data.(targetBrand := s.data.userCarBrand)), CollectBrand), SameBrandQuestion(s.data.userCarBrand.value)))
  {
  }
}

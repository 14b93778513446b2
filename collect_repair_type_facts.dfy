/** What one turn in `collect_repair_type` does, case by case. */
module CollectRepairTypeFacts {
  import opened Wrappers
  import opened Text
  import opened States
  import opened Brands
  import opened Session
  import opened Handoff
  import opened CollectRepairTypeHandler

  /** The states a turn that ends in this handler can leave the conversation in. */
  predicate OnToPhone(t: Snapshot) {
    (Truthy(t.data.phone) && t.state == Some(ConfirmFinal)) || (!Truthy(t.data.phone) && t.state == Some(CollectPhone))
  }

  /** `ToPhone` shows the summary exactly when a phone is known, and changes no data. */
  lemma ToPhoneState(t: Snapshot, ask: string)
    ensures ToPhone(t, ask).data == t.data
    ensures OnToPhone(ToPhone(t, ask))
    ensures !Truthy(t.data.phone) ==> ToPhone(t, ask).outbox == t.outbox + [ToUser(ask)]
  {
  }

  /** A purchase after all: the intent is dropped and the message goes to the intent handler, with the catalogue. */
  lemma EscapeDropsIntent(s: Snapshot, env: Env, msg: Message)
    requires Escapes(env, TextOf(msg))
    ensures var n := RepairNext(s, env, msg);
      && n == ToDetect(n.snap, msg, true)
      && n.snap.data == s.data.(intent := None)
      && n.snap.state == Some(DetectIntent)
      && n.snap.outbox == s.outbox
  {
  }

  /**
   * A repair type known already: the handler asks about the car, raises the
   * waiting flag and stays, whatever the reply says. So the yes/no answer is
   * read only when no repair type is stored.
   */
  lemma PresetTypeAsksAboutCar(s: Snapshot, env: Env, msg: Message)
    requires !Escapes(env, TextOf(msg)) && Truthy(s.data.slots.repairType)
    ensures var n := RepairNext(s, env, msg);
      && n.Stop?
      && n.snap.data == s.data.(waitingBrandConfirmation := true)
      && n.snap.state == s.state
      && n.snap.outbox == s.outbox + [ToUser(CarQuestion(s.data))]
  {
  }

  /** The car question names the stored car, or asks for the make when none is stored. */
  lemma CarQuestionNamesCar(d: SessionData)
    ensures Truthy(d.userCarBrand) ==> Contains(CarQuestion(d), d.userCarBrand.value)
    ensures Contains(CarQuestion(d), Details(d.slots))
  {
    var head := "Понял, Вас интересует ";
    var tail := if Truthy(d.userCarBrand) then " Ваш автомобиль - " + d.userCarBrand.value + "?"
                else " Какой у Вас автомобиль (марка)?";
    assert CarQuestion(d) == head + Details(d.slots) + ("." + tail);
    ContainsMiddle(head, Details(d.slots), "." + tail);
    if Truthy(d.userCarBrand) {
      var b := d.userCarBrand.value;
      assert CarQuestion(d) == head + Details(d.slots) + ". Ваш автомобиль - " + b + "?";
      ContainsMiddle(head + Details(d.slots) + ". Ваш автомобиль - ", b, "?");
    }
  }

  /**
   * The yes/no answer always clears the waiting flag, replaces the car make
   * by a brand named in a non-"yes" reply, keeps everything else and goes on
   * to the phone.
   */
  lemma ConfirmationClearsFlag(s: Snapshot, env: Env, msg: Message)
    requires !Escapes(env, TextOf(msg)) && !Truthy(s.data.slots.repairType) && s.data.waitingBrandConfirmation
    ensures var n := RepairNext(s, env, msg);
      var brand := FindBrand(env.findBrand, TextOf(msg));
      && n.Stop?
      && !n.snap.data.waitingBrandConfirmation
      && (Lower(TextOf(msg)) !in YesWords && brand.Some? ==> n.snap.data.userCarBrand == brand)
      && (Lower(TextOf(msg)) in YesWords || brand.None? ==> n.snap.data.userCarBrand == s.data.userCarBrand)
      && n.snap.data.(waitingBrandConfirmation := true, userCarBrand := s.data.userCarBrand) == s.data
      && OnToPhone(n.snap)
  {
    var cleared := s.data.(waitingBrandConfirmation := false);
    var text := TextOf(msg);
    if Lower(text) in YesWords {
      ToPhoneState(s.(data := cleared), PhoneAsk(s.data));
    } else if FindBrand(env.findBrand, text).Some? {
      ToPhoneState(s.(data := cleared.(userCarBrand := FindBrand(env.findBrand, text))), PhoneAsk(s.data));
    } else {
      ToPhoneState(s.(data := cleared), PhoneAsk(s.data));
    }
  }

  /** Mechanical words are tested first: a reply with words of both kinds is mechanical. */
  lemma LocksmithFirst(lower: string)
    requires ContainsAny(lower, LocksmithWords)
    ensures Classify(lower) == Some(Locksmith)
  {
  }

  /** A reply is bodywork exactly when it has a bodywork word and no mechanical word. */
  lemma BodyworkIff(lower: string)
    ensures Classify(lower) == Some(Bodywork) <==> ContainsAny(lower, BodyworkWords) && !ContainsAny(lower, LocksmithWords)
  {
  }

  /**
   * The mechanical word "то" is matched anywhere in the reply, so a reply
   * with "что" in it ("вмятины, что делать?") is mechanical.
   */
  lemma {:induction false} WhatReadsAsService(lower: string)
    requires Contains(lower, "что")
    ensures Classify(lower) == Some(Locksmith)
  {
    ContainsIff(lower, "что");
    var j: nat :| OccursAt(lower, "что", j);
    assert lower[j + 1..j + 3] == lower[j..j + 3][1..] == "то";
    assert OccursAt(lower, "то", j + 1);
    ContainsIff(lower, "то");
    assert LocksmithWords[3] == "то";
    ContainsAnyIff(lower, LocksmithWords);
  }

  /** A classified reply stores the repair type and goes on to the phone; nothing else changes. */
  lemma ClassifiedGoesOn(s: Snapshot, env: Env, msg: Message)
    requires !Escapes(env, TextOf(msg)) && !Truthy(s.data.slots.repairType) && !s.data.waitingBrandConfirmation
    requires Classify(Lower(TextOf(msg))).Some?
    ensures var n := RepairNext(s, env, msg);
      && n.Stop?
      && n.snap.data == s.data.(slots := s.data.slots.(repairType := Classify(Lower(TextOf(msg)))))
      && OnToPhone(n.snap)
  {
    var rt := Classify(Lower(TextOf(msg)));
    ToPhoneState(s.(data := s.data.(slots := s.data.slots.(repairType := rt))), CanDo + PhoneAsk(s.data));
  }

  /** An unclassified reply asks for the type again and changes nothing else. */
  lemma UnclassifiedAsksAgain(s: Snapshot, env: Env, msg: Message)
    requires !Escapes(env, TextOf(msg)) && !Truthy(s.data.slots.repairType) && !s.data.waitingBrandConfirmation
    requires Classify(Lower(TextOf(msg))).None?
    ensures RepairNext(s, env, msg) == Stop(Say(s, TypePrompt))
  {
  }

  /** Outside the escape hatch, the turn never touches the intent, the phone or the name. */
  lemma {:induction false} KeepsIntentAndContacts(s: Snapshot, env: Env, msg: Message)
    requires !Escapes(env, TextOf(msg))
    ensures var d := RepairNext(s, env, msg).snap.data;
      d.intent == s.data.intent && d.phone == s.data.phone && d.name == s.data.name
  {
    if Truthy(s.data.slots.repairType) {
      PresetTypeAsksAboutCar(s, env, msg);
    } else if s.data.waitingBrandConfirmation {
      ConfirmationClearsFlag(s, env, msg);
    } else if Classify(Lower(TextOf(msg))).Some? {
      ClassifiedGoesOn(s, env, msg);
    } else {
      UnclassifiedAsksAgain(s, env, msg);
    }
  }
}

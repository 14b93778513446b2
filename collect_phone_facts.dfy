/** What one turn in `collect_phone` does, case by case, and what it never does. */
module CollectPhoneFacts {
  import opened Wrappers
  import opened Text
  import opened States
  import opened Brands
  import opened Session
  import opened Handoff
  import opened Phone
  import opened CollectPhoneHandler
  import ConfirmHandler

  /** The stored form of a phone: "+7" and ten digits. */
  predicate PhoneForm(p: string) { |p| == 12 && p[..2] == "+7" && AllDigits(p[1..]) }

  /** The turn counts a failed attempt. */
  predicate CountsAttempt(s: Snapshot, msg: Message) {
    PhoneNext(s, msg).Stop? && PhoneNext(s, msg).snap.data.phoneAttempts == s.data.phoneAttempts + 1
  }

  /** A shared contact with a recognisable number is stored, the counter reset, and the summary shown. */
  lemma ContactCaptured(s: Snapshot, msg: Message)
    requires msg.contact.Some? && NormalizePhone(msg.contact.value).Some?
    ensures var n := PhoneNext(s, msg);
      && n.Stop?
      && n.snap.data == s.data.(phone := NormalizePhone(msg.contact.value), phoneAttempts := 0)
      && n.snap.state == Some(ConfirmFinal)
      && PhoneForm(n.snap.data.phone.value)
  {
  }

  /** A contact whose number cannot be read changes nothing but the reply; no attempt is counted. */
  lemma ContactUnreadable(s: Snapshot, msg: Message)
    requires msg.contact.Some? && NormalizePhone(msg.contact.value).None?
    ensures PhoneNext(s, msg) == Stop(Say(s, ContactFail))
  {
  }

  /** "I gave it already" confirms with the stored phone, or asks for it; the counter is kept either way. */
  lemma AlreadyGivenPath(s: Snapshot, msg: Message)
    requires msg.contact.None? && AlreadyGiven(TextOf(msg))
    ensures var n := PhoneNext(s, msg);
      && n.Stop?
      && n.snap.data == s.data
      && (Truthy(s.data.phone) ==> n.snap.state == Some(ConfirmFinal))
      && (!Truthy(s.data.phone) ==> n.snap == Say(s, NotFound))
  {
  }

  /** A written phone is stored in its normal form, the counter reset, and the summary shown. */
  lemma TextCaptured(s: Snapshot, msg: Message)
    requires msg.contact.None? && !AlreadyGiven(TextOf(msg)) && NormalizePhone(TextOf(msg)).Some?
    ensures var n := PhoneNext(s, msg);
      && n.Stop?
      && n.snap.data == s.data.(phone := NormalizePhone(TextOf(msg)), phoneAttempts := 0)
      && n.snap.state == Some(ConfirmFinal)
  {
  }

  /** A new request is handed to the intent handler, without the catalogue, with nothing stored or counted. */
  lemma QueryRedirect(s: Snapshot, msg: Message)
    requires msg.contact.None? && !AlreadyGiven(TextOf(msg)) && NormalizePhone(TextOf(msg)).None?
    requires ReadsAsQuery(TextOf(msg))
    ensures PhoneNext(s, msg) == ToDetect(Goto(s, DetectIntent), msg, false)
    ensures DigitCount(TextOf(msg)) < 7
  {
  }

  /** Seven or more digits that still do not make a phone count as a failed attempt, never a new request. */
  lemma DigitsAreAttempts(s: Snapshot, msg: Message)
    requires msg.contact.None? && !AlreadyGiven(TextOf(msg)) && NormalizePhone(TextOf(msg)).None?
    requires DigitCount(TextOf(msg)) >= 7
    ensures CountsAttempt(s, msg)
  {
  }

  /** A failed attempt adds one to the counter; the third gives up and ends the conversation, earlier ones stay. */
  lemma FailedAttempt(s: Snapshot, msg: Message)
    requires msg.contact.None? && !AlreadyGiven(TextOf(msg)) && NormalizePhone(TextOf(msg)).None?
    requires !ReadsAsQuery(TextOf(msg))
    ensures var n := PhoneNext(s, msg);
      && n.Stop?
      && n.snap.data == s.data.(phoneAttempts := s.data.phoneAttempts + 1)
      && (s.data.phoneAttempts + 1 >= 3 ==> n.snap.state == Some(Finished) && n.snap.outbox == s.outbox + [ToUser(GiveUpText)])
      && (s.data.phoneAttempts + 1 < 3 ==> n.snap.state == s.state && n.snap.outbox == s.outbox + [ToUser(FormatAsk)])
  {
  }

  /** Exactly the texts that are neither a phone, nor "I gave it", nor a new request count an attempt. */
  lemma {:induction false} AttemptIff(s: Snapshot, msg: Message)
    ensures CountsAttempt(s, msg) <==>
      msg.contact.None? && !AlreadyGiven(TextOf(msg)) && NormalizePhone(TextOf(msg)).None? && !ReadsAsQuery(TextOf(msg))
  {
    if msg.contact.Some? {
      if NormalizePhone(msg.contact.value).Some? {
        ContactCaptured(s, msg);
      } else {
        ContactUnreadable(s, msg);
      }
    } else if AlreadyGiven(TextOf(msg)) {
      AlreadyGivenPath(s, msg);
    } else if NormalizePhone(TextOf(msg)).Some? {
      TextCaptured(s, msg);
    } else if ReadsAsQuery(TextOf(msg)) {
      QueryRedirect(s, msg);
    } else {
      FailedAttempt(s, msg);
    }
  }

  /**
   * Each turn either keeps the stored phone and keeps the counter or adds one
   * to it, or stores a phone in normal form and resets the counter.
   */
  lemma {:induction false} PhoneAndCounter(s: Snapshot, msg: Message)
    ensures var d := PhoneNext(s, msg).snap.data;
      || (d.phone == s.data.phone && s.data.phoneAttempts <= d.phoneAttempts <= s.data.phoneAttempts + 1)
      || (d.phone.Some? && PhoneForm(d.phone.value) && d.phoneAttempts == 0)
  {
    if msg.contact.Some? {
      if NormalizePhone(msg.contact.value).Some? {
        ContactCaptured(s, msg);
      } else {
        ContactUnreadable(s, msg);
      }
    } else if AlreadyGiven(TextOf(msg)) {
      AlreadyGivenPath(s, msg);
    } else if NormalizePhone(TextOf(msg)).Some? {
      TextCaptured(s, msg);
    } else if ReadsAsQuery(TextOf(msg)) {
      QueryRedirect(s, msg);
    } else {
      FailedAttempt(s, msg);
    }
  }

  /** The letter "ё" alone is not a Russian letter for this handler. */
  lemma YoIsNotRussianLetter()
    ensures !HasRussianLetter("ё")
  {
  }
}

/**
 * `handle_collect_phone` (app/handlers/collect_phone.py): asks for the phone
 * until it can be normalised, then shows the summary for confirmation.
 *
 * A shared contact or a normalisable text stores the phone and resets the
 * attempt counter; "I already gave it" confirms with the stored phone; a
 * text that reads as a new request goes to the intent handler, without the
 * catalogue and the semantic index; anything else counts a failed attempt,
 * and the third one ends the conversation.
 */
module CollectPhoneHandler {
  import opened Wrappers
  import opened Text
  import opened States
  import opened Brands
  import opened Session
  import opened Handoff
  import opened Phone
  import ConfirmHandler
  import DI = DetectIntentHandler

  const ActionWords: seq<string> :=
    ["оставлял", "давал", "писал", "уже есть", "знаете", "сообщал", "оставил", "дал", "написал"]
  const ObjectWords: seq<string> := ["номер", "телефон", "контакт"]
  const QueryWords: seq<string> := ["цена", "стоит", "наличи", "купит", "авто", "машин", "haval", "chery",
                                    "jetour", "tiggo", "pro", "max", "кроссовер", "привод"]

  /** Failed attempts after which the conversation ends. */
  const MaxAttempts: nat := 3

  const ContactFail: string := "Не удалось распознать номер из контакта."
  const NotFound: string := "Извините, не нашел Ваш номер в текущей сессии. Пожалуйста, напишите его."
  const GiveUpText: string :=
    "Не удалось распознать номер телефона. Пожалуйста, напишите /start для начала нового запроса."
  const FormatAsk: string :=
    "Не удалось распознать номер телефона. Пожалуйста, укажите номер в формате +7XXXXXXXXXX или 8XXXXXXXXXX."

  /** `re.search(r'[а-яА-Я]', text)`: the class leaves out "ё" and "Ё". */
  predicate RussianLetter(c: char) { 'а' <= c <= 'я' || 'А' <= c <= 'Я' }

  predicate HasRussianLetter(text: string) { exists j | 0 <= j < |text| :: RussianLetter(text[j]) }

  /** Lines 51-54: the user says the number was given already. */
  predicate AlreadyGiven(text: string) {
    ContainsAny(Lower(text), ActionWords) && (ContainsAny(Lower(text), ObjectWords) || |Tokens(text)| <= 4)
  }

  /** Lines 82-92: fewer than seven digits, and Russian letters, a query word or more than twenty characters. */
  predicate ReadsAsQuery(text: string) {
    DigitCount(text) < 7 && (HasRussianLetter(text) || ContainsAny(Lower(text), QueryWords) || |text| > 20)
  }

  /** A recognised phone: stored, the counter reset, and the summary shown for confirmation. */
  function Captured(s: Snapshot, phone: string): Snapshot {
    ConfirmHandler.AskConfirmStep(Goto(s.(data := s.data.(phone := Some(phone), phoneAttempts := 0)), Confirm))
  }

  /** Lines 100-110: one more failed attempt; the third one ends the conversation. */
  function Failed(s: Snapshot): Snapshot {
    var n := s.data.phoneAttempts + 1;
    var t := s.(data := s.data.(phoneAttempts := n));
    if n >= MaxAttempts then Goto(Say(t, GiveUpText), Finished) else Say(t, FormatAsk)
  }

  /** The reply to a text that is not a shared contact. */
  function TextNext(s: Snapshot, msg: Message): Next {
    var text := TextOf(msg);
    if AlreadyGiven(text) then
      if Truthy(s.data.phone) then Stop(ConfirmHandler.AskConfirmStep(Goto(s, Confirm))) else Stop(Say(s, NotFound))
    else
      match NormalizePhone(text)
      case Some(p) => Stop(Captured(s, p))
      case None => if ReadsAsQuery(text) then ToDetect(Goto(s, DetectIntent), msg, false) else Stop(Failed(s))
  }

  /** One turn in `collect_phone`, up to its hand-over. */
  function PhoneNext(s: Snapshot, msg: Message): Next {
    if msg.contact.Some? then
      match NormalizePhone(msg.contact.value)
      case Some(p) => Stop(Captured(s, p))
      case None => Stop(Say(s, ContactFail))
    else TextNext(s, msg)
  }

  /** The whole turn. */
  function CollectPhoneStep(s: Snapshot, env: Env, msg: Message): Snapshot
    requires EnvOk(env)
  {
    Run(PhoneNext(s, msg), env)
  }

  /** Lines 31-40 and 71-78: store the phone and ask for confirmation. */
  method StorePhone(ctx: Conversation, normalized: string)
    modifies ctx
    ensures ctx.Snap() == Captured(old(ctx.Snap()), normalized)
  {
    var data := ctx.data;
    data := data.(phone := Some(normalized), phoneAttempts := 0);
    ctx.data := data;
    ctx.SetState(Confirm);
    ConfirmHandler.AskConfirm(ctx);
  }

  /** Lines 100-110. */
  method CountFailure(ctx: Conversation)
    modifies ctx
    ensures ctx.Snap() == Failed(old(ctx.Snap()))
  {
    var phoneAttempts := ctx.data.phoneAttempts;
    phoneAttempts := phoneAttempts + 1;
    ctx.data := ctx.data.(phoneAttempts := phoneAttempts);
    if phoneAttempts >= MaxAttempts {
      ctx.Answer(GiveUpText);
      ctx.SetState(Finished);
    } else {
      ctx.Answer(FormatAsk);
    }
  }

  /** `handle_collect_phone` up to its hand-over, which it returns. */
  method PhoneTurn(ctx: Conversation, msg: Message) returns (next: Next)
    modifies ctx
    ensures next == PhoneNext(old(ctx.Snap()), msg) && ctx.Snap() == next.snap
  {
    if msg.contact.Some? {
      var normalized := NormalizePhone(msg.contact.value);
      if normalized.Some? {
        StorePhone(ctx, normalized.value);
      } else {
        ctx.Answer(ContactFail);
      }
      return Stop(ctx.Snap());
    }
    var text := TextOf(msg);
    var textLower := Lower(text);
    var hasActionKw := ContainsAny(textLower, ActionWords);
    var hasObjectKw := ContainsAny(textLower, ObjectWords);
    if hasActionKw && (hasObjectKw || |Tokens(text)| <= 4) {
      if Truthy(ctx.data.phone) {
        ctx.SetState(Confirm);
        ConfirmHandler.AskConfirm(ctx);
      } else {
        ctx.Answer(NotFound);
      }
      return Stop(ctx.Snap());
    }
    var normalized := NormalizePhone(text);
    if normalized.Some? {
      StorePhone(ctx, normalized.value);
      return Stop(ctx.Snap());
    }
    var isPhoneAttempt := false;
    if DigitCount(text) >= 7 {
      isPhoneAttempt := true;
    }
    var hasCyrillic := HasRussianLetter(text);
    var hasKeyword := ContainsAny(textLower, QueryWords);
    if !isPhoneAttempt && (hasCyrillic || hasKeyword || |text| > 20) {
      ctx.SetState(DetectIntent);
      return ToDetect(ctx.Snap(), msg, false);
    }
    CountFailure(ctx);
    return Stop(ctx.Snap());
  }

  /** `handle_collect_phone`. */
  method HandleCollectPhone(ctx: Conversation, env: Env, msg: Message)
    requires EnvOk(env)
    modifies ctx
    ensures ctx.Snap() == CollectPhoneStep(old(ctx.Snap()), env, msg)
  {
    var next := PhoneTurn(ctx, msg);
    Continue(ctx, env, next);
  }
}

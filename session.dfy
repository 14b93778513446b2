/**
 * The per-user conversation record of the FSM storage, the inputs of one
 * turn, and what a turn sends out.
 *
 * A handler sees the record as the `data` dictionary of its `FSMContext`;
 * here it is a datatype with one field per key the handlers read or write,
 * an absent key being `None` (or the default the handlers read it with).
 * The FSM context itself, with its current state and the messages sent so
 * far, is the `Conversation` object the handlers update in place.
 */
module Session {
  import opened Wrappers
  import opened Dto
  import opened States
  import opened Brands
  import opened Catalog
  import opened SemanticSearch
  import opened LlmRouter

  /** The keys of the conversation record. */
  datatype SessionData = SessionData(
    name: Option<string>,
    intent: Option<Intent>,
    confidence: Option<Confidence>,
    targetBrand: Option<string>,
    userCarBrand: Option<string>,
    slots: Slots,
    phone: Option<string>,
    retryCount: nat,
    specsRetry: nat,
    phoneAttempts: nat,
    nonDealerBrand: Option<string>,
    nonDealerNoticeSent: bool,
    lastSearchResults: seq<Car>,
    lastVariantIdx: Option<int>,
    lastPriceMax: Option<nat>,
    waitingBrandConfirmation: bool,
    purchaseIntent: bool)

  /** The record after `state.clear()`. */
  const EmptyData: SessionData :=
    SessionData(None, None, None, None, None, NoSlots, None, 0, 0, 0, None, false, [], None, None, false, false)

  /** What a turn sends: an answer to the user, a post to a manager group, or a lead written to the lead file. */
  datatype Output =
    | ToUser(text: string)
    | ToGroup(chatId: string, text: string)
    | LeadSaved(lead: LeadDTO)

  /** An incoming message: the sender, the text (absent for a shared contact) and the shared contact's number. */
  datatype Message = Message(userId: int, text: Option<string>, contact: Option<string>)

  /** `message.text or ""`. */
  function TextOf(msg: Message): string { msg.text.GetOr("") }

  /** `message.model_copy(update={"text": text})`. */
  function WithText(msg: Message, text: string): Message { msg.(text := Some(text)) }

  /**
   * What a handler receives besides the message: the brand matcher, the
   * optional catalogue and semantic index, the rows the vector index returns
   * for this turn's query and whether embedding that query succeeds, the
   * language model's raw reply and the decoder of that reply, and whether
   * writing the lead file and posting to a group succeed this turn.
   */
  datatype Env = Env(
    findBrand: BrandFinder,
    catalog: Option<CarCatalog>,
    semantic: Option<SemanticCarIndex>,
    hits: seq<nat>,
    embedOk: bool,
    llm: string -> LlmReply,
    decode: string -> Option<RouterResult>,
    saveOk: bool,
    sendOk: bool)

  /** The vector index only returns rows it holds. */
  predicate EnvOk(env: Env) {
    env.semantic.Some? ==> forall k | 0 <= k < |env.hits| :: env.hits[k] < |env.semantic.value.cars|
  }

  /** `collect_phone` forwards to `detect_intent` without the catalogue and the semantic index. */
  function WithoutCatalog(env: Env): (r: Env)
    ensures EnvOk(r)
  {
    env.(catalog := None, semantic := None)
  }

  /** The whole observable state of a conversation. */
  datatype Snapshot = Snapshot(data: SessionData, state: Option<ConversationState>, outbox: seq<Output>)

  /** `message.answer(text)`. */
  function Say(s: Snapshot, text: string): Snapshot { s.(outbox := s.outbox + [ToUser(text)]) }

  /** `state.set_state(st)`. */
  function Goto(s: Snapshot, st: ConversationState): Snapshot { s.(state := Some(st)) }

  /** `data.get("name", "Клиент")`. */
  function NameOr(d: SessionData): string { d.name.GetOr("Клиент") }

  /** The phone request several handlers send before moving to `collect_phone`. */
  function PhoneAsk(d: SessionData): string {
    NameOr(d) + ", оставьте, пожалуйста, Ваш номер телефона, в течение 10 минут Вам перезвонит специалист."
  }

  /** Python's `a or b` on optional strings. */
  function OrElse(a: Option<string>, b: Option<string>): (r: Option<string>)
    ensures Truthy(r) <==> Truthy(a) || Truthy(b)
  {
    if Truthy(a) then a else b
  }

  /** `set_state(collect_phone)` and the phone request. */
  function AskForPhone(s: Snapshot): Snapshot { Say(Goto(s, CollectPhone), PhoneAsk(s.data)) }

  /** The brand a summary or a lead names: the target brand, else the user's own car. */
  function LeadBrand(d: SessionData): Option<string> { OrElse(d.targetBrand, d.userCarBrand) }

  /** The FSM context of one user. */
  class Conversation {
    var data: SessionData
    var state: Option<ConversationState>
    var outbox: seq<Output>

    /** A user the bot has not seen: no state, an empty record, nothing sent. */
    constructor ()
      ensures data == EmptyData && state == None && outbox == []
    {
      data := EmptyData;
      state := None;
      outbox := [];
    }

    function Snap(): Snapshot
      reads this
    {
      Snapshot(data, state, outbox)
    }

    /** `message.answer(text)`: one more message to the user, nothing else changes. */
    method Answer(text: string)
      modifies this
      ensures Snap() == Say(old(Snap()), text)
    {
      outbox := outbox + [ToUser(text)];
    }

    /** `state.set_state(st)`. */
    method SetState(st: ConversationState)
      modifies this
      ensures Snap() == Goto(old(Snap()), st)
    {
      state := Some(st);
    }

    /** Records an outbound post or lead. */
    method Send(out: Output)
      modifies this
      ensures Snap() == old(Snap()).(outbox := old(outbox) + [out])
    {
      outbox := outbox + [out];
    }
  }

  method RequestPhone(ctx: Conversation)
    modifies ctx
    ensures ctx.Snap() == AskForPhone(old(ctx.Snap()))
  {
    var ask := PhoneAsk(ctx.data);
    ctx.SetState(CollectPhone);
    ctx.Answer(ask);
  }
}

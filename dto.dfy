/**
 * The classifier result and the lead record exchanged between the handlers
 * (app/models/dto.py), and the slot dictionary they carry.
 */
module Dto {
  import opened Wrappers

  /** The intents a conversation can have; `FallbackOther` is set by the bot itself, never by the classifier. */
  datatype Intent = BuyNew | BuyUsed | Sell | Repair | Spares | Accounting | Other | FallbackOther

  /** The intents the classifier's schema admits. */
  type RouterIntent = i: Intent | i != FallbackOther witness Other

  /** The string the session and the lead store for an intent. */
  function IntentName(i: Intent): (r: string)
    ensures r != []
  {
    match i
    case BuyNew => "buy_new"
    case BuyUsed => "buy_used"
    case Sell => "sell"
    case Repair => "repair"
    case Spares => "spares"
    case Accounting => "accounting"
    case Other => "other"
    case FallbackOther => "fallback_other"
  }

  /** Distinct intents are stored under distinct names. */
  lemma IntentNameInjective(i: Intent, j: Intent)
    ensures IntentName(i) == IntentName(j) <==> i == j
  {
  }

  datatype Confidence = High | Medium | Low

  /** The keys of the `slots` dictionary that the handlers read or write. */
  datatype SlotKey = ModelSlot | RawModelSlot | BodySlot | DriveSlot | BudgetSlot | RepairTypeSlot | RepairDetailsSlot | BuyTypeSlot

  /**
   * The `slots` dictionary. A field is `None` when its key is absent and
   * when the key holds null, which the classifier's schema allows;
   * `nulls` holds the keys present with the value null. It matters only
   * while the field has no value: a key that is written holds that value.
   */
  datatype Slots = Slots(
    model: Option<string>,
    rawModel: Option<string>,
    body: Option<string>,
    drive: Option<string>,
    budgetMax: Option<int>,
    repairType: Option<string>,
    repairDetails: Option<string>,
    buyType: Option<string>,
    nulls: set<SlotKey>)

  const NoSlots: Slots := Slots(None, None, None, None, None, None, None, None, {})

  /** The key holds a value other than null. */
  predicate HasValue(slots: Slots, k: SlotKey) {
    match k
    case ModelSlot => slots.model.Some?
    case RawModelSlot => slots.rawModel.Some?
    case BodySlot => slots.body.Some?
    case DriveSlot => slots.drive.Some?
    case BudgetSlot => slots.budgetMax.Some?
    case RepairTypeSlot => slots.repairType.Some?
    case RepairDetailsSlot => slots.repairDetails.Some?
    case BuyTypeSlot => slots.buyType.Some?
  }

  /** The key holds null. */
  predicate IsNull(slots: Slots, k: SlotKey) { !HasValue(slots, k) && k in slots.nulls }

  /** `k in slots`: the key is in the dictionary, with a value or with null. */
  predicate Present(slots: Slots, k: SlotKey) { HasValue(slots, k) || k in slots.nulls }

  /** The classifier's answer: an intent, the two brands, slots and a confidence. */
  datatype RouterResult = RouterResult(
    intent: RouterIntent,
    targetBrand: Option<string>,
    userCarBrand: Option<string>,
    slots: Slots,
    confidence: Confidence)

  /** The result used whenever classification fails: intent other, confidence low, everything else empty. */
  const FallbackResult: RouterResult := RouterResult(Other, None, None, NoSlots, Low)

  /** A saved lead. `intent` is the stored intent name, as in the source's `str` field. */
  datatype LeadDTO = LeadDTO(
    userId: int,
    name: string,
    intent: string,
    brand: Option<string>,
    phone: string,
    slots: Slots)
}

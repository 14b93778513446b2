/**
 * `handle_collect_specs` (app/handlers/collect_specs.py): collects the budget
 * and, optionally, the body type and the drive of a new car, then starts the
 * catalogue search with a query built from them.
 *
 * A question or a brand leaves the handler for the intent handler before the
 * record is touched. Otherwise the budget is parsed (skip words, "N млн", or
 * the first number above 100 000 once digit groups are joined), the retry
 * counter is updated, body and drive are read from keyword tables, and the
 * turn either asks for what is missing or hands a synthesised query to the
 * search handler. `SpecsNext` is the turn up to that hand-over;
 * `HandleCollectSpecs` is the handler, proved to perform exactly it.
 */
module CollectSpecsHandler {
  import opened Wrappers
  import opened Text
  import opened States
  import opened Brands
  import opened Catalog
  import opened Session
  import opened Handoff
  import Scan
  import TP = TextParsers
  import NDC = NonDealerChoiceHandler
  import DI = DetectIntentHandler

  const QuestionWords: seq<string> := ["какой", "какие", "есть ли", "мощн", "дорог", "дешев", "почем", "сколько"]
  const SkipWords: seq<string> :=
    ["неважно", "не важно", "любой", "любая", "нет", "пропусти", "далее", "без разницы", "потом", "не знаю"]
  const MillionWords: seq<string> := ["млн", "миллион"]
  const AnyBodyWords: seq<string> := ["можно разные", "любой", "не важно", "без разницы", "все равно"]

  /** The body table of this handler has the same categories and keywords, in the same order, as `parse_car_specs`. */
  const SpecsBodyTable: TP.Table := TP.BodyTable
  const SpecsDriveTable: TP.Table := [
    ("4x4", ["4x4", "полный", "полный привод", "awd", "4wd"]),
    ("передний", ["передний", "передний привод", "fwd"]),
    ("задний", ["задний", "задний привод", "rwd"])]

  /** The budget that stands for "any price". */
  const Unlimited: nat := 100000000

  const BodyQuestion: string :=
    "Нужен какой-то определённый тип кузова (кроссовер, седан, пикап) или можно разные варианты?"
  const BudgetAsk: string := "Пожалуйста, укажите бюджет (например, 'до 2.5 млн' или '2500000 рублей')."

  // ---------------------------------------------------------------------
  // Escape hatch
  // ---------------------------------------------------------------------

  /** A question without digits, or any brand: the message is a new request, not an answer. */
  predicate Escapes(env: Env, text: string) {
    (ContainsAny(Lower(text), QuestionWords) && DigitCount(text) == 0) || Truthy(FindBrand(env.findBrand, text))
  }

  // ---------------------------------------------------------------------
  // Budget parsing
  // ---------------------------------------------------------------------

  /** A number `\d+(?:[.,]\d+)?`: its integer part and the digits after the separator read as a number. */
  datatype Decimal = Decimal(whole: nat, frac: nat)

  /** `float(n) > 100_000`, decided exactly. */
  predicate Large(n: Decimal) { n.whole > 100000 || (n.whole == 100000 && n.frac > 0) }

  /** `(?<=\d)\s(?=\d)` matches at `i`: a single space between two digits. */
  predicate GapAt(s: string, i: nat) {
    0 < i && i + 1 < |s| && IsSpace(s[i]) && IsDigit(s[i - 1]) && IsDigit(s[i + 1])
  }

  function JoinGroupsFrom(s: string, i: nat): (r: string)
    requires i <= |s|
    ensures |r| <= |s| - i
    decreases |s| - i
  {
    if i == |s| then [] else (if GapAt(s, i) then [] else [s[i]]) + JoinGroupsFrom(s, i + 1)
  }

  /** `re.sub(r'(?<=\d)\s(?=\d)', '', text)`: "5 000 000" becomes "5000000". */
  function JoinGroups(s: string): (r: string)
    ensures |r| <= |s|
  {
    JoinGroupsFrom(s, 0)
  }

  /** `re.findall(r'\d+(?:[.,]\d+)?', s[i..])`, each match split at its separator. */
  function DecimalsFrom(s: string, i: nat): (r: seq<Decimal>)
    requires i <= |s|
    decreases |s| - i
  {
    if i == |s| then []
    else
      var l := Scan.DigitRun(s, i);
      if l == 0 then DecimalsFrom(s, i + 1)
      else
        var e := Scan.DecimalEnd(s, i, l);
        var frac := if e == i + l then 0 else Scan.NumberAt(s, i + l + 1, e);
        [Decimal(Scan.NumberAt(s, i, i + l), frac)] + DecimalsFrom(s, e)
  }

  /** The first number above 100 000, truncated to its integer part. */
  function FirstLarge(ns: seq<Decimal>): (r: Option<nat>)
    ensures r.Some? <==> exists k | 0 <= k < |ns| :: Large(ns[k])
    ensures r.Some? ==> r.value >= 100000 && exists k | 0 <= k < |ns| ::
      Large(ns[k]) && r.value == ns[k].whole && forall m | 0 <= m < k :: !Large(ns[m])
  {
    if ns == [] then None
    else if Large(ns[0]) then Some(ns[0].whole)
    else
      var r := FirstLarge(ns[1..]);
      assert forall k | 1 <= k < |ns| :: ns[k] == ns[1..][k - 1];
      if r.Some? then
        ghost var k :| 0 <= k < |ns[1..]| && Large(ns[1..][k]) && r.value == ns[1..][k].whole
                      && forall m | 0 <= m < k :: !Large(ns[1..][m]);
        assert Large(ns[k + 1]) && forall m | 0 <= m < k + 1 :: !Large(ns[m]);
        r
      else r
  }

  /** The value of the leftmost "N млн" / "N миллион", in either case, scaled by a million. */
  function MillionsMatch(text: string): Option<nat> {
    Scan.First(TP.MillionsScan(Lower(text), MillionWords), |Lower(text)|)
  }

  /** The position of that leftmost amount. */
  function MillionsPos(text: string): Option<nat> {
    Scan.Search(TP.MillionsScan(Lower(text), MillionWords), 0, |Lower(text)|)
  }

  /** The float `budget` of line 68 is non-zero, so Python finds it truthy. */
  predicate MillionsTruthy(text: string) {
    MillionsPos(text).Some? && Scan.FloatNonZeroAt(Lower(text), MillionsPos(text).value)
  }

  /**
   * The budget parsed from `text` as `int(budget)`, `None` when Python's
   * `budget` is falsy: a skip word gives the unlimited budget, else a
   * million amount decides (a zero float giving none), else the first number
   * above 100 000 once digit groups are joined.
   */
  function ParseBudget(text: string): (r: Option<nat>)
    ensures r.Some? && r.value == 0 ==>
      !ContainsAny(Lower(text), SkipWords) && MillionsMatch(text) == r && MillionsTruthy(text)
  {
    if ContainsAny(Lower(text), SkipWords) then Some(Unlimited)
    else
      match MillionsMatch(text)
      case Some(v) => if MillionsTruthy(text) then Some(v) else None
      case None => FirstLarge(DecimalsFrom(JoinGroups(text), 0))
  }

  /** The loop over the found numbers that stops at the first one above 100 000. */
  method FirstLargeNumber(numbers: seq<Decimal>) returns (budget: Option<nat>)
    ensures budget == FirstLarge(numbers)
  {
    budget := None;
    var k := 0;
    while k < |numbers|
      invariant 0 <= k <= |numbers|
      invariant FirstLarge(numbers) == FirstLarge(numbers[k..])
    {
      assert numbers[k..][1..] == numbers[k + 1..];
      if Large(numbers[k]) {
        budget := Some(numbers[k].whole);
        break;
      }
      k := k + 1;
    }
    if k == |numbers| {
      assert numbers[k..] == [];
    }
  }

  /** Lines 59-77: the budget, step by step. */
  method ReadBudget(text: string) returns (budget: Option<nat>)
    ensures budget == ParseBudget(text)
  {
    budget := None;
    if ContainsAny(Lower(text), SkipWords) {
      budget := Some(Unlimited);
    }
    if budget.None? {
      var m := MillionsMatch(text);
      if m.Some? {
        if MillionsTruthy(text) {
          budget := m;
        }
      } else {
        var cleanText := JoinGroups(text);
        var numbers := DecimalsFrom(cleanText, 0);
        budget := FirstLargeNumber(numbers);
      }
    }
  }

  // ---------------------------------------------------------------------
  // The record after the answer
  // ---------------------------------------------------------------------

  /** The retry counter as the handler reads it: one more when no budget was found and none is stored. */
  function RetryCount(d: SessionData, budget: Option<nat>): nat {
    if budget.None? && !GivenInt(d.slots.budgetMax) then d.specsRetry + 1 else d.specsRetry
  }

  /** Lines 82-89: a found budget is stored and resets the counter; a failed first budget counts an attempt. */
  function WithBudget(d: SessionData, budget: Option<nat>): (r: SessionData)
    ensures budget.Some? ==> r.slots.budgetMax == Some(budget.value as int) && r.specsRetry == 0
    ensures budget.None? ==> r.slots == d.slots && r.specsRetry == RetryCount(d, budget)
    ensures r == d.(slots := r.slots, specsRetry := r.specsRetry)
  {
    if budget.Some? then d.(slots := d.slots.(budgetMax := Some(budget.value)), specsRetry := 0)
    else d.(specsRetry := RetryCount(d, budget))
  }

  /** The body named by `lower`: an indifference phrase gives "любой", else the first body category. */
  function BodyChoice(lower: string): (r: Option<string>)
    ensures ContainsAny(lower, AnyBodyWords) ==> r == Some("любой")
    ensures !ContainsAny(lower, AnyBodyWords) ==> r == TP.Category(lower, SpecsBodyTable)
  {
    if ContainsAny(lower, AnyBodyWords) then Some("любой") else TP.Category(lower, SpecsBodyTable)
  }

  /** A new value replaces the slot's old one; no new value keeps it. */
  function Update(found: Option<string>, current: Option<string>): (r: Option<string>)
    ensures found.Some? ==> r == found
    ensures found.None? ==> r == current
  {
    if found.Some? then found else current
  }

  /** Lines 103-122: body and drive read from the answer. */
  function WithSpecs(d: SessionData, lower: string): SessionData {
    d.(slots := d.slots.(body := Update(BodyChoice(lower), d.slots.body),
                         drive := Update(TP.Category(lower, SpecsDriveTable), d.slots.drive)))
  }

  /** The record saved at line 126. */
  function Parsed(d: SessionData, text: string): SessionData {
    WithSpecs(WithBudget(d, ParseBudget(text)), Lower(text))
  }

  /** Lines 133-137: after two failed attempts, no budget means any budget. */
  predicate DefaultsBudget(d: SessionData, text: string) {
    Parsed(d, text).slots.budgetMax.None? && RetryCount(d, ParseBudget(text)) >= 2
  }

  /** The record at the end of the parsing part of the turn. */
  function Collected(d: SessionData, text: string): (r: SessionData)
    ensures DefaultsBudget(d, text) ==> r.slots == Parsed(d, text).slots.(budgetMax := Some(Unlimited))
    ensures !DefaultsBudget(d, text) ==> r == Parsed(d, text)
    ensures r == Parsed(d, text).(slots := r.slots)
  {
    var p := Parsed(d, text);
    if DefaultsBudget(d, text) then p.(slots := p.slots.(budgetMax := Some(Unlimited))) else p
  }

  // ---------------------------------------------------------------------
  // The synthesised query
  // ---------------------------------------------------------------------

  function BodyPart(d: SessionData): seq<string> {
    if Truthy(d.slots.body) && d.slots.body.value != "любой" then [d.slots.body.value] else []
  }

  function DrivePart(d: SessionData): seq<string> {
    if Truthy(d.slots.drive) then [d.slots.drive.value + " привод"] else []
  }

  function BudgetPart(d: SessionData): seq<string> {
    if GivenInt(d.slots.budgetMax) && d.slots.budgetMax.value < Unlimited
    then ["до " + IntToString(d.slots.budgetMax.value) + " рублей"] else []
  }

  function BrandPart(d: SessionData): seq<string> {
    if Truthy(d.targetBrand) then [d.targetBrand.value] else []
  }

  /** The parts of the query: body unless "любой", drive, budget below the unlimited one, target brand. */
  function SearchParts(d: SessionData): seq<string> {
    BodyPart(d) + DrivePart(d) + BudgetPart(d) + BrandPart(d)
  }

  function SearchText(d: SessionData): string { Join(SearchParts(d), " ") }

  /** Lines 151-164: the query, part by part. */
  method BuildSearchText(d: SessionData) returns (q: string)
    ensures q == SearchText(d)
  {
    var parts: seq<string> := [];
    if Truthy(d.slots.body) && d.slots.body.value != "любой" {
      parts := parts + [d.slots.body.value];
    }
    assert parts == BodyPart(d);
    if Truthy(d.slots.drive) {
      parts := parts + [d.slots.drive.value + " привод"];
    }
    assert parts == BodyPart(d) + DrivePart(d);
    if GivenInt(d.slots.budgetMax) && d.slots.budgetMax.value < Unlimited {
      parts := parts + ["до " + IntToString(d.slots.budgetMax.value) + " рублей"];
    }
    assert parts == BodyPart(d) + DrivePart(d) + BudgetPart(d);
    if Truthy(d.targetBrand) {
      parts := parts + [d.targetBrand.value];
    }
    assert parts == SearchParts(d);
    q := Join(parts, " ");
  }

  // ---------------------------------------------------------------------
  // The turn
  // ---------------------------------------------------------------------

  /** Lines 139-180: ask for the budget, ask for the body, or search. */
  function NextStep(t: Snapshot, msg: Message): Next {
    if t.data.slots.budgetMax.None? then Stop(Say(t, BudgetAsk))
    else if t.data.slots.body.None? then Stop(Say(t, BodyQuestion))
    else ToSearch(Goto(t, NonDealerChoice), WithText(msg, SearchText(t.data)))
  }

  /** One turn in `collect_specs`, up to its hand-over. */
  function SpecsNext(s: Snapshot, env: Env, msg: Message): Next {
    var text := TextOf(msg);
    if Escapes(env, text) then ToDetect(Goto(s, DetectIntent), msg, true)
    else NextStep(s.(data := Collected(s.data, text)), msg)
  }

  /** The whole turn. */
  function CollectSpecsStep(s: Snapshot, env: Env, msg: Message): Snapshot
    requires EnvOk(env)
  {
    Run(SpecsNext(s, env, msg), env)
  }

  /** Lines 52-126: budget, counter, body and drive, saved. */
  method ParseAnswer(ctx: Conversation, text: string) returns (retryCount: nat)
    modifies ctx
    ensures ctx.Snap() == old(ctx.Snap()).(data := Parsed(old(ctx.data), text))
    ensures retryCount == RetryCount(old(ctx.data), ParseBudget(text))
  {
    var data := ctx.data;
    var slots := data.slots;
    var budget := ReadBudget(text);
    retryCount := data.specsRetry;
    if budget.Some? {
      slots := slots.(budgetMax := Some(budget.value));
      data := data.(specsRetry := 0);
    } else if !GivenInt(slots.budgetMax) {
      retryCount := retryCount + 1;
      data := data.(specsRetry := retryCount);
    }
    data := data.(slots := slots);
    assert data == WithBudget(old(ctx.data), budget);
    data := ReadSpecs(data, Lower(text));
    ctx.data := data;
  }

  /** Lines 103-122. */
  method ReadSpecs(d: SessionData, textLower: string) returns (r: SessionData)
    ensures r == WithSpecs(d, textLower)
  {
    var slots := d.slots;
    if ContainsAny(textLower, AnyBodyWords) {
      slots := slots.(body := Some("любой"));
    } else {
      var body := TP.FirstCategory(textLower, SpecsBodyTable);
      if body.Some? {
        slots := slots.(body := body);
      }
    }
    var drive := TP.FirstCategory(textLower, SpecsDriveTable);
    if drive.Some? {
      slots := slots.(drive := drive);
    }
    r := d.(slots := slots);
  }

  /** `handle_collect_specs` up to its hand-over, which it returns. */
  method SpecsTurn(ctx: Conversation, env: Env, msg: Message) returns (next: Next)
    modifies ctx
    ensures next == SpecsNext(old(ctx.Snap()), env, msg) && ctx.Snap() == next.snap
  {
    var text := TextOf(msg);
    var isQuestion := ContainsAny(Lower(text), QuestionWords);
    var foundBrand := FindBrand(env.findBrand, text);
    if (isQuestion && DigitCount(text) == 0) || Truthy(foundBrand) {
      ctx.SetState(DetectIntent);
      return ToDetect(ctx.Snap(), msg, true);
    }
    var retryCount := ParseAnswer(ctx, text);
    var hasBudget := ctx.data.slots.budgetMax.Some?;
    if !hasBudget && retryCount >= 2 {
      ctx.data := ctx.data.(slots := ctx.data.slots.(budgetMax := Some(Unlimited)));
      hasBudget := true;
    }
    assert ctx.Snap() == old(ctx.Snap()).(data := Collected(old(ctx.data), text));
    if hasBudget {
      if ctx.data.slots.body.None? {
        ctx.Answer(BodyQuestion);
        return Stop(ctx.Snap());
      }
      var searchText := BuildSearchText(ctx.data);
      ctx.SetState(NonDealerChoice);
      return ToSearch(ctx.Snap(), WithText(msg, searchText));
    }
    ctx.Answer(BudgetAsk);
    return Stop(ctx.Snap());
  }

  /** `handle_collect_specs`. */
  method HandleCollectSpecs(ctx: Conversation, env: Env, msg: Message)
    requires EnvOk(env)
    modifies ctx
    ensures ctx.Snap() == CollectSpecsStep(old(ctx.Snap()), env, msg)
  {
    var next := SpecsTurn(ctx, env, msg);
    Continue(ctx, env, next);
  }
}

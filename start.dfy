/**
 * The greeting handlers of app/handlers/start.py: `/start`, the first reply
 * (a name, possibly followed by a request), and a message after a finished
 * conversation.
 */
module StartHandler {
  import opened Wrappers
  import opened Text
  import opened States
  import opened Brands
  import opened Session
  import opened Handoff
  import TP = TextParsers

  const StartCommand: string := "/start"
  const Welcome: string := "Компания Автолидер приветствует Вас! Как к Вам обращаться?"
  const NamePrompt: string := "Пожалуйста, укажите Ваше имя."
  const MenuQuestion: string := "Что Вас интересует: покупка/продажа авто, ремонт, запчасти, бухгалтерия?"

  const PurchaseWords: seq<string> :=
    ["куп", "покуп", "ищу", "нужен", "интересует", "хочу", "подобрать", "что есть", "можно купить",
     "шиномонтаж", "переобуть", "переобувка", "то ", "то,"]
  const ServiceWords: seq<string> := ["ремонт", "сервис", "запчаст", "шиномонтаж", "переобу", "то "]

  /** The separators tried in turn between a name and a request. */
  const Separators: seq<char> := ['.', '!', '?', '\n', ',', ';', ':']

  /** `_looks_like_query`, lines 75-85. */
  predicate LooksLikeQuery(env: Env, text: string) {
    ContainsAny(Lower(text), PurchaseWords) || TP.IsSearchQuery(text) || TP.IsExpensiveQuery(text)
    || Truthy(FindBrand(env.findBrand, text)) || ContainsAny(Lower(text), ServiceWords)
  }

  /** `a or None` for a stripped part. */
  function NonEmpty(a: string): (r: Option<string>)
    ensures r.Some? <==> a != []
    ensures r.Some? ==> r.value == a
  {
    if a == [] then None else Some(a)
  }

  /**
   * Lines 57-64 for one separator: present, with a non-empty stripped part
   * before its first occurrence, it splits the text there.
   */
  function SplitAt(env: Env, stripped: string, sep: char): Option<(string, Option<string>)> {
    if sep in stripped then
      var i := Find(stripped, sep);
      var namePart := Strip(stripped[..i]);
      var tail := Strip(stripped[i + 1..]);
      if namePart != [] && tail != [] && LooksLikeQuery(env, tail) then Some((namePart, Some(tail)))
      else if namePart != [] then Some((namePart, NonEmpty(tail)))
      else None
    else None
  }

  /** Lines 56-64 from separator `k` on: the first separator that splits the text decides. */
  function SeparatorSplit(env: Env, stripped: string, k: nat): Option<(string, Option<string>)>
    decreases |Separators| - k
  {
    if k >= |Separators| then None
    else
      match SplitAt(env, stripped, Separators[k])
      case Some(r) => Some(r)
      case None => SeparatorSplit(env, stripped, k + 1)
  }

  /**
   * Lines 66-72: `split(maxsplit=1)` of a stripped, non-empty text gives two
   * parts exactly when it has a whitespace character, which ends the first.
   */
  function FirstWordSplit(env: Env, stripped: string): (string, Option<string>) {
    var i := TokenEnd(stripped, 0);
    if i < |stripped| then
      var namePart := Strip(stripped[..i]);
      var tail := Strip(stripped[i..]);
      if namePart != [] && tail != [] && LooksLikeQuery(env, tail) then (namePart, Some(tail))
      else (stripped, None)
    else (stripped, None)
  }

  /** `_split_name_and_query`, lines 50-72. */
  function SplitNameAndQuery(env: Env, text: string): (string, Option<string>) {
    var stripped := Strip(text);
    if stripped == [] then ("", None)
    else match SeparatorSplit(env, stripped, 0)
      case Some(r) => r
      case None => FirstWordSplit(env, stripped)
  }

  /** `_split_name_and_query`, with its loop over the separators. */
  method SplitName(env: Env, text: string) returns (name: string, query: Option<string>)
    ensures (name, query) == SplitNameAndQuery(env, text)
  {
    var stripped := Strip(text);
    if stripped == [] {
      return "", None;
    }
    var k := 0;
    while k < |Separators|
      invariant 0 <= k <= |Separators|
      invariant SeparatorSplit(env, stripped, 0) == SeparatorSplit(env, stripped, k)
    {
      var split := SplitAt(env, stripped, Separators[k]);
      if split.Some? {
        return split.value.0, split.value.1;
      }
      k := k + 1;
    }
    return FirstWordSplit(env, stripped).0, FirstWordSplit(env, stripped).1;
  }

  /** `state.clear()`: no state and an empty record; what was sent stays sent. */
  function Cleared(s: Snapshot): Snapshot { Snapshot(EmptyData, None, s.outbox) }

  /** `cmd_start`, lines 17-27. */
  function StartStep(s: Snapshot): Snapshot { Say(Goto(Cleared(s), Greeting), Welcome) }

  /** `handle_greeting`, lines 88-116, up to its hand-over. */
  function GreetingNext(s: Snapshot, env: Env, msg: Message): Next {
    var (name, query) := SplitNameAndQuery(env, TextOf(msg));
    if Strip(name) == [] then Stop(Say(s, NamePrompt))
    else
      var t := Goto(s.(data := s.data.(name := Some(Strip(name)))), DetectIntent);
      if query.Some? && query.value != [] && LooksLikeQuery(env, query.value) then
        ToDetect(t, WithText(msg, query.value), true)
      else Stop(Say(t, MenuQuestion))
  }

  /** The record a new request starts from: only a truthy name and phone survive. */
  function KeptContacts(d: SessionData): SessionData {
    EmptyData.(name := if Truthy(d.name) then d.name else None, phone := if Truthy(d.phone) then d.phone else None)
  }

  /** `handle_finished`, lines 119-155, up to its hand-over. */
  function FinishedNext(s: Snapshot, msg: Message): Next {
    if msg.text == Some(StartCommand) then Stop(StartStep(s))
    else ToDetect(Snapshot(KeptContacts(s.data), Some(DetectIntent), s.outbox), msg, true)
  }

  function GreetingStep(s: Snapshot, env: Env, msg: Message): Snapshot
    requires EnvOk(env)
  {
    Run(GreetingNext(s, env, msg), env)
  }

  function FinishedStep(s: Snapshot, env: Env, msg: Message): Snapshot
    requires EnvOk(env)
  {
    Run(FinishedNext(s, msg), env)
  }

  /** `state.clear()`. */
  method Clear(ctx: Conversation)
    modifies ctx
    ensures ctx.Snap() == Cleared(old(ctx.Snap()))
  {
    ctx.data := EmptyData;
    ctx.state := None;
  }

  /** `cmd_start`. */
  method CmdStart(ctx: Conversation)
    modifies ctx
    ensures ctx.Snap() == StartStep(old(ctx.Snap()))
  {
    Clear(ctx);
    ctx.SetState(Greeting);
    ctx.Answer(Welcome);
  }

  /** `handle_greeting` up to its hand-over, which it returns. */
  method GreetingTurn(ctx: Conversation, env: Env, msg: Message) returns (next: Next)
    modifies ctx
    ensures next == GreetingNext(old(ctx.Snap()), env, msg) && ctx.Snap() == next.snap
  {
    var name, possibleQuery := SplitName(env, TextOf(msg));
    if Strip(name) == [] {
      ctx.Answer(NamePrompt);
      return Stop(ctx.Snap());
    }
    ctx.data := ctx.data.(name := Some(Strip(name)));
    ctx.SetState(DetectIntent);
    if possibleQuery.Some? && possibleQuery.value != [] && LooksLikeQuery(env, possibleQuery.value) {
      return ToDetect(ctx.Snap(), WithText(msg, possibleQuery.value), true);
    }
    ctx.Answer(MenuQuestion);
    return Stop(ctx.Snap());
  }

  /** `handle_greeting`. */
  method HandleGreeting(ctx: Conversation, env: Env, msg: Message)
    requires EnvOk(env)
    modifies ctx
    ensures ctx.Snap() == GreetingStep(old(ctx.Snap()), env, msg)
  {
    var next := GreetingTurn(ctx, env, msg);
    Continue(ctx, env, next);
  }

  /** `handle_finished` up to its hand-over, which it returns. */
  method FinishedTurn(ctx: Conversation, msg: Message) returns (next: Next)
    modifies ctx
    ensures next == FinishedNext(old(ctx.Snap()), msg) && ctx.Snap() == next.snap
  {
    if msg.text == Some(StartCommand) {
      CmdStart(ctx);
      return Stop(ctx.Snap());
    }
    var oldName := ctx.data.name;
    var oldPhone := ctx.data.phone;
    Clear(ctx);
    var newData := EmptyData;
    if Truthy(oldName) {
      newData := newData.(name := oldName);
    }
    if Truthy(oldPhone) {
      newData := newData.(phone := oldPhone);
    }
    if newData != EmptyData {
      ctx.data := newData;
    }
    ctx.SetState(DetectIntent);
    return ToDetect(ctx.Snap(), msg, true);
  }

  /** `handle_finished`. */
  method HandleFinished(ctx: Conversation, env: Env, msg: Message)
    requires EnvOk(env)
    modifies ctx
    ensures ctx.Snap() == FinishedStep(old(ctx.Snap()), env, msg)
  {
    var next := FinishedTurn(ctx, msg);
    Continue(ctx, env, next);
  }
}

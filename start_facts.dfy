/** Facts about the greeting handlers and the name/request split. */
module StartFacts {
  import opened Wrappers
  import opened Text
  import opened States
  import opened Brands
  import opened Session
  import opened Handoff
  import opened StartHandler

  // ---------------------------------------------------------------------
  // The split at a separator
  // ---------------------------------------------------------------------

  /** Separator `j` occurs, with a non-empty stripped part before its first occurrence. */
  predicate SplitsAt(s: string, j: nat)
    requires j < |Separators|
  {
    Separators[j] in s && Strip(s[..Find(s, Separators[j])]) != []
  }

  /** The name and the request a split at separator `j` gives. */
  function PartsAt(s: string, j: nat): (string, Option<string>)
    requires j < |Separators| && SplitsAt(s, j)
  {
    var i := Find(s, Separators[j]);
    (Strip(s[..i]), NonEmpty(Strip(s[i + 1..])))
  }

  /** The separator split written without the query test. */
  function PlainSplit(s: string, k: nat): Option<(string, Option<string>)>
    decreases |Separators| - k
  {
    if k >= |Separators| then None
    else if SplitsAt(s, k) then Some(PartsAt(s, k))
    else PlainSplit(s, k + 1)
  }

  /**
   * The query test of line 61 never changes the result: when it holds, the
   * tail is non-empty and the next test returns the same pair. So the split
   * at a separator does not depend on the brand matcher.
   */
  lemma {:induction false} QueryTestIsRedundant(env: Env, s: string, k: nat)
    ensures SeparatorSplit(env, s, k) == PlainSplit(s, k)
    decreases |Separators| - k
  {
    if k < |Separators| {
      SplitAtIsPlain(env, s, k);
      QueryTestIsRedundant(env, s, k + 1);
    }
  }

  /** One separator of `QueryTestIsRedundant`. */
  lemma SplitAtIsPlain(env: Env, s: string, j: nat)
    requires j < |Separators|
    ensures SplitAt(env, s, Separators[j]) == if SplitsAt(s, j) then Some(PartsAt(s, j)) else None
  {
  }

  /** The split happens exactly when some separator (from `k` on) occurs with a non-empty part before it. */
  lemma {:induction false} SplitIffSomeSeparator(s: string, k: nat)
    ensures PlainSplit(s, k).Some? <==> exists j | k <= j < |Separators| :: SplitsAt(s, j)
    decreases |Separators| - k
  {
    if k < |Separators| {
      SplitIffSomeSeparator(s, k + 1);
      if SplitsAt(s, k) {
        assert PlainSplit(s, k).Some?;
      } else {
        assert PlainSplit(s, k) == PlainSplit(s, k + 1);
        assert (exists j | k <= j < |Separators| :: SplitsAt(s, j)) ==> exists j | k + 1 <= j < |Separators| :: SplitsAt(s, j);
      }
    }
  }

  /** Separator `j` splits the text and none from `k` up to it does. */
  predicate FirstSplitter(s: string, k: nat, j: nat) {
    k <= j < |Separators| && SplitsAt(s, j) && forall j' | k <= j' < j :: !SplitsAt(s, j')
  }

  /**
   * The split is at the first separator (in the order of line 55) that
   * occurs with a non-empty part before it.
   */
  lemma {:induction false} FirstSplittingSeparator(s: string, k: nat, j: nat)
    requires FirstSplitter(s, k, j)
    ensures PlainSplit(s, k) == Some(PartsAt(s, j))
    decreases j - k
  {
    if k < j {
      assert !SplitsAt(s, k);
      assert FirstSplitter(s, k + 1, j);
      FirstSplittingSeparator(s, k + 1, j);
    }
  }

  /** Empty or blank input gives no name and no request. */
  lemma BlankInput(env: Env, text: string)
    requires forall j | 0 <= j < |text| :: IsSpace(text[j])
    ensures SplitNameAndQuery(env, text) == ("", None)
  {
  }

  /** A text with no splitting separator: the first word is the name only when the rest reads as a request. */
  lemma {:induction false} FirstWordRule(env: Env, text: string)
    requires Strip(text) != [] && forall j | 0 <= j < |Separators| :: !SplitsAt(Strip(text), j)
    ensures var s := Strip(text);
      var i := TokenEnd(s, 0);
      && (i < |s| && LooksLikeQuery(env, Strip(s[i..])) ==>
            SplitNameAndQuery(env, text) == (s[..i], Some(Strip(s[i..]))))
      && (i == |s| || !LooksLikeQuery(env, Strip(s[i..])) ==> SplitNameAndQuery(env, text) == (s, None))
  {
    var s := Strip(text);
    assert SeparatorSplit(env, s, 0) == None by {
      QueryTestIsRedundant(env, s, 0);
      SplitIffSomeSeparator(s, 0);
    }
    FirstWordParts(s);
  }

  /** In a stripped text with a space, the first word is its own strip and a non-blank rest follows. */
  lemma FirstWordParts(s: string)
    requires s != [] && !IsSpace(s[0]) && !IsSpace(s[|s| - 1])
    ensures var i := TokenEnd(s, 0);
      i < |s| ==> 0 < i && Strip(s[..i]) == s[..i] && Strip(s[i..]) != []
  {
    var i := TokenEnd(s, 0);
    if i < |s| {
      assert 0 < i;
      StrippedWhole(s[..i]);
      StripEndsAt(s[i..]);
    }
  }

  /** A string with no space at either end is its own strip. */
  lemma StrippedWhole(s: string)
    requires s != [] && !IsSpace(s[0]) && !IsSpace(s[|s| - 1])
    ensures Strip(s) == s
  {
    assert SkipSpaces(s, 0) == 0;
    assert TrimEnd(s, |s|) == |s|;
  }

  /** One leading space before a non-space start, and a non-space end: the strip drops just that space. */
  lemma StripOneSpace(s: string)
    requires |s| >= 2 && IsSpace(s[0]) && !IsSpace(s[1]) && !IsSpace(s[|s| - 1])
    ensures Strip(s) == s[1..]
  {
    assert SkipSpaces(s, 1) == 1;
    assert SkipSpaces(s, 0) == 1;
    assert TrimEnd(s, |s|) == |s|;
  }

  /** A string ending in a non-space character strips to something non-empty. */
  lemma StripEndsAt(s: string)
    requires s != [] && !IsSpace(s[|s| - 1])
    ensures Strip(s) != []
  {
  }

  /** None of the four separators tried before the comma occurs in "name,request". */
  lemma {:induction false} EarlySeparatorsAbsent(name: string, request: string)
    requires forall j | 0 <= j < |name| :: name[j] !in Separators
    requires forall j | 0 <= j < |request| :: request[j] !in Separators[..4]
    ensures forall j | 0 <= j < 4 :: Separators[j] !in name + "," + request
  {
    var text := name + "," + request;
    forall j, p | 0 <= j < 4 && 0 <= p < |text|
      ensures text[p] != Separators[j]
    {
      assert Separators[j] == Separators[..4][j];
      if p < |name| {
        assert text[p] == name[p];
      } else if p > |name| {
        assert text[p] == request[p - |name| - 1];
      }
    }
  }

  /** The first comma of "name,request" is the one after the name. */
  lemma {:induction false} CommaAfterName(name: string, request: string)
    requires forall j | 0 <= j < |name| :: name[j] !in Separators
    ensures var text := name + "," + request;
      Find(text, ',') == |name| && text[..|name|] == name && text[|name| + 1..] == request
  {
    var text := name + "," + request;
    assert text[|name|] == ',';
    assert Separators[4] == ',';
    assert forall p | 0 <= p < |name| :: text[p] == name[p] && text[p] != ',';
  }

  /** The split of "name,request" happens at the comma. */
  lemma {:induction false} CommaSplit(name: string, request: string)
    requires name != [] && !IsSpace(name[0]) && !IsSpace(name[|name| - 1])
    requires forall j | 0 <= j < |name| :: name[j] !in Separators
    requires forall j | 0 <= j < |request| :: request[j] !in Separators[..4]
    ensures PlainSplit(name + "," + request, 0) == Some((name, NonEmpty(Strip(request))))
  {
    var text := name + "," + request;
    EarlySeparatorsAbsent(name, request);
    CommaAfterName(name, request);
    StrippedWhole(name);
    assert Separators[4] == ',' && ',' in text;
    assert !SplitsAt(text, 0) && !SplitsAt(text, 1) && !SplitsAt(text, 2) && !SplitsAt(text, 3);
    assert SplitsAt(text, 4);
  }

  /**
   * "Name, request": a name without separators or surrounding spaces, a comma,
   * and a request without the four separators tried before the comma, give
   * the name and the stripped request.
   */
  lemma {:induction false} NameCommaRequest(env: Env, name: string, request: string)
    requires name != [] && !IsSpace(name[0]) && !IsSpace(name[|name| - 1])
    requires forall j | 0 <= j < |name| :: name[j] !in Separators
    requires request != [] && !IsSpace(request[|request| - 1])
    requires forall j | 0 <= j < |request| :: request[j] !in Separators[..4]
    ensures SplitNameAndQuery(env, name + "," + request) == (name, Some(Strip(request)))
  {
    var text := name + "," + request;
    assert text[0] == name[0] && text[|text| - 1] == request[|request| - 1];
    StrippedWhole(text);
    StripEndsAt(request);
    CommaSplit(name, request);
    QueryTestIsRedundant(env, text, 0);
  }

  const RomanName: string := "Роман"
  const RomanRequest: string := " хочу купить ФВ Тигуан"

  /** The example message is the name, a comma and the request, none of them holding an earlier separator. */
  lemma RomanParts()
    ensures RomanName + "," + RomanRequest == "Роман, хочу купить ФВ Тигуан"
    ensures forall j | 0 <= j < |RomanName| :: RomanName[j] !in Separators
    ensures forall j | 0 <= j < |RomanRequest| :: RomanRequest[j] !in Separators[..4]
  {
  }

  /** The request strips to its text without the leading space. */
  lemma RomanRequestStrip()
    ensures Strip(RomanRequest) == "хочу купить ФВ Тигуан"
  {
    assert RomanRequest[0] == ' ' && RomanRequest[1] == 'х' && RomanRequest[|RomanRequest| - 1] == 'н';
    StripOneSpace(RomanRequest);
    assert RomanRequest[1..] == "хочу купить ФВ Тигуан";
  }

  /** The name and the stripped request of "Роман, хочу купить ФВ Тигуан". */
  lemma {:induction false} RomanExample(env: Env)
    ensures SplitNameAndQuery(env, "Роман, хочу купить ФВ Тигуан") == ("Роман", Some("хочу купить ФВ Тигуан"))
  {
    RomanParts();
    assert RomanName[0] == 'Р' && RomanName[|RomanName| - 1] == 'н' && RomanRequest[|RomanRequest| - 1] == 'н';
    NameCommaRequest(env, RomanName, RomanRequest);
    RomanRequestStrip();
  }

  /** "хочу" opens the request, so it reads as one. */
  lemma {:induction false} RomanRequestIsQuery(env: Env)
    ensures LooksLikeQuery(env, "хочу купить ФВ Тигуан")
  {
    var q := "хочу купить ФВ Тигуан";
    var l := Lower(q);
    assert q[0] == 'х' && q[1] == 'о' && q[2] == 'ч' && q[3] == 'у';
    assert l[..4] == "хочу";
    assert OccursAt(l, "хочу", 0);
    ContainsIff(l, "хочу");
    assert PurchaseWords[5] == "хочу";
    ContainsAnyIff(l, PurchaseWords);
  }

  // ---------------------------------------------------------------------
  // The handlers
  // ---------------------------------------------------------------------

  /** `/start` forgets everything, goes to `greeting` and greets. */
  lemma StartResets(s: Snapshot)
    ensures StartStep(s) == Snapshot(EmptyData, Some(Greeting), s.outbox + [ToUser(Welcome)])
  {
  }

  /** No name in the first reply: the handler asks for it and changes nothing else. */
  lemma GreetingWithoutName(s: Snapshot, env: Env, msg: Message)
    requires Strip(SplitNameAndQuery(env, TextOf(msg)).0) == []
    ensures GreetingNext(s, env, msg) == Stop(Say(s, NamePrompt))
  {
  }

  /**
   * A name: it is stored stripped and the state becomes `detect_intent`; a
   * request after it that reads as one goes to the intent handler, with the
   * catalogue, otherwise the user is asked what they want.
   */
  lemma GreetingWithName(s: Snapshot, env: Env, msg: Message)
    requires Strip(SplitNameAndQuery(env, TextOf(msg)).0) != []
    ensures var (name, query) := SplitNameAndQuery(env, TextOf(msg));
      var n := GreetingNext(s, env, msg);
      && n.snap.data == s.data.(name := Some(Strip(name)))
      && n.snap.state == Some(DetectIntent)
      && (n.ToDetect? <==> query.Some? && query.value != [] && LooksLikeQuery(env, query.value))
      && (n.ToDetect? ==> n == ToDetect(n.snap, WithText(msg, query.value), true) && n.snap.outbox == s.outbox)
      && (!n.ToDetect? ==> n == Stop(n.snap) && n.snap.outbox == s.outbox + [ToUser(MenuQuestion)])
  {
  }

  /** "Роман, хочу купить ..." in one message: the name is stored and the request answered at once. */
  lemma {:induction false} GreetingForwardsRequest(s: Snapshot, env: Env, msg: Message, name: string, request: string)
    requires name != [] && !IsSpace(name[0]) && !IsSpace(name[|name| - 1])
    requires forall j | 0 <= j < |name| :: name[j] !in Separators
    requires request != [] && !IsSpace(request[|request| - 1])
    requires forall j | 0 <= j < |request| :: request[j] !in Separators[..4]
    requires TextOf(msg) == name + "," + request && LooksLikeQuery(env, Strip(request))
    ensures GreetingNext(s, env, msg) ==
      ToDetect(Goto(s.(data := s.data.(name := Some(name))), DetectIntent), WithText(msg, Strip(request)), true)
  {
    NameCommaRequest(env, name, request);
    StrippedWhole(name);
    StripEndsAt(request);
  }

  /** The first reply "Роман, хочу купить ФВ Тигуан" stores the name and forwards the request. */
  lemma {:induction false} RomanGreeting(s: Snapshot, env: Env, msg: Message)
    requires TextOf(msg) == "Роман, хочу купить ФВ Тигуан"
    ensures GreetingNext(s, env, msg) ==
      ToDetect(Goto(s.(data := s.data.(name := Some("Роман"))), DetectIntent), WithText(msg, "хочу купить ФВ Тигуан"), true)
  {
    RomanExample(env);
    RomanRequestIsQuery(env);
    RomanNameStrips();
  }

  /** The name has no space at either end. */
  lemma RomanNameStrips()
    ensures Strip(RomanName) == RomanName
  {
    assert RomanName[0] == 'Р' && RomanName[4] == 'н';
    StrippedWhole(RomanName);
  }

  /**
   * After a finished conversation, any text but `/start` starts a new request:
   * only a truthy name and phone are kept, and the same message goes to the
   * intent handler with the catalogue.
   */
  lemma FinishedStartsOver(s: Snapshot, msg: Message)
    requires msg.text != Some(StartCommand)
    ensures var n := FinishedNext(s, msg);
      && n == ToDetect(n.snap, msg, true)
      && n.snap.state == Some(DetectIntent)
      && n.snap.outbox == s.outbox
      && (n.snap.data.name == s.data.name <==> Truthy(s.data.name) || s.data.name.None?)
      && (n.snap.data.phone == s.data.phone <==> Truthy(s.data.phone) || s.data.phone.None?)
      && n.snap.data.(name := None, phone := None) == EmptyData
  {
  }

  /** `/start` in `finished` does what `cmd_start` does. */
  lemma FinishedRestart(s: Snapshot, msg: Message)
    requires msg.text == Some(StartCommand)
    ensures FinishedNext(s, msg) == Stop(StartStep(s))
  {
  }
}

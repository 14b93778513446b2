/** Properties of the `collect_specs` turn. */
module CollectSpecsFacts {
  import opened Wrappers
  import opened Text
  import opened States
  import opened Brands
  import opened Catalog
  import opened Session
  import opened Handoff
  import opened CollectSpecsHandler
  import Scan
  import TP = TextParsers

  /** A question without digits, or a brand, hands the unchanged record to the intent handler. */
  lemma EscapeHatch(s: Snapshot, env: Env, msg: Message)
    requires Escapes(env, TextOf(msg))
    ensures SpecsNext(s, env, msg) == ToDetect(Goto(s, DetectIntent), msg, true)
    ensures SpecsNext(s, env, msg).snap.data == s.data
  {
  }

  /** A question word next to a digit is an answer ("есть 5 млн"), unless a brand is named. */
  lemma DigitsKeepAnswer(s: Snapshot, env: Env, msg: Message)
    requires DigitCount(TextOf(msg)) > 0 && !Truthy(FindBrand(env.findBrand, TextOf(msg)))
    ensures !SpecsNext(s, env, msg).ToDetect?
  {
  }

  /** A skip word means any budget. */
  lemma SkipWordUnlimited(text: string)
    requires ContainsAny(Lower(text), SkipWords)
    ensures ParseBudget(text) == Some(Unlimited)
  {
  }

  /**
   * Without a skip word, a million amount with a non-zero float is the
   * budget, even when it scales to less than a rouble, and a zero float gives
   * none; so every amount of a rouble or more is the budget.
   */
  lemma MillionAmountWins(text: string)
    requires !ContainsAny(Lower(text), SkipWords)
    requires MillionsMatch(text).Some?
    ensures MillionsTruthy(text) ==> ParseBudget(text) == MillionsMatch(text)
    ensures !MillionsTruthy(text) ==> ParseBudget(text).None? && MillionsMatch(text).value == 0
    ensures MillionsMatch(text).value != 0 ==> ParseBudget(text) == MillionsMatch(text)
  {
    var k := MillionsPos(text).value;
    assert MillionsMatch(text) == Scan.MillionsAt(Lower(text), k, MillionWords);
    if MillionsMatch(text).value != 0 {
      Scan.NonZeroMillionsFloat(Lower(text), k, MillionWords);
    }
  }

  /** Without a skip word or a million amount, a budget is found exactly when some number exceeds 100 000, and it is the first one. */
  lemma BareNumberBudget(text: string)
    requires !ContainsAny(Lower(text), SkipWords) && MillionsMatch(text).None?
    ensures var ns := DecimalsFrom(JoinGroups(text), 0);
      (ParseBudget(text).Some? <==> exists k | 0 <= k < |ns| :: Large(ns[k]))
      && (ParseBudget(text).Some? ==>
            (ParseBudget(text).value >= 100000
             && exists k | 0 <= k < |ns| :: Large(ns[k]) && ParseBudget(text).value == ns[k].whole
                                           && forall m | 0 <= m < k :: !Large(ns[m])))
  {
  }

  const Example: string := "2 500 000 рублей"

  /** The example has no upper-case letter. */
  lemma ExampleLower()
    ensures Lower(Example) == Example
  {
  }

  /**
   * A word is not in the example when its first letter is not, or is followed
   * there by another letter than the word's second one.
   */
  lemma AbsentFromExample(w: string)
    requires |w| >= 2
    requires || w[0] !in ['2', ' ', '5', '0', 'р', 'у', 'б', 'л', 'е', 'й']
             || (w[0] == 'б' && w[1] != 'л') || (w[0] == 'л' && w[1] != 'е')
    ensures !Contains(Example, w)
  {
    AbsentPair(Example, w);
  }

  /** None of the skip words occurs in the example. */
  lemma ExampleNoSkip()
    ensures !ContainsAny(Example, SkipWords)
  {
    var w := SkipWords;
    AbsentFromExample(w[0]); AbsentFromExample(w[1]); AbsentFromExample(w[2]); AbsentFromExample(w[3]);
    AbsentFromExample(w[4]); AbsentFromExample(w[5]); AbsentFromExample(w[6]); AbsentFromExample(w[7]);
    AbsentFromExample(w[8]); AbsentFromExample(w[9]);
    ContainsAnyIff(Example, w);
  }

  /** No million amount is found in a text whose lower-case form contains no million unit. */
  lemma NoMillions(text: string)
    requires forall u | 0 <= u < |MillionWords| :: !Contains(Lower(text), MillionWords[u])
    ensures MillionsMatch(text).None?
  {
    forall k | 0 <= k < |Lower(text)| ensures TP.MillionsScan(Lower(text), MillionWords)(k).None? {
      NoUnitAt(Lower(text), k);
    }
  }

  /** A unit that is not contained anywhere does not start at any position. */
  lemma NoUnitAt(s: string, k: nat)
    requires forall u | 0 <= u < |MillionWords| :: !Contains(s, MillionWords[u])
    ensures Scan.MillionsAt(s, k, MillionWords).None?
  {
    var l := Scan.DigitRun(s, k);
    if l > 0 {
      var j := SkipSpaces(s, Scan.DecimalEnd(s, k, l));
      if Scan.MatchAny(s, MillionWords, j) {
        var u :| 0 <= u < |MillionWords| && MatchAt(s, MillionWords[u], j);
        MatchAtIff(s, MillionWords[u], j);
        ContainsIff(s, MillionWords[u]);
      }
    }
  }

  const SubRouble: string := "0,0000001 млн"

  /** The number in `SubRouble` is "0" and "0000001", ending at position 9. */
  lemma SubRoubleDigits()
    ensures Scan.DigitRun(SubRouble, 0) == 1 && Scan.DigitRun(SubRouble, 2) == 7
    ensures Scan.DecimalEnd(SubRouble, 0, 1) == 9
  {
    var s := SubRouble;
    assert Scan.DigitRun(s, 9) == 0;
    assert Scan.DigitRun(s, 8) == 1;
    assert Scan.DigitRun(s, 6) == 3;
    assert Scan.DigitRun(s, 4) == 5;
  }

  /** Its whole part reads as 0 and its fraction as 1. */
  lemma SubRoubleNumbers()
    ensures Scan.NumberAt(SubRouble, 0, 1) == 0
    ensures Scan.NumberAt(SubRouble, 2, 9) == 1
  {
    var s := SubRouble;
    assert s[0..1] == "0" && s[2..9] == "0000001";
    assert "0"[..0] == "";
    assert "0000001"[..6] == "000000" && "000000"[..5] == "00000" && "00000"[..4] == "0000";
    assert "0000"[..3] == "000" && "000"[..2] == "00" && "00"[..1] == "0";
  }

  /** "млн" follows the number after one space. */
  lemma SubRoubleUnit()
    ensures SkipSpaces(SubRouble, 9) == 10 && Scan.MatchAny(SubRouble, MillionWords, 10)
  {
    assert MatchAt(SubRouble, MillionWords[0], 10);
  }

  /** "0,0000001 млн" is a tenth of a rouble: a non-zero float, so a budget, whose value is zero. */
  lemma SubRoubleExample()
    ensures Scan.MillionsAt(SubRouble, 0, MillionWords) == Some(0)
    ensures Scan.FloatNonZeroAt(SubRouble, 0)
  {
    SubRoubleDigits();
    SubRoubleNumbers();
    SubRoubleUnit();
    assert Scan.Pow10(7) == 10000000;
    assert Scan.Millions(0, 1, 7) == 0;
  }

  /** No million unit occurs in the example. */
  lemma ExampleNoMillions()
    ensures MillionsMatch(Example).None?
  {
    ExampleLower();
    forall u | 0 <= u < |MillionWords| ensures !Contains(Lower(Example), MillionWords[u]) {
      AbsentFromExample(MillionWords[u]);
    }
    NoMillions(Example);
  }

  /** The characters of "2 500 000" followed by a digit-free tail that starts with a space. */
  predicate GroupedShape(s: string) {
    |s| > 9 && s[0] == '2' && s[1] == ' ' && s[2] == '5' && s[3] == '0' && s[4] == '0' && s[5] == ' '
    && s[6] == '0' && s[7] == '0' && s[8] == '0' && s[9] == ' ' && forall k | 9 <= k < |s| :: !IsDigit(s[k])
  }

  /** Joining the digit groups of such a text drops exactly its two inner spaces. */
  lemma GroupsJoined(s: string)
    requires GroupedShape(s)
    ensures JoinGroups(s) == s[0..1] + s[2..5] + s[6..]
  {
    assert GapAt(s, 1) && GapAt(s, 5);
    assert JoinGroupsFrom(s, 1) == JoinGroupsFrom(s, 2);
    assert JoinGroupsFrom(s, 5) == JoinGroupsFrom(s, 6);
    forall k | 6 <= k < |s| ensures !GapAt(s, k) {
      if k >= 9 && k + 1 < |s| {
        assert !IsDigit(s[k + 1]);
      }
    }
    JoinGroupsSpan(s, 6, |s|);
    assert s[6..|s|] == s[6..];
    JoinGroupsSpan(s, 2, 5);
    JoinGroupsSpan(s, 0, 1);
  }

  /** The joined text starts with the seven digits 2500000 and a space. */
  lemma GroupsJoinedChars(s: string)
    requires GroupedShape(s)
    ensures var r := JoinGroups(s);
      |r| > 7 && r[0] == '2' && r[1] == '5' && r[7] == ' '
      && r[2] == '0' && r[3] == '0' && r[4] == '0' && r[5] == '0' && r[6] == '0'
  {
    GroupsJoined(s);
    var a, b, c := s[0..1], s[2..5], s[6..];
    assert |a| == 1 && |b| == 3;
    var r := a + b + c;
    assert r[0] == a[0] && r[1] == b[0] && r[2] == b[1] && r[3] == b[2];
    assert r[4] == c[0] && r[5] == c[1] && r[6] == c[2] && r[7] == c[3];
  }

  /** Where no gap lies in `[i, j)`, that stretch is kept as it is. */
  lemma {:induction false} JoinGroupsSpan(s: string, i: nat, j: nat)
    requires i <= j <= |s|
    requires forall k | i <= k < j :: !GapAt(s, k)
    ensures JoinGroupsFrom(s, i) == s[i..j] + JoinGroupsFrom(s, j)
    decreases j - i
  {
    if i < j {
      JoinGroupsSpan(s, i + 1, j);
      assert JoinGroupsFrom(s, i) == [s[i]] + JoinGroupsFrom(s, i + 1) by { assert !GapAt(s, i); }
      ConsSlice(s, i, j, JoinGroupsFrom(s, j));
    }
  }

  /** A character put in front of the stretch after it gives the stretch from it. */
  lemma ConsSlice(s: string, i: nat, j: nat, t: string)
    requires i < j <= |s|
    ensures [s[i]] + (s[i + 1..j] + t) == s[i..j] + t
  {
    assert s[i..j] == [s[i]] + s[i + 1..j];
  }

  /** `str(2500000)`, digit by digit. */
  lemma Digits7Written()
    ensures NatToString(2500000) == "2500000"
  {
    assert NatToString(2) == "2";
    assert NatToString(25) == "25";
    assert NatToString(250) == "250";
    assert NatToString(2500) == "2500";
    assert NatToString(25000) == "25000";
    assert NatToString(250000) == "250000";
  }

  /** A text that starts with the digits 2500000 and a space yields 2 500 000 as its first number. */
  lemma ExampleNumber(r: string)
    requires |r| > 7 && r[0] == '2' && r[1] == '5' && r[7] == ' '
    requires r[2] == '0' && r[3] == '0' && r[4] == '0' && r[5] == '0' && r[6] == '0'
    ensures |DecimalsFrom(r, 0)| > 0
    ensures DecimalsFrom(r, 0)[0] == Decimal(2500000, 0)
  {
    assert Scan.DigitRun(r, 7) == 0;
    assert Scan.DigitRun(r, 0) == 7;
    assert Scan.DecimalEnd(r, 0, 7) == 7;
    Digits7Written();
    assert r[0..7] == NatToString(2500000);
    ParseNatToString(2500000);
  }

  /** The example is "2 500 000" followed by a digit-free tail. */
  lemma ExampleShape()
    ensures GroupedShape(Example)
  {
    var s := Example;
    assert |s| == 16;
    forall k | 9 <= k < |s| ensures !IsDigit(s[k]) {
      if k == 9 {} else if k == 10 {} else if k == 11 {} else if k == 12 {}
      else if k == 13 {} else if k == 14 {} else {}
    }
  }

  /** "2 500 000 рублей" is read as a budget of 2 500 000. */
  lemma GroupedBudgetExample()
    ensures ParseBudget(Example) == Some(2500000)
  {
    ExampleLower();
    ExampleNoSkip();
    ExampleNoMillions();
    ExampleShape();
    GroupsJoinedChars(Example);
    ExampleNumber(JoinGroups(Example));
  }

  /** A found budget is stored and resets the retry counter. */
  lemma BudgetResetsRetry(d: SessionData, text: string)
    requires ParseBudget(text).Some?
    ensures Parsed(d, text).slots.budgetMax == Some(ParseBudget(text).value as int)
    ensures Parsed(d, text).specsRetry == 0
  {
  }

  /** A failed answer counts an attempt only while no budget is stored. */
  lemma FailedAttemptCounts(d: SessionData, text: string)
    requires ParseBudget(text).None?
    ensures Parsed(d, text).slots.budgetMax == d.slots.budgetMax
    ensures Parsed(d, text).specsRetry == (if GivenInt(d.slots.budgetMax) then d.specsRetry else d.specsRetry + 1)
  {
  }

  /** The second failed attempt without a budget sets the unlimited budget. */
  lemma SecondFailureDefaults(d: SessionData, text: string)
    requires ParseBudget(text).None? && d.slots.budgetMax.None? && d.specsRetry >= 1
    ensures Collected(d, text).slots.budgetMax == Some(Unlimited)
    ensures Collected(d, text).specsRetry == d.specsRetry + 1
  {
  }

  /** The first failed attempt without a budget asks for the budget again and stays. */
  lemma FirstFailureAsksAgain(s: Snapshot, env: Env, msg: Message)
    requires !Escapes(env, TextOf(msg))
    requires ParseBudget(TextOf(msg)).None? && s.data.slots.budgetMax.None? && s.data.specsRetry == 0
    ensures SpecsNext(s, env, msg) == Stop(Say(s.(data := Collected(s.data, TextOf(msg))), BudgetAsk))
    ensures Collected(s.data, TextOf(msg)).specsRetry == 1
  {
  }

  /** An indifference phrase makes the body "любой", whatever else the text names. */
  lemma IndifferentBody(d: SessionData, text: string)
    requires ContainsAny(Lower(text), AnyBodyWords)
    ensures Parsed(d, text).slots.body == Some("любой")
  {
  }

  /** A text naming no body and no drive leaves both slots as they were. */
  lemma UnmatchedKeepsSlots(d: SessionData, text: string)
    requires !ContainsAny(Lower(text), AnyBodyWords)
    requires TP.Category(Lower(text), SpecsBodyTable).None? && TP.Category(Lower(text), SpecsDriveTable).None?
    ensures Parsed(d, text).slots.body == d.slots.body
    ensures Parsed(d, text).slots.drive == d.slots.drive
  {
  }

  /** A named body or drive is the first category of its table that has a keyword in the text. */
  lemma MatchedSetsSlots(d: SessionData, text: string)
    requires !ContainsAny(Lower(text), AnyBodyWords)
    ensures TP.Category(Lower(text), SpecsBodyTable).Some? ==>
      Parsed(d, text).slots.body == TP.Category(Lower(text), SpecsBodyTable)
    ensures TP.Category(Lower(text), SpecsDriveTable).Some? ==>
      Parsed(d, text).slots.drive == TP.Category(Lower(text), SpecsDriveTable)
  {
  }

  /** The three ways a turn that stays in the handler can end. */
  lemma NextSteps(s: Snapshot, env: Env, msg: Message)
    requires !Escapes(env, TextOf(msg))
    ensures var t := s.(data := Collected(s.data, TextOf(msg)));
      && (t.data.slots.budgetMax.None? ==> SpecsNext(s, env, msg) == Stop(Say(t, BudgetAsk)))
      && (t.data.slots.budgetMax.Some? && t.data.slots.body.None? ==>
            SpecsNext(s, env, msg) == Stop(Say(t, BodyQuestion)))
      && (t.data.slots.budgetMax.Some? && t.data.slots.body.Some? ==>
            SpecsNext(s, env, msg) == ToSearch(Goto(t, NonDealerChoice), WithText(msg, SearchText(t.data))))
  {
  }

  /** Either state the turn stays in, it stays in `collect_specs` (or wherever it was). */
  lemma StaysWhenAsking(s: Snapshot, env: Env, msg: Message)
    requires !Escapes(env, TextOf(msg))
    requires SpecsNext(s, env, msg).Stop?
    ensures SpecsNext(s, env, msg).snap.state == s.state
    ensures |SpecsNext(s, env, msg).snap.outbox| == |s.outbox| + 1
  {
  }

  /** A query with any body, no drive and the unlimited budget names only the target brand. */
  lemma UnlimitedQueryNamesBrand(d: SessionData)
    requires d.slots.body.None? || d.slots.body == Some("любой")
    requires !Truthy(d.slots.drive)
    requires d.slots.budgetMax == Some(Unlimited as int)
    ensures SearchText(d) == if Truthy(d.targetBrand) then d.targetBrand.value else ""
  {
  }

  /** A concrete query: a sedan up to 2 500 000 for Haval. */
  lemma {:induction false} SedanQueryExample(d: SessionData)
    requires d.slots.body == Some("седан") && d.slots.drive.None?
    requires d.slots.budgetMax == Some(2500000) && d.targetBrand == Some("Haval")
    ensures SearchText(d) == "седан до 2500000 рублей Haval"
  {
    SedanParts(d);
    SedanJoin();
  }

  lemma SedanParts(d: SessionData)
    requires d.slots.body == Some("седан") && d.slots.drive.None?
    requires d.slots.budgetMax == Some(2500000) && d.targetBrand == Some("Haval")
    ensures SearchParts(d) == ["седан", "до 2500000 рублей", "Haval"]
  {
    Digits7Written();
    assert "до " + NatToString(2500000) + " рублей" == "до 2500000 рублей";
    assert BodyPart(d) == ["седан"];
    assert DrivePart(d) == [];
    assert BudgetPart(d) == ["до 2500000 рублей"];
    assert BrandPart(d) == ["Haval"];
  }

  lemma SedanJoin()
    ensures Join(["седан", "до 2500000 рублей", "Haval"], " ") == "седан до 2500000 рублей Haval"
  {
    var parts := ["седан", "до 2500000 рублей", "Haval"];
    var rest := ["до 2500000 рублей", "Haval"];
    assert parts[1..] == rest;
    assert rest[1..] == ["Haval"];
    assert Join(rest, " ") == "до 2500000 рублей" + " " + "Haval";
    assert Join(parts, " ") == "седан" + " " + Join(rest, " ");
    assert "седан" + " " + ("до 2500000 рублей" + " " + "Haval") == "седан до 2500000 рублей Haval";
  }
}

/**
 * What the stages of `handle_non_dealer_choice` guarantee: which stage wins,
 * what each stores, and the properties of the search's offers.
 */
module NonDealerChoiceFacts {
  import opened Wrappers
  import opened Text
  import opened Dto
  import opened States
  import opened Brands
  import opened Catalog
  import opened SemanticSearch
  import opened Sequences
  import opened TopOffers
  import opened Session
  import opened NonDealerTexts
  import opened NonDealerChoiceHandler
  import Phone
  import TP = TextParsers
  import ConfirmHandler

  // ---------------------------------------------------------------------
  // Stages 1-4
  // ---------------------------------------------------------------------

  /** The routing fix only touches the intent, the target brand and, when asked, the other brand. */
  lemma RoutingFixProperties(d: SessionData, clearNonDealer: bool)
    ensures var r := RoutingFix(d, clearNonDealer);
      if d.lastSearchResults != [] && d.lastSearchResults[0].brand in DealerBrands then
        r.intent == Some(BuyNew) && r.targetBrand == Some(d.lastSearchResults[0].brand)
        && r.nonDealerBrand == (if clearNonDealer then None else d.nonDealerBrand)
        && r == d.(intent := r.intent, targetBrand := r.targetBrand, nonDealerBrand := r.nonDealerBrand)
      else r == d
  {
  }

  /** A phone number anywhere in the message wins: it is stored and the summary is asked to be confirmed. */
  lemma PhoneWins(s: Snapshot, env: Env, msg: Message)
    requires EnvOk(env)
    requires Phone.NormalizePhone(TextOf(msg)).Some?
    ensures var r := NonDealerChoiceStep(s, env, msg);
      var d := RoutingFix(s.data.(phone := Phone.NormalizePhone(TextOf(msg))), true);
      r.state == Some(ConfirmFinal) && r.data == d && r.outbox == s.outbox + [ToUser(ConfirmHandler.Summary(d))]
  {
    assert EarlyStage(s, env, TextOf(msg)) == PhoneStage(s, TextOf(msg));
  }

  /** "I already gave it" without a known phone asks for the number again and keeps the record. */
  lemma GaveNumberUnknownPhone(s: Snapshot, text: string)
    requires ContainsAny(Lower(text), ActionWords) && ContainsAny(Lower(text), ObjectWords)
    requires !Truthy(s.data.phone)
    ensures GaveNumberStage(s, text) == Some(Snapshot(s.data, Some(CollectPhone), s.outbox + [ToUser(NumberNotFoundReply)]))
  {
  }

  /** The manager request keeps the phone; used-car words make it a used-car purchase of the other brand. */
  lemma ManagerDataProperties(d: SessionData, lower: string)
    ensures ManagerData(d, lower).phone == d.phone
    ensures ContainsAny(lower, UsedWords) ==> ManagerData(d, lower).intent == Some(BuyUsed)
    ensures ContainsAny(lower, UsedWords) && Truthy(d.nonDealerBrand) ==> ManagerData(d, lower).targetBrand == d.nonDealerBrand
    ensures !ContainsAny(lower, UsedWords) ==> ManagerData(d, lower) == RoutingFix(d, false)
  {
  }

  /** A manager request without a phone asks for one; with a phone it goes straight to the confirmation. */
  lemma ManagerAnswer(s: Snapshot, text: string)
    requires ManagerRequest(text)
    ensures var r := ManagerStage(s, text).value;
      var m := ManagerData(s.data, Lower(text));
      ManagerStage(s, text).Some? && r.data == m
      && (if Truthy(s.data.phone) then r.state == Some(ConfirmFinal)
          else r.state == Some(CollectPhone) && r.outbox == s.outbox + [ToUser(ManagerReply(m))])
  {
    ManagerDataProperties(s.data, Lower(text));
  }

  /** A service request becomes a repair lead asked for the kind of repair; a search query never does. */
  lemma ServiceLead(s: Snapshot, env: Env, text: string)
    ensures TP.IsSearchQuery(text) ==> ServiceStage(s, env, text).None?
    ensures ServiceStage(s, env, text).Some? <==> !TP.IsSearchQuery(text) && LooksLikeService(Lower(text))
    ensures ServiceStage(s, env, text).Some? ==>
      var r := ServiceStage(s, env, text).value;
      var found := FindBrand(env.findBrand, text);
      r.data.intent == Some(Repair) && r.state == Some(CollectRepairType)
      && r.data.userCarBrand == (if found.Some? then found else s.data.userCarBrand)
      && r.data.phone == s.data.phone
      && r.outbox == s.outbox + [ToUser(ServiceReply)]
  {
  }

  // ---------------------------------------------------------------------
  // Stages 5-8
  // ---------------------------------------------------------------------

  /** The colour answer stores an index of a cached offer, whatever index was stored before. */
  lemma RequestedColorIndexInRange(s: Snapshot, text: string)
    requires RequestedColorStage(s, text).Some? && s.data.lastSearchResults != []
    ensures var r := RequestedColorStage(s, text).value;
      ValidIndex(r.data.lastVariantIdx, |s.data.lastSearchResults|)
      && r.data == s.data.(lastVariantIdx := r.data.lastVariantIdx)
      && r.state == s.state && |r.outbox| == |s.outbox| + 1
  {
  }

  /** "Other colours?" changes nothing but the messages, and answers only while offers are cached. */
  lemma MoreColorsOnlyAnswers(s: Snapshot, text: string)
    ensures MoreColorsStage(s, text).Some? ==>
      s.data.lastSearchResults != [] && MoreColorsStage(s, text).value.data == s.data
      && MoreColorsStage(s, text).value.state == s.state
  {
  }

  /**
   * A variant reference in range selects that offer and shows its card; the
   * context question shows every offer and forgets the selection. Nothing but
   * the selection changes in the record.
   */
  lemma VariantSelection(s: Snapshot, env: Env, text: string)
    requires VariantStage(s, env, text).Some?
    ensures var r := VariantStage(s, env, text).value;
      var last := s.data.lastSearchResults;
      var idx := TargetIndex(Lower(text));
      r.data == s.data.(lastVariantIdx := r.data.lastVariantIdx) && r.state == s.state
      && (if 0 <= idx < |last| then
            r.data.lastVariantIdx == Some(idx)
            && r.outbox == s.outbox + [ToUser(DetailText(last[idx]) + "\n\n" + PromptOf(s.data))]
          else
            idx == -1 && r.data.lastVariantIdx == None
            && r.outbox == s.outbox + [ToUser(Overview(last, PromptOf(s.data)))])
  {
    var d := s.data;
    var last := d.lastSearchResults;
    var idx := TargetIndex(Lower(text));
    if 0 <= idx < |last| {
      assert VariantStage(s, env, text).value
        == Say(s.(data := d.(lastVariantIdx := Some(idx))), DetailText(last[idx]) + "\n\n" + PromptOf(d));
    } else {
      assert VariantStage(s, env, text).value == Say(s.(data := d.(lastVariantIdx := None)), Overview(last, PromptOf(d)));
    }
  }

  /** The five cheapest of a non-empty list: at most five, the cheapest first, all from the list. */
  lemma CheapestFive(found: seq<Car>)
    requires found != []
    ensures var cached := Take(SortBy(found, PriceKey), 5);
      0 < |cached| <= 5 && SortedBy(cached, PriceKey) && forall c | c in cached :: c in found
  {
    var sorted := SortBy(found, PriceKey);
    SortByCorrect(found, PriceKey);
    SortByMembers(found, PriceKey);
    var cached := Take(sorted, 5);
    assert |sorted| == |found| by {
      assert |multiset(sorted)| == |multiset(found)|;
    }
    forall c | c in cached
      ensures c in found
    {
      var k :| 0 <= k < |cached| && cached[k] == c;
      assert c == sorted[k];
    }
    assert SortedBy(cached, PriceKey) by {
      assert cached == sorted[..|cached|];
    }
  }

  /** A model named directly caches at most five cars, the cheapest first, each a named dealer model. */
  lemma DirectModelCache(s: Snapshot, env: Env, text: string)
    requires DirectModelStage(s, env, text).Some?
    ensures var cached := DirectModelStage(s, env, text).value.data.lastSearchResults;
      0 < |cached| <= 5 && SortedBy(cached, PriceKey)
      && forall c | c in cached :: c in env.catalog.value.cars && c.brand in DealerBrands && NamesModel(Lower(text), c)
  {
    var found := ModelsNamed(env.catalog.value.cars, text, DealerBrands);
    assert found != [];
    assert DirectModelStage(s, env, text).value.data.lastSearchResults == Take(SortBy(found, PriceKey), 5);
    CheapestFive(found);
    forall c | c in found
      ensures c in env.catalog.value.cars && c.brand in DealerBrands && NamesModel(Lower(text), c)
    {
      FindModelsMembership(env.catalog.value.cars, text, DealerBrands, c);
    }
  }

  // ---------------------------------------------------------------------
  // Stage 9: the search
  // ---------------------------------------------------------------------

  /** The search is over dealer brands only: the one named, else the dealer target, else all three. */
  lemma SearchBrandsDealerOnly(d: SessionData, found: Option<string>)
    ensures SearchBrands(d, found) != {} && SearchBrands(d, found) <= DealerBrands
    ensures found.Some? && found.value in DealerBrands ==> SearchBrands(d, found) == {found.value}
    ensures !(found.Some? && found.value in DealerBrands) && !IsDealer(d.targetBrand) ==> SearchBrands(d, found) == DealerBrands
  {
  }

  /** The first search keeps only cars of the brands searched, whichever engine answers. */
  lemma SearchedBrands(env: Env, f: SearchFilters, forced: bool, c: Car)
    requires EnvOk(env) && Searched(env, f, forced).Ok? && c in Searched(env, f, forced).value
    ensures c.brand in f.dealerBrands
  {
    if forced || !(env.semantic.Some? && env.semantic.value.indexBuilt) || Given(f.transmission) || GivenInt(f.gears) || Given(f.engineType) {
      assert env.catalog.Some?;
      SearchHonoursFilters(env.catalog.value.cars, f, c);
    } else {
      var index := env.semantic.value;
      var g := f.(transmission := None, gears := None, engineType := None);
      if index.cars == [] {
        SearchHonoursFilters(index.catalog.cars, g, c);
      } else {
        assert c in PostFiltered(Candidates(index.cars, env.hits), g);
      }
    }
  }

  /** Every car of the three attempts is of a brand searched. */
  lemma CarsForBrands(env: Env, f: SearchFilters, wide: bool, c: Car)
    requires EnvOk(env) && CarsFor(env, f, wide).Ok? && c in CarsFor(env, f, wide).value
    ensures c.brand in f.dealerBrands
  {
    var first := Searched(env, f, false).value;
    var second := if first != [] then first else Searched(env, Relaxed(f), true).value;
    if second == [] && env.catalog.Some? {
      var pool := Filter(env.catalog.value.cars, InBrandsTest(f.dealerBrands));
      assert c in pool by {
        if wide && Filter(pool, CrossoverTest()) != [] {
          assert c in Filter(pool, CrossoverTest());
        } else {
          var k :| 0 <= k < |PoolFallback(env.catalog.value.cars, f.dealerBrands, wide)|
            && PoolFallback(env.catalog.value.cars, f.dealerBrands, wide)[k] == c;
          assert c == pool[k];
        }
      }
    } else if first != [] {
      SearchedBrands(env, f, false, c);
    } else {
      SearchedBrands(env, Relaxed(f), true, c);
    }
  }

  /** While the catalogue holds a car of a brand searched, the three attempts find something unless the first raises. */
  lemma CarsForNonEmpty(env: Env, f: SearchFilters, wide: bool, c: Car)
    requires EnvOk(env) && env.catalog.Some? && c in env.catalog.value.cars && c.brand in f.dealerBrands
    ensures CarsFor(env, f, wide).Ok? ==> CarsFor(env, f, wide).value != []
  {
    var pool := Filter(env.catalog.value.cars, InBrandsTest(f.dealerBrands));
    assert InBrandsTest(f.dealerBrands)(c);
    assert c in pool;
  }

  /**
   * The first search raises exactly when it goes to a built, non-empty
   * vector index without transmission, gears or engine asked for, and
   * embedding the query fails; nothing else can fail.
   */
  lemma SearchRaisesIff(env: Env, f: SearchFilters, wide: bool)
    requires EnvOk(env)
    ensures CarsFor(env, f, wide).Err? <==>
      env.semantic.Some? && env.semantic.value.indexBuilt && env.semantic.value.cars != []
      && !(Given(f.transmission) || GivenInt(f.gears) || Given(f.engineType)) && !env.embedOk
  {
  }

  /**
   * The offers: at most three, each found by the search and so of a brand
   * searched; unless the search raised, there are offers whenever the
   * catalogue holds a car of such a brand.
   */
  lemma OffersProperties(env: Env, text: string, d: SessionData, sp: TP.CarSpecs, found: Option<string>)
    requires EnvOk(env)
    ensures OffersFrom(env, text, d, sp, found).Err? <==> CarsFor(env, FiltersFor(d, Lower(text), sp, found), WidePool(d, sp)).Err?
    ensures OffersFrom(env, text, d, sp, found).Ok? ==>
      var offers := OffersFrom(env, text, d, sp, found).value;
      |offers| <= 3 && forall c | c in offers :: c.brand in SearchBrands(d, found)
    ensures env.catalog.Some? && (exists c | c in env.catalog.value.cars :: c.brand in SearchBrands(d, found)) ==>
      OffersFrom(env, text, d, sp, found).Ok? ==> OffersFrom(env, text, d, sp, found).value != []
  {
    var f := FiltersFor(d, Lower(text), sp, found);
    if CarsFor(env, f, WidePool(d, sp)).Ok? {
      var cars := CarsFor(env, f, WidePool(d, sp)).value;
      var offers := OffersFrom(env, text, d, sp, found).value;
      Top3Properties(cars, AsInt(sp.priceTarget), sp.isApproximate, SortStrategy(text));
      forall c | c in offers
        ensures c.brand in SearchBrands(d, found)
      {
        CarsForBrands(env, f, WidePool(d, sp), c);
      }
      if env.catalog.Some? && (exists c | c in env.catalog.value.cars :: c.brand in SearchBrands(d, found)) {
        var c :| c in env.catalog.value.cars && c.brand in SearchBrands(d, found);
        CarsForNonEmpty(env, f, WidePool(d, sp), c);
      }
    }
  }

  /**
   * When the query embedding fails, the search stage sends nothing and
   * leaves the state alone; the record keeps only the brand and the price
   * ceiling stored before the search.
   */
  lemma SearchFailureSilent(s: Snapshot, env: Env, text: string)
    requires EnvOk(env)
    requires OffersFrom(env, text, s.data, TP.SpecsOf(text), FindBrand(env.findBrand, text)).Err?
    ensures var r := SearchStage(s, env, text);
      r.outbox == s.outbox && r.state == s.state
      && r.data == WithPriceMax(BrandData(s.data, FindBrand(env.findBrand, text)), PriceMax(TP.SpecsOf(text)))
  {
  }

  /**
   * The record after the search caches the offers it shows with no variant
   * selected, remembers the ceiling, and marks the note about the other brand
   * as sent, so that the note is never due on the next turn.
   */
  lemma SearchRecordProperties(d: SessionData, found: Option<string>, sp: TP.CarSpecs, offers: seq<Car>)
    ensures var r := SearchRecord(d, found, sp, offers);
      r.lastSearchResults == (if offers != [] then offers else d.lastSearchResults)
      && (offers != [] ==> r.lastVariantIdx == None)
      && (PriceMax(sp).Some? ==> r.lastPriceMax == PriceMax(sp))
      && r.nonDealerNoticeSent == (d.nonDealerNoticeSent || Truthy(d.nonDealerBrand))
      && r.nonDealerBrand == d.nonDealerBrand && r.phone == d.phone && r.name == d.name
      && !NoticeDue(r)
  {
    var b := BrandData(d, found);
    assert b.nonDealerBrand == d.nonDealerBrand && b.nonDealerNoticeSent == d.nonDealerNoticeSent
      && b.phone == d.phone && b.name == d.name && b.lastSearchResults == d.lastSearchResults;
    var p := WithPriceMax(b, PriceMax(sp));
    assert p.(lastPriceMax := b.lastPriceMax) == b;
    var o := WithOffers(p, offers);
    assert o.(lastVariantIdx := p.lastVariantIdx, lastSearchResults := p.lastSearchResults) == p;
  }

  /**
   * Once the search has returned, the answer is one message with offers and
   * two without, and changes nothing else; `SearchFailureSilent` covers the
   * search that raises.
   */
  lemma SearchAnswerMessages(s: Snapshot, env: Env, text: string, d: SessionData, offers: seq<Car>)
    ensures var r := SearchAnswer(s, env, text, d, offers);
      r.data == s.data && r.state == s.state
      && |r.outbox| == |s.outbox| + (if offers != [] then 1 else 2) && r.outbox[..|s.outbox|] == s.outbox
  {
    if offers == [] {
      var s1 := Say(s, Join(EmptyBlocks(env, d), "\n"));
      assert s1.outbox[..|s.outbox|] == s.outbox;
      assert SearchAnswer(s, env, text, d, offers).outbox[..|s.outbox|] == s1.outbox[..|s.outbox|];
    }
  }

  /** The note about the other brand goes out only while it is due, and an empty search then follows it with the catalogue notice or nothing. */
  lemma NoticeOnlyWhenDue(env: Env, d: SessionData)
    ensures !NoticeDue(d) ==> NoticeBlock(d) == [] && EmptyBlocks(env, d) == [NothingFound]
    ensures NoticeDue(d) ==> |NoticeBlock(d)| == 1 && EmptyBlocks(env, d)[..1] == NoticeBlock(d)
  {
  }

  /** "More expensive" searches above the last ceiling; an approximate price widens the ceiling by ten percent. */
  lemma PriceBounds(d: SessionData, lower: string, sp: TP.CarSpecs)
    ensures ContainsAny(lower, MoreExpensiveWords) && TP.Truthy(d.lastPriceMax) ==> PriceMin(d, lower) == d.lastPriceMax
    ensures !ContainsAny(lower, MoreExpensiveWords) ==> PriceMin(d, lower) == None
    ensures PriceMax(sp).Some? <==> TP.Truthy(sp.priceTarget)
    ensures PriceMax(sp).Some? && !sp.isApproximate ==> PriceMax(sp) == sp.priceTarget
    ensures PriceMax(sp).Some? && sp.isApproximate ==>
      sp.priceTarget.value <= PriceMax(sp).value && 100 * PriceMax(sp).value <= 110 * sp.priceTarget.value
  {
  }
}

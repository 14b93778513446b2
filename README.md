# Автолидер lead bot: a verified model

This project is a Dafny model of the core of the "Автолидер" car-dealership Telegram bot. The bot talks with a customer, works out what they want (a new or used car, a repair, spare parts, selling a car, accounting), gathers the details, finds matching cars in the dealer's catalogue, and sends the finished lead to the right staff group.

What the model covers:

- **The conversation.** It is a finite-state machine whose states are those of `ConversationState`: `greeting`, `detect_intent`, `collect_brand`, `collect_specs`, `collect_repair_type`, `collect_phone`, `confirm`, `confirm_final`, `finished` and `non_dealer_choice`.
  - The FSM context becomes the class `Session.Conversation`. It holds the session record, the current state, and an outbox of everything answered, saved or sent.
  - Each state handler is a method on that class.
  - Each method is proved equal to a pure step function over a `Snapshot` of the conversation.
  - The lemmas state the handlers' rules on those step functions: counters, flags, escape hatches and next-state choices.
  - `Dispatch.Turn` is one message, end to end. The commands come first, then the handler of the current state.
- **The catalogue.**
  - `Catalog.CarCatalog.Search` is the structural search and `FindModels` finds models named in a text.
  - `TopOffers` picks the three offers: the price band, then the `power_desc`, `price_desc` and `price_mix` strategies.
  - The vector-search post-filter is in `SemanticSearch`.
- **The parsers.**
  - The car-spec parser and the query predicates.
  - Phone normalisation.
  - The budget parser of `collect_specs`.
  - Colour and variant references.
  - Splitting the first reply into a name and a request.
  - `extract_json` of the LLM router.
- **Lead routing and formatting.**
  - The routing table of the final confirmation, and the order in which replies are classified.
  - Phone masking and the summary.
  - The lead and model-response formatters.

Everything outside the bot's own logic is a parameter of type `Session.Env`:

- the make matcher (`find_brand`);
- the LLM classifier;
- the vector-search candidates of the turn;
- whether embedding the search query succeeds;
- whether a lead save or a group send succeeds.

The dealer's own makes are the constant set `Brands.DealerBrands` = {Chery, Jetour, Haval}.

## Model

| member | source | states |
|---|---|---|
| Phone.CanonicalDigits | app/utils/phone.py:11-24 | an accepted digit string is eleven digits starting with 7 |
| Phone.NormalizePhone | app/utils/phone.py:5-48 | every result is "+7" followed by ten digits |
| Phone.LengthChecksUnreachable | app/utils/phone.py:36-42 | the two length checks never reject: whatever reaches them has eleven digits, so the result is present exactly when the first part accepts |
| Phone.NormalizeCases | app/utils/phone.py:11-24 | over the digits of the input: eleven starting with 8 become "+7" and the last ten, eleven starting with 7 get a "+", ten get "+7", every other count is rejected |
| Phone.NormalizeIdempotent | app/utils/phone.py:11-48 | normalising an accepted result gives the same result |
| Phone.OnlyDigitsMatter | app/utils/phone.py:11 | two inputs with the same digits normalise alike |
| Phone.EightPrefixForm | app/utils/phone.py:14-16 | "8" and ten digits give "+7" and those ten digits |
| Phone.TenDigitForm | app/utils/phone.py:20-22 | ten digits give "+7" and those ten digits |
| Phone.ExampleTooShort | app/utils/phone.py:23-24 | "12345" is rejected |
| LlmRouter.ExtractJson | app/llm/router.py:9-17 | succeeds exactly when some '{' comes before some '}'; the result starts with '{', ends with '}' and occurs in the input with no '{' before it and no '}' after it |
| LlmRouter.ExtractJsonIdempotent | app/llm/router.py:13-17 | extracting from an extracted object returns it unchanged |
| LlmRouter.ClassifyText | app/llm/router.py:24-47 | a failed call or a reply without an object gives the fallback result; any other result is the decoded object |
| LlmRouter.FailureDegradesToOther | app/llm/router.py:37-47 | every failure gives intent "other", confidence "low" and no brands |
| Dto.IntentName | app/models/dto.py:6 | every intent is stored under a non-empty name |
| Dto.IntentNameInjective | app/models/dto.py:6 | distinct intents have distinct names |
| Brands.DealerBrandListIsTheSet | app/utils/response_helpers.py:124 | the listed dealer makes are exactly the dealer set |
| Brands.FindBrand | app/handlers/detect_intent.py:71-72 | the matcher's answer, read as Python truthiness: present exactly when the matcher names a non-empty brand, and then that brand |
| Catalog.WordFromIff | app/utils/catalog.py:266-269 | the word scan from a position succeeds exactly when the word occurs at or after it with no name-class character on either side |
| Catalog.ReSearchWordContains | app/utils/catalog.py:261-262 | a word `re_search_word` finds is a substring of the text |
| Catalog.CarCatalog.constructor | app/utils/catalog.py:45-48 | the catalogue holds exactly the given cars |
| Catalog.CarCatalog.Search | app/utils/catalog.py:184-246 | the loop returns exactly the cars passing every filter, as a subsequence of the catalogue in its order, all of a dealer brand |
| Catalog.CarCatalog.GetAllCars | app/utils/catalog.py:248-249 | a copy of the catalogue, car for car |
| Catalog.CarCatalog.FindModels | app/utils/catalog.py:251-264 | the loop returns exactly the dealer-brand cars whose "brand model" or (three or more letters long) whole-word model name the lowered text contains, in catalogue order |
| Catalog.SearchMembership | app/utils/catalog.py:197-245 | a car is found exactly when it is in the catalogue and passes every filter |
| Catalog.SearchHonoursFilters | app/utils/catalog.py:198-243 | every car found has a dealer brand, the body asked for unless "любой" (case-insensitively), a final price within the non-zero bounds, at least 90% of the power asked for, the gear count asked for, the engine type as a substring, and the drive and transmission of each bucket requested |
| Catalog.SearchIdempotent | app/utils/catalog.py:196-246 | searching the result again with the same filters gives it back |
| Catalog.ZeroMeansNoFilter | app/utils/catalog.py:212-236 | zero price bounds, power and gear count filter nothing, like absent ones |
| Catalog.OtherDriveFiltersNothing | app/utils/catalog.py:202-210 | a drive request in neither the all-wheel nor the front bucket filters nothing |
| Catalog.RearIsNoBucket | app/utils/catalog.py:205-206 | "задний" is in neither drive bucket |
| Catalog.FindModelsMembership | app/utils/catalog.py:254-263 | a car is in the `find_models` result exactly when it is in the catalogue, has a dealer brand and the text names its model |
| Catalog.SplitOn | app/utils/catalog.py:173 | `split(",")` gives at least one piece and no piece holds the separator |
| Catalog.SplitOnJoin | app/utils/catalog.py:173 | joining the pieces with the separator gives the cell back |
| Catalog.ParseColors | app/utils/catalog.py:171-174 | no colour is empty, and a missing or blank cell gives none |
| Catalog.CleanPieces | app/utils/catalog.py:173 | each piece is stripped and lowered, one colour per piece |
| Catalog.CleanPiece | app/utils/catalog.py:173 | a stripped, lowered piece has no comma and no white space at its ends |
| Catalog.ParseColorsClean | app/utils/catalog.py:171-174 | no parsed colour holds a comma or starts or ends with white space |
| TopOffers.StrategyOf | app/utils/catalog.py:275-330 | "power_desc" and "price_desc" select their strategies, and only they do; any other string is "price_mix" |
| TopOffers.StrategyNameRoundTrip | app/utils/catalog.py:275 | every strategy is selected by its own name |
| TopOffers.Tenth | app/utils/catalog.py:284 | `int(x * 0.10)` truncates toward zero: for a non-negative target it is the tenth rounded down |
| TopOffers.TakeDistinct | app/utils/catalog.py:303-311 | the dedupe loop with its break at three keeps the first element of each key, in order, up to the limit |
| TopOffers.PriceBand | app/utils/catalog.py:280-297 | the band computed step by step is the pool the strategies read |
| TopOffers.MixOffers | app/utils/catalog.py:331-342 | the price-mix branch on the sorted pool |
| TopOffers.PickTop3Offers | app/utils/catalog.py:271-342 | at most three offers, none exactly when there are no cars, every offer taken from the input |
| TopOffers.PoolProperties | app/utils/catalog.py:280-297 | the pool of a non-empty input is never empty and holds only input cars |
| TopOffers.ApproxBandHonoured | app/utils/catalog.py:282-287 | when some car lies within a tenth of the target, every pooled car does |
| TopOffers.ApproxFallbackClosest | app/utils/catalog.py:289-290 | with no car in the band, the pool is the five cars nearest the target, nearest first, between one and five of them |
| TopOffers.ExactBandHonoured | app/utils/catalog.py:291-292 | when some car is not dearer than the target, no pooled car is |
| TopOffers.ExactFallback | app/utils/catalog.py:293-297 | otherwise the pool is the cars within 1.2 times the target, or every car when there is none |
| TopOffers.NoTargetKeepsAll | app/utils/catalog.py:280-281 | no target, or a zero one, pools every car |
| TopOffers.MixProperties | app/utils/catalog.py:331-342 | at most three, empty only for an empty list, a subsequence of the sorted list, the whole list when short, else its two cheapest followed by the dearest unless that car is one of them |
| TopOffers.Top3Properties | app/utils/catalog.py:277-342 | at most three offers for every strategy, none exactly when there are no cars, each an input car |
| TopOffers.PowerDescOrder | app/utils/catalog.py:300-311 | "power_desc" gives distinct models, most powerful first and the cheaper first at equal power; a pooled car whose model is not shown means three offers were shown and it ranks no higher than the third (less power, or equal power and no cheaper) |
| TopOffers.PriceDescOrder | app/utils/catalog.py:313-328 | "price_desc" gives distinct (model, trim) pairs with non-increasing price; a pooled car whose pair is not shown means three offers were shown and it is not dearer than the third, so these are the three dearest distinct pairs |
| TopOffers.TopDistinct | app/utils/catalog.py:300-328 | the first three distinct-key cars of a sorted pool have distinct keys, are in order, and every pooled car with a key not taken ranks no higher than the third |
| TopOffers.PriceMixShape | app/utils/catalog.py:330-342 | "price_mix" sorts the pool by price as a permutation, returns it when it has at most three cars, else its two cheapest followed by the dearest unless that car is one of them |
| TopOffers.PriceMixMayRepeatModel | app/utils/catalog.py:334-342 | a catalogue exists whose three "price_mix" offers show the same model twice |
| Sequences.SortWithCorrect | app/utils/catalog.py:302-331 | Python's stable `sorted`, modelled as insertion sort: the result is ordered by a total comparison and is a permutation of the input |
| Sequences.SortByCorrect | app/utils/catalog.py:302-331 | `sorted(..., key=...)` orders by the key and permutes its input |
| Sequences.SortWithStable | app/utils/catalog.py:302-331 | stability of `sorted`: among the elements a condition selects, any two of which compare both ways, the sorted list keeps their input order |
| Sequences.SortByStable | app/utils/catalog.py:302-331 | `sorted(..., key=...)` is stable: for every key, the elements with that key appear in the sorted list in their input order |
| Sequences.DistinctFromProperties | app/utils/catalog.py:303-328 | the "append when the key is unseen, break at n" loop takes at most n elements, as a subsequence, with pairwise distinct keys, none of them already seen, and at least one whenever an unseen key exists |
| Sequences.DistinctFromComplete | app/utils/catalog.py:303-311 | when fewer than n were taken, every key of the input was taken or already seen |
| Sequences.DistinctFromLeftBehind | app/utils/catalog.py:303-311 | on a sorted input, an element whose key was neither seen nor taken is left out only when n were taken, and it comes no earlier than the last taken one: the taken elements are the first n with new keys |
| TextParsers.CategoryFrom | app/utils/text_parsers.py:26-29 | from table entry k on: the entry chosen has a keyword in the text and no entry between k and it has one; none chosen means no later entry has a keyword |
| TextParsers.FirstCategory | app/utils/text_parsers.py:26-68 | the for-break loop over a keyword table picks the table's category |
| TextParsers.CategoryIff | app/utils/text_parsers.py:11-68 | no category exactly when no keyword of the table occurs; otherwise the category is the first entry, in table order, with a keyword substring |
| TextParsers.FirstPlausible | app/utils/text_parsers.py:109-118 | the first big number in [500 000, 30 000 000], present exactly when one is in range |
| TextParsers.PowerTarget | app/utils/text_parsers.py:121-137 | a power found is strictly between 50 and 800 |
| TextParsers.ParseCarSpecs | app/utils/text_parsers.py:4-139 | every field assigned in turn is the field of the specification record |
| TextParsers.ReadPrice | app/utils/text_parsers.py:81-118 | "N млн", then "N кк" while no non-zero price was found, then the first plausible big number of the raw text |
| TextParsers.FirstPlausibleNumber | app/utils/text_parsers.py:110-118 | the loop over the matches with its break returns the first plausible number |
| TextParsers.ReadPower | app/utils/text_parsers.py:121-137 | "от N" when plausible, else "N л.с." when plausible |
| TextParsers.PowerTargetRange | app/utils/text_parsers.py:124-137 | the power is absent or strictly between 50 and 800, "от N" wins when plausible, and the power is below 1000 |
| TextParsers.BarePriceInRange | app/utils/text_parsers.py:107-118 | with no "млн" and no "кк" match, the price is the first plausible big number and lies in [500 000, 30 000 000] |
| TextParsers.MillionsWin | app/utils/text_parsers.py:87-98 | a non-zero "N млн" price is the one reported |
| TextParsers.CategoriesFromTables | app/utils/text_parsers.py:13-68 | body, drive, engine and transmission are each absent or a category name of their table |
| TextParsers.ApproximateIff | app/utils/text_parsers.py:84-85 | `is_approximate` exactly when an approximate keyword occurs in the folded text |
| TextParsers.SearchQueryIff | app/utils/text_parsers.py:142-155 | a search query exactly when some spec field is set or a search phrase occurs |
| TextParsers.QueryKeywordsIff | app/utils/text_parsers.py:157-173 | `is_power_query` and `is_expensive_query` hold exactly when one of their keywords occurs in the lowered text |
| TextParsers.BodyMakesSearchQuery | app/utils/text_parsers.py:146-148 | a text naming a body type is a search query |
| TextParsers.GearsExample | app/utils/text_parsers.py:73-78 | "6-ст" gives six gears |
| TextParsers.BodyExample | app/utils/text_parsers.py:15-29 | "седан" names the sedan body |
| TextParsers.FromPowerExample | app/utils/text_parsers.py:124-129 | "от 150" captures 150 |
| TextParsers.MillionsExample | app/utils/text_parsers.py:88-93 | "2,5 млн" is 2 500 000 |
| Scan.DigitRun | app/utils/text_parsers.py:73 | the run of digits `\d+` from a position: all digits, and maximal |
| Scan.NumberAt | app/utils/text_parsers.py:76 | the value of k digits is below 10^k |
| Scan.Search | app/utils/text_parsers.py:73 | the first position in a range where a pattern matches, and no match before it |
| Scan.First | app/utils/text_parsers.py:73-133 | `re.search`: present exactly when the pattern matches somewhere, and then the leftmost match's value |
| Scan.DecimalEnd | app/utils/text_parsers.py:88 | the number `\d+(?:[.,]\d+)?` ends within the text, after its leading digits |
| Scan.NonZeroMillionsFloat | app/handlers/collect_specs.py:68 | a million amount that scales to a non-zero value has a non-zero float, so Python finds it truthy |
| Scan.PowerValuesBelow1000 | app/utils/text_parsers.py:124-133 | both power patterns capture two or three digits, so a value below 1000 |
| Scan.GroupCount | app/utils/text_parsers.py:109 | the number of `[ .]\d{3}` groups in a row, at most three, and greedy |
| Scan.BigAt | app/utils/text_parsers.py:109 | a big-number match at a position ends after it, within the text |
| Scan.BigNumbersFrom | app/utils/text_parsers.py:109-111 | `re.findall` of the big-number pattern: each match with its separators removed is all digits |
| Scan.BigAtShape | app/utils/text_parsers.py:109 | a big-number match holds only digits, spaces and dots, and without a separator it has 5 to 9 digits |
| SemanticSearch.Candidates | app/utils/semantic_search.py:156 | the candidates are the indexed cars at the hit positions, one per hit, in hit order |
| SemanticSearch.SemanticCarIndex.constructor | app/utils/semantic_search.py:20-69 | the index holds the catalogue, its cars and whether the vector index was built |
| SemanticSearch.SemanticCarIndex.Search | app/utils/semantic_search.py:50-183 | without an index or without cars, the structural search with the same filters; with both, a failed query embedding raises, and otherwise the candidates are post-filtered; every car returned has a dealer brand |
| SemanticSearch.PostFilterSubsequence | app/utils/semantic_search.py:156-183 | the post-filter keeps an order-preserving subsequence of the candidates, all indexed cars |
| SemanticSearch.PostFilterHonours | app/utils/semantic_search.py:159-174 | each result has an allowed brand, the body asked for unless "любой", a final price within the non-zero bounds, at least 90% of the power asked for, and the all-wheel test in both directions |
| SemanticSearch.PostFilterIgnoresDrivetrain | app/utils/semantic_search.py:176-178 | transmission, gears and engine type never change what is kept |
| SemanticSearch.DriveText | app/utils/semantic_search.py:113-118 | 4x4 and awd read "полный привод", fwd "передний привод", rwd "задний привод", any other drive is kept as written |
| SemanticSearch.DescriptionNamesDrive | app/utils/semantic_search.py:120-124 | the description names the spelled-out drive between commas |
| SemanticSearch.DescriptionNamesPrice | app/utils/semantic_search.py:123 | the description holds the price text |
| SemanticSearch.DescriptionStartsWithName | app/utils/semantic_search.py:121 | the description starts with brand and model |
| ResponseHelpers.IntentLabelsKnown | app/utils/response_helpers.py:10-21 | every intent the bot stores is shown by a label other than its name, and distinct intents by distinct labels |
| ResponseHelpers.LabelOf | app/utils/response_helpers.py:10-19 | each intent's label is longer than the intent's own name |
| ResponseHelpers.IntentLabelPassesUnknown | app/utils/response_helpers.py:21 | an intent string outside the table is shown as it is |
| ResponseHelpers.LeadDetailsShape | app/utils/response_helpers.py:33-39 | the detail list is empty exactly when none of the five keys is in the slots; a key's line is there exactly when the key is, even when it holds null; at most five lines, model first and repair details last |
| ResponseHelpers.LabelsDiffer | app/utils/response_helpers.py:35-39 | the five detail labels start with different letters, so two keys never print the same line |
| ResponseHelpers.InDetailIf | app/utils/response_helpers.py:35-39 | a key's line is produced by that key's test alone, and only while the key is present |
| ResponseHelpers.InDetails | app/utils/response_helpers.py:35-39 | a printed key's line is on the card exactly when the key is in the slots |
| ResponseHelpers.NullPrintsNone | app/utils/response_helpers.py:35-39 | a key holding null is printed, with the value "None" |
| ResponseHelpers.LeadLinesShape | app/utils/response_helpers.py:23-45 | the card opens with header, client, phone and interest, has the brand line exactly when a brand is set, one dash line per detail after the details header, and ends with the user id |
| ResponseHelpers.NoBrandNoBrandLine | app/utils/response_helpers.py:30-31 | without a brand no line of the card is a brand line |
| ResponseHelpers.LeadMessageNamesPhoneAndBrand | app/utils/response_helpers.py:26-47 | the message carries the phone line and, when set, the brand line |
| ResponseHelpers.SortedSetProperties | app/utils/response_helpers.py:106 | `sorted(set(...))` is strictly increasing and holds exactly the colours given |
| ResponseHelpers.MaxDelivery | app/utils/response_helpers.py:110 | the largest truthy delivery time, absent exactly when no car has one |
| ResponseHelpers.SortByPrice | app/utils/response_helpers.py:54 | the list is sorted by price in place |
| ResponseHelpers.ListVariants | app/utils/response_helpers.py:63-94 | the listing loop writes one line per car with a new trim key, stopping after five, and counts them |
| ResponseHelpers.ShownStep | app/utils/response_helpers.py:66-70 | one step of the listing loop: a seen trim key is skipped, a new one is taken |
| ResponseHelpers.CollectColors | app/utils/response_helpers.py:101-103 | the colour set is the union of the cars' colours |
| ResponseHelpers.LongestDelivery | app/utils/response_helpers.py:110 | the delivery loop finds the largest truthy delivery time |
| ResponseHelpers.FormatModelResponse | app/utils/response_helpers.py:49-115 | sorts its argument in place by price and returns the model response of the sorted list; the source indexes the first car, so the list is non-empty |
| ResponseHelpers.ModelReply | app/utils/response_helpers.py:49-115 | the models found, sorted by price, and the response written from them |
| ResponseHelpers.FindDirectModels | app/handlers/detect_intent.py:55-66 | the dealer models the text names, cheapest first, and their response when there are any |
| ResponseHelpers.HeaderIsCheapest | app/utils/response_helpers.py:54-58 | the header car is one of the cars and no car is cheaper |
| ResponseHelpers.ShownProperties | app/utils/response_helpers.py:63-94 | at most five variants, with pairwise distinct trim keys, in price order, at least one for a non-empty list, and every trim key listed when fewer than five are |
| ResponseHelpers.RemainingIffMore | app/utils/response_helpers.py:96-98 | the remaining count appears exactly when more cars were found than listed |
| ResponseHelpers.ColorsShown | app/utils/response_helpers.py:100-107 | a colour is shown exactly when some car has it |
| ResponseHelpers.AllColorsMembers | app/utils/response_helpers.py:101-103 | a colour is in the union exactly when some car has it |
| ResponseHelpers.DeliveryDaysProperties | app/utils/response_helpers.py:110 | the delivery time is the largest set one, or 14 days when none is set |
| ResponseHelpers.NonDealerPromptNamesBrand | app/utils/response_helpers.py:118-127 | the prompt names the brand it cannot offer |
| ResponseHelpers.DealerNamesListsDealers | app/utils/response_helpers.py:124 | "Chery, Jetour и Haval" names each dealer brand |
| ResponseHelpers.NonDealerPromptNamesDealers | app/utils/response_helpers.py:122-127 | the prompt names each of the dealer's three brands |
| ResponseHelpers.GroupKeys | app/utils/response_helpers.py:134-136 | the keys of the grouping dictionary: each (brand, model) of the cars once |
| ResponseHelpers.GroupKeysFirstSeen | app/utils/response_helpers.py:134-139 | the keys come in order of first appearance |
| ResponseHelpers.MinDelivery | app/utils/response_helpers.py:145 | the smallest `delivery_days or 14` of the group, and 14 for none |
| ResponseHelpers.LinesFor | app/utils/response_helpers.py:139-146 | one line per key |
| ResponseHelpers.OverviewLines | app/utils/response_helpers.py:139-146 | one overview line per key |
| ResponseHelpers.GroupByModel | app/utils/response_helpers.py:134-136 | the grouping loop builds, for each first-seen key in order, exactly the cars of that key, and no other key |
| ResponseHelpers.GroupKeysStep | app/utils/response_helpers.py:136 | a car adds its key at the end unless the key was already seen |
| ResponseHelpers.GroupStep | app/utils/response_helpers.py:136 | one step of the grouping loop keeps the dictionary equal to the groups of the cars seen so far |
| ResponseHelpers.WriteGroupLines | app/utils/response_helpers.py:138-146 | the second loop writes one line per group, in key order |
| ResponseHelpers.FormatColorOverview | app/utils/response_helpers.py:130-153 | the grouping loop then the line loop give the colour overview |
| ResponseHelpers.ColorOverviewShape | app/utils/response_helpers.py:148-153 | no cars give the fixed no-information text; otherwise the header and one line per (brand, model), in first-seen order |
| ResponseHelpers.GroupLineProperties | app/utils/response_helpers.py:140-146 | a group line lists the sorted distinct non-empty colours of the group, or else its shortest delivery time |
| NonDealerTexts.DetectRequestedColor | app/handlers/non_dealer_choice.py:43-49 | the nested loops over the colour table return the colour the table scan finds |
| NonDealerTexts.RequestedColorIsFirstKey | app/handlers/non_dealer_choice.py:23-49 | the colour found is a key of the table, one of its forms occurs in the text with "ё" read as "е", and no earlier colour has a form there; nothing is found exactly when no form of any colour occurs |
| NonDealerTexts.ColorNamesAreForms | app/handlers/non_dealer_choice.py:24-39 | each colour's name is its own first form |
| NonDealerTexts.ClampIndex | app/handlers/non_dealer_choice.py:225 | `max(0, min(idx, n - 1))` is an index of the list, equal to an index already in range, 0 below it and n - 1 above it |
| NonDealerTexts.TargetIndexRange | app/handlers/non_dealer_choice.py:270-286 | a referenced variant is at least -1, and an ordinal word refers to one of the first three offers |
| NonDealerTexts.VariantWordExample | app/handlers/non_dealer_choice.py:271-273 | "вариант 2" refers to the second offer |
| NonDealerTexts.NumberWordExample | app/handlers/non_dealer_choice.py:274-277 | "3 вариант" refers to the third offer, through the second pattern |
| NonDealerTexts.Bulleted | app/handlers/non_dealer_choice.py:319 | one dash line per discount |
| NonDealerTexts.DetailNamesCar | app/handlers/non_dealer_choice.py:321-322 | the car card opens with the brand, model and trim |
| NonDealerTexts.DetailShowsPrice | app/handlers/non_dealer_choice.py:313 | the car card shows the final price grouped in thousands |
| NonDealerTexts.WriteOverview | app/handlers/non_dealer_choice.py:334-349 | the numbered loop writes the overview of the cached offers |
| NonDealerTexts.OverviewListsEveryOffer | app/handlers/non_dealer_choice.py:335-346 | every cached offer appears in the overview under its number |
| NonDealerTexts.WriteOffers | app/handlers/non_dealer_choice.py:523-565 | the numbered loop writes the offers, the closing question and the personal prompt |
| NonDealerTexts.OffersListEveryOffer | app/handlers/non_dealer_choice.py:524-554 | every offer appears in the selection under its number |
| NonDealerChoiceHandler.HandleNonDealerChoice | app/handlers/non_dealer_choice.py:54-594 | the handler's stages in their order: the first one that answers decides the new state, record and messages |
| NonDealerChoiceHandler.FixRouting | app/handlers/non_dealer_choice.py:87-95 | a cached first offer of a dealer brand makes the record a new-car purchase of that brand |
| NonDealerChoiceHandler.GoToConfirm | app/handlers/non_dealer_choice.py:97-99 | the state becomes `confirm` and the summary is asked to be confirmed |
| NonDealerChoiceHandler.HandleEarly | app/handlers/non_dealer_choice.py:78-203 | the phone, "I gave my number", manager and service stages, in order |
| NonDealerChoiceHandler.HandlePhone | app/handlers/non_dealer_choice.py:78-100 | answers exactly when the message holds a phone number, as the phone stage says |
| NonDealerChoiceHandler.HandleGaveNumber | app/handlers/non_dealer_choice.py:106-129 | answers exactly when the message says a number was already given |
| NonDealerChoiceHandler.HandleManager | app/handlers/non_dealer_choice.py:131-167 | answers exactly when a manager, a booking or short consent is asked for |
| NonDealerChoiceHandler.HandleService | app/handlers/non_dealer_choice.py:169-203 | answers exactly when a service request comes without search filters |
| NonDealerChoiceHandler.StartRepairLead | app/handlers/non_dealer_choice.py:193-203 | a repair lead with the make found, asked for the kind of repair |
| NonDealerChoiceHandler.HandleFollowUp | app/handlers/non_dealer_choice.py:205-350 | the colour, "other colours" and variant stages, in order |
| NonDealerChoiceHandler.HandleColorModels | app/handlers/non_dealer_choice.py:205-215 | a colour question naming dealer models, without a price word, gets the colour overview |
| NonDealerChoiceHandler.HandleRequestedColor | app/handlers/non_dealer_choice.py:219-248 | a colour named answers for the selected or first cached offer, or with the delivery note |
| NonDealerChoiceHandler.HandleMoreColors | app/handlers/non_dealer_choice.py:250-267 | "other colours" answers for the selected offer, or with the order note while offers are cached |
| NonDealerChoiceHandler.AnswerMoreColors | app/handlers/non_dealer_choice.py:255-267 | the answer to "other colours" from the cached offers and the selection |
| NonDealerChoiceHandler.HandleVariant | app/handlers/non_dealer_choice.py:269-350 | a variant reference or a context question about the cached offers answers as the variant stage says |
| NonDealerChoiceHandler.AnswerVariant | app/handlers/non_dealer_choice.py:298-350 | the card of the offer referenced, or the overview of all offers for a context question |
| NonDealerChoiceHandler.HandleDirectModel | app/handlers/non_dealer_choice.py:352-361 | a dealer model named directly gets the model response and caches the five cheapest |
| NonDealerChoiceHandler.StructuralSearch | app/handlers/non_dealer_choice.py:412-424 | the catalogue's structural search, or nothing without a catalogue |
| NonDealerChoiceHandler.PerformSearch | app/handlers/non_dealer_choice.py:410-454 | the semantic search, with its embedding failure, unless forced, without an index, or filtered on transmission, gears or engine; otherwise the structural one |
| NonDealerChoiceHandler.FindCars | app/handlers/non_dealer_choice.py:456-476 | the search, then the widened structural search, then the brand pool; a first search that raises ends it with that failure |
| NonDealerChoiceHandler.SelectBrands | app/handlers/non_dealer_choice.py:366-383 | the brands to search; a dealer brand named becomes the target of a new-car purchase |
| NonDealerChoiceHandler.PriceFilters | app/handlers/non_dealer_choice.py:392-407 | the price ceiling, stored when set, and the floor of a "more expensive" request |
| NonDealerChoiceHandler.AnswerSearch | app/handlers/non_dealer_choice.py:505-594 | the numbered offers, or the two messages of an empty search, with the other-brand note when due |
| NonDealerChoiceHandler.AnswerOffers | app/handlers/non_dealer_choice.py:507-568 | one message: the note when due, the header and the numbered offers |
| NonDealerChoiceHandler.AnswerEmpty | app/handlers/non_dealer_choice.py:571-594 | the note and catalogue notice, or "nothing found", then the offer of a manager's help |
| NonDealerChoiceHandler.HandleSearch | app/handlers/non_dealer_choice.py:363-594 | the search stage: brands, price bounds, search, ranking, record and answer; a search that raises leaves only the brand and the ceiling stored |
| NonDealerChoiceHandler.SearchOffers | app/handlers/non_dealer_choice.py:366-494 | the three offers ranked from the cars found, or the search's failure; the brand and the ceiling are stored either way |
| NonDealerChoiceFacts.RoutingFixProperties | app/handlers/non_dealer_choice.py:87-95 | the routing fix touches only the intent, the target brand and, when asked, the other brand |
| NonDealerChoiceFacts.PhoneWins | app/handlers/non_dealer_choice.py:78-100 | a phone number in the message is stored normalised and the state becomes `confirm`, whatever else the message says |
| NonDealerChoiceFacts.GaveNumberUnknownPhone | app/handlers/non_dealer_choice.py:126-129 | "I already gave it" without a known phone asks for the number again in `collect_phone` and keeps the record |
| NonDealerChoiceFacts.ManagerDataProperties | app/handlers/non_dealer_choice.py:141-156 | a manager request keeps the phone; used-car words make it a used-car purchase of the other brand; otherwise the routing fix applies |
| NonDealerChoiceFacts.ManagerAnswer | app/handlers/non_dealer_choice.py:158-167 | without a phone the state becomes `collect_phone` with a request for it; with one, `confirm` |
| NonDealerChoiceFacts.ServiceLead | app/handlers/non_dealer_choice.py:169-203 | a service request becomes a repair lead in `collect_repair_type`, and a search query never does |
| NonDealerChoiceFacts.RequestedColorIndexInRange | app/handlers/non_dealer_choice.py:223-241 | the colour answer stores the index of a cached offer, whatever was stored before |
| NonDealerChoiceFacts.MoreColorsOnlyAnswers | app/handlers/non_dealer_choice.py:250-267 | "other colours" changes nothing but the messages and answers only while offers are cached |
| NonDealerChoiceFacts.VariantSelection | app/handlers/non_dealer_choice.py:298-350 | an in-range reference selects that offer and shows its card; a context question shows every offer and clears the selection; nothing else changes in the record |
| NonDealerChoiceFacts.CheapestFive | app/handlers/non_dealer_choice.py:357-360 | the cached models: at most five, cheapest first, all from the list |
| NonDealerChoiceFacts.DirectModelCache | app/handlers/non_dealer_choice.py:352-361 | a directly named model caches at most five cars, cheapest first, each a dealer model the text names |
| NonDealerChoiceFacts.SearchBrandsDealerOnly | app/handlers/non_dealer_choice.py:366-383 | the search is over a non-empty subset of the dealer's brands |
| NonDealerChoiceFacts.SearchedBrands | app/handlers/non_dealer_choice.py:410-454 | a first search that returns cars returns only cars of the brands searched, whichever engine answers |
| NonDealerChoiceFacts.CarsForBrands | app/handlers/non_dealer_choice.py:456-476 | every car the three attempts return is of a brand searched |
| NonDealerChoiceFacts.CarsForNonEmpty | app/handlers/non_dealer_choice.py:467-476 | while the catalogue holds a car of a brand searched, a search that does not raise finds something |
| NonDealerChoiceFacts.SearchRaisesIff | app/handlers/non_dealer_choice.py:410-454 | the search fails exactly when it goes to a built, non-empty vector index without transmission, gears or engine asked for, and the query embedding fails |
| NonDealerChoiceFacts.OffersProperties | app/handlers/non_dealer_choice.py:489-494 | the offers fail exactly when the search does; otherwise at most three, each of a brand searched, and some whenever the catalogue holds such a car |
| NonDealerChoiceFacts.SearchRecordProperties | app/handlers/non_dealer_choice.py:496-511 | the record caches the offers shown with no selection, keeps the ceiling and marks the note sent, so it is not due on the next turn |
| NonDealerChoiceFacts.SearchAnswerMessages | app/handlers/non_dealer_choice.py:505-594 | once the search has returned, the bot always answers: one message with offers, two without, and nothing else changes |
| NonDealerChoiceFacts.SearchFailureSilent | app/handlers/non_dealer_choice.py:395-431 | a search that raises ends the turn with no answer and the same state; only the brand and the price ceiling are stored |
| NonDealerChoiceFacts.NoticeOnlyWhenDue | app/handlers/non_dealer_choice.py:505-582 | the other-brand note goes out only while due; without it an empty search says "nothing found" |
| NonDealerChoiceFacts.PriceBounds | app/handlers/non_dealer_choice.py:392-407 | "more expensive" searches above the last ceiling; a ceiling exists exactly for a truthy price, is the price when exact and ten percent above it when approximate |
| DetectIntentHandler.SearchOn | app/handlers/detect_intent.py:83-85 | the state becomes `non_dealer_choice` with the record given, nothing is said, and the search handler takes the same message |
| DetectIntentHandler.HandleDetectIntent | app/handlers/detect_intent.py:22-584 | the stages in their order, then the search handler when a stage hands over |
| DetectIntentHandler.DetectTurn | app/handlers/detect_intent.py:37-584 | the pre-scan, the shortcuts, then classification and the branch of its intent |
| DetectIntentHandler.Conclude | app/handlers/detect_intent.py:84-465 | a hand-over runs the search handler on the same message; otherwise the turn is over |
| DetectIntentHandler.HandleShortcuts | app/handlers/detect_intent.py:52-143 | the named model, dealer search, purchase-word and search-query shortcuts, none of them while the pre-scan fires |
| DetectIntentHandler.HandleDirectModel | app/handlers/detect_intent.py:53-67 | a dealer model named directly gets the model response and a new-car purchase of the cheapest car's brand and model |
| DetectIntentHandler.SearchNow | app/handlers/detect_intent.py:139-143 | the state becomes `non_dealer_choice` and the search handler takes the message |
| DetectIntentHandler.HandleSmartSearch | app/handlers/detect_intent.py:71-85 | a dealer brand with a search, price or power word goes to the search as a new-car purchase of that brand |
| DetectIntentHandler.HandlePurchase | app/handlers/detect_intent.py:87-114 | a brand with a purchase word: the budget question for a dealer brand, the search for another one |
| DetectIntentHandler.HandleSearchQuery | app/handlers/detect_intent.py:116-143 | a search, price or power query goes to the search, with the other-brand note set up |
| DetectIntentHandler.ResetNotice | app/handlers/detect_intent.py:122-137 | the other brand and its note flag before a search |
| DetectIntentHandler.RefineResult | app/handlers/detect_intent.py:149-335 | the corrections to the classifier's result, applied in their order |
| DetectIntentHandler.SparesRule | app/handlers/detect_intent.py:189-207 | a part named without a replacement word makes a spares request with high confidence |
| DetectIntentHandler.OilRule | app/handlers/detect_intent.py:209-243 | an oil change makes a locksmith repair with its details and the car's make known |
| DetectIntentHandler.BuyFallbackRule | app/handlers/detect_intent.py:245-256 | purchase phrases make a new-car purchase of medium confidence unless the pre-scan fired |
| DetectIntentHandler.BuyWordRule | app/handlers/detect_intent.py:258-259 | "купить" or "покупка" turns "other" into a new-car purchase unless the pre-scan fired |
| DetectIntentHandler.ServiceRule | app/handlers/detect_intent.py:261-328 | the pre-scan or a repair word makes a repair, with the make found and the kind of repair classified |
| DetectIntentHandler.AccountingRule | app/handlers/detect_intent.py:330-335 | accounting words make an accounting request |
| DetectIntentHandler.ClassifyRepair | app/handlers/detect_intent.py:294-328 | bodywork first, then locksmith work, each setting the repair type and its details |
| DetectIntentHandler.ClassifyAndBranch | app/handlers/detect_intent.py:145-584 | classification, the corrected result stored, then the branch of its intent |
| DetectIntentHandler.StoreResult | app/handlers/detect_intent.py:364-404 | the record takes the result's intent, confidence and slots, and each brand it names |
| DetectIntentHandler.Branch | app/handlers/detect_intent.py:415-584 | the branch of the corrected intent |
| DetectIntentHandler.HandleNotBuy | app/handlers/detect_intent.py:419-584 | the intents other than purchases never hand over |
| DetectIntentHandler.HandleService | app/handlers/detect_intent.py:484-497 | repair, spares or sale: the make is asked for unless known, then the phone |
| DetectIntentHandler.AskPhoneOrConfirm | app/handlers/detect_intent.py:475-481 | with a phone the summary is confirmed, else the phone is asked for |
| DetectIntentHandler.HandleBuy | app/handlers/detect_intent.py:439-481 | a purchase: the search for another brand, the make or the stored car's make asked for, the budget for a dealer brand, else the phone |
| DetectIntentHandler.HandleOther | app/handlers/detect_intent.py:419-584 | "other": "buy or service?" with a brand, otherwise the retry rules |
| DetectIntentHandler.HandleRetry | app/handlers/detect_intent.py:509-584 | the third attempt gives up; before it the counter goes up and the bot asks again |
| DetectIntentHandler.AskAgain | app/handlers/detect_intent.py:556-584 | an ownership phrase asks about the car, otherwise the request to rephrase |
| DetectIntentHandler.GiveUpOrAskPhone | app/handlers/detect_intent.py:511-551 | the third attempt: the lead given up with a phone, else the phone asked for |
| DetectIntentHandler.AnswerOwnership | app/handlers/detect_intent.py:558-574 | the car owned is asked for when no make is known, else stored and asked about |
| DetectIntentHandler.GiveUp | app/handlers/detect_intent.py:515-544 | the fallback lead is saved and posted where that works, the apology sent and the dialogue finished |
| DetectIntentFacts.ServiceScanIff | app/handlers/detect_intent.py:39-50 | the pre-scan fires exactly when a service keyword occurs or "то" occurs as a whole word |
| DetectIntentFacts.ServiceSkipsShortcuts | app/handlers/detect_intent.py:53-119 | while the pre-scan fires no shortcut runs, and the turn is the classification |
| DetectIntentFacts.ShortcutOrder | app/handlers/detect_intent.py:52-143 | without the pre-scan the first shortcut that applies decides: named model, dealer search, purchase word, search query |
| DetectIntentFacts.ServiceForcesRepair | app/handlers/detect_intent.py:263-267 | a fired pre-scan makes the corrected intent a repair of medium confidence, whatever the earlier rules decided |
| DetectIntentFacts.FinishDone | app/handlers/detect_intent.py:22-584 | a turn that does not hand over is its outcome's snapshot |
| DetectIntentFacts.ServiceStepKeepsRecord | app/handlers/detect_intent.py:484-497 | the service branch keeps the record and moves to `collect_brand`, `collect_phone` or `confirm_final` |
| DetectIntentFacts.ServiceTurn | app/handlers/detect_intent.py:37-497 | a turn whose pre-scan fired does not hand over, stores a repair, and asks for the make or the phone, or confirms |
| DetectIntentFacts.DealerPurchase | app/handlers/detect_intent.py:91-103 | a dealer brand with a purchase word: a new-car purchase of that brand, the other brand cleared, and the budget question in `collect_specs` |
| DetectIntentFacts.NonDealerPurchase | app/handlers/detect_intent.py:104-114 | another brand with a purchase word: the search runs with that brand named and its note due |
| DetectIntentFacts.SearchNoticeFlag | app/handlers/detect_intent.py:122-137 | the note flag is re-armed by a new other brand, kept for the same one, and cleared with the brand otherwise |
| DetectIntentFacts.RepairSubtype | app/handlers/detect_intent.py:294-328 | bodywork words or a replaced body part give bodywork; otherwise locksmith words, "то" or a replacement give locksmith work |
| DetectIntentFacts.BrandCarryOver | app/handlers/detect_intent.py:372-402 | a brand is stored only when the result names one, and a service request without a make keeps the stored car |
| DetectIntentFacts.StoredRecord | app/handlers/detect_intent.py:364-403 | the record takes the result's intent, confidence and slots and keeps the phone, the name, the counter and the other brand |
| DetectIntentFacts.OtherWithBrand | app/handlers/detect_intent.py:419-437 | "other" with a brand asks "buy or service?" and stays, leaving the counter alone |
| DetectIntentFacts.OtherRetry | app/handlers/detect_intent.py:553-584 | before the third attempt the counter goes up by one and the state stays or becomes `collect_brand` |
| DetectIntentFacts.AskAgainShape | app/handlers/detect_intent.py:556-584 | asking again adds one message and stays or asks for the car |
| DetectIntentFacts.OtherGiveUpWithPhone | app/handlers/detect_intent.py:511-544 | on the third attempt with a phone the lead is saved and posted where that works, and the state becomes `finished` |
| DetectIntentFacts.GiveUpTail | app/handlers/detect_intent.py:527-542 | the saved lead only when saving works, the group post only when sending works, then the apology |
| DetectIntentFacts.OtherGiveUpWithoutPhone | app/handlers/detect_intent.py:546-551 | on the third attempt without a phone the intent becomes `fallback_other` and the phone is asked for |
| DetectIntentFacts.BuyDealerAsksBudget | app/handlers/detect_intent.py:471-473 | a new-car purchase of a dealer brand asks for the budget in `collect_specs` |
| DetectIntentFacts.ServiceAsksCar | app/handlers/detect_intent.py:484-486 | a service request without a make asks for the car in `collect_brand` |
| DetectIntentFacts.PhoneOrConfirmState | app/handlers/detect_intent.py:475-481 | the phone step leads to `confirm_final` with a known phone and to `collect_phone` otherwise |
| DetectIntentFacts.AccountingPhoneStep | app/handlers/detect_intent.py:499-505 | accounting goes to the phone step |
| DetectIntentFacts.ServicePhoneStep | app/handlers/detect_intent.py:488-496 | a service request with a make goes to the phone step, worded for service |
| DetectIntentFacts.UsedBuyPhoneStep | app/handlers/detect_intent.py:475-481 | a used-car purchase with a brand goes to the phone step |
| DetectIntentFacts.BuyNonDealerHandsOver | app/handlers/detect_intent.py:441-448 | a new-car purchase of another brand hands over to the search with that brand's note due |
| DetectIntentFacts.BuyProposesOwnBrand | app/handlers/detect_intent.py:450-459 | a purchase naming no brand by a user with a stored car proposes that car's make |
| ConfirmHandler.AskConfirm | app/handlers/confirm.py:31-87 | the summary is sent and the state becomes `confirm_final`; the record stays |
| ConfirmHandler.MaskNormalisedPhone | app/handlers/confirm.py:77-79 | a normalised twelve-character phone keeps its first and last four characters and shows four stars between them |
| ConfirmHandler.MaskShortPhone | app/handlers/confirm.py:78 | a phone of at most four characters appears whole on both sides of the stars |
| ConfirmHandler.SummaryShape | app/handlers/confirm.py:44-83 | the summary opens with the name and the intent phrase, names the brand next exactly when one is set, has the purchase or repair details for those intents, and ends with the phone question |
| ConfirmHandler.PhoneQuestionCases | app/handlers/confirm.py:77-81 | a known phone is shown masked in a question; without one the last part is a bare question mark |
| ConfirmHandler.BudgetTextExample | app/handlers/confirm.py:65-70 | 2 500 000 is shown as "до 2.5 млн" and 900 000 as "до 900,000 руб." |
| ConfirmHandler.OneDecimalExample | app/handlers/confirm.py:68 | two and a half million with one decimal is "2.5" |
| ConfirmHandler.GroupedExample | app/handlers/confirm.py:70 | 900 000 grouped in thousands is "900,000" |
| ConfirmHandler.DealerSpellingFrom | app/handlers/confirm.py:129-135 | the dealer brand spelt like the lead's brand up to case, or none exactly when no dealer brand is |
| ConfirmHandler.HandleFinalConfirm | app/handlers/confirm.py:90-213 | `handle_final_confirm` as the confirmation step states it, the routing that raises on a null repair type included |
| ConfirmHandler.GroupIdsStartWithDash | app/handlers/confirm.py:12-168 | every group a lead can be routed to has an id starting with "-", so the check before sending always passes |
| ConfirmHandler.RoutingBrandIgnoresCase | app/handlers/confirm.py:129-135 | any spelling of a dealer brand routes as the dealer's own spelling |
| ConfirmHandler.RoutingBrandKeepsOthers | app/handlers/confirm.py:129-135 | a brand that is no dealer brand up to case routes unchanged |
| ConfirmHandler.PurchaseRouting | app/handlers/confirm.py:139-147 | new cars of a dealer brand go to that brand's group, every other purchase to the used-car group |
| ConfirmHandler.FixedRouting | app/handlers/confirm.py:148-165 | fallback leads go to the general group, accounting to accounting, sale and other requests nowhere |
| ConfirmHandler.ServiceRouting | app/handlers/confirm.py:150-163 | once routing gets past the repair type, bodywork goes to the bodywork group whatever the brand; other repairs and parts go to the Chery departments exactly when the brand holds a Chery-ecosystem name |
| ConfirmHandler.EcosystemSubstring | app/handlers/confirm.py:151-160 | the ecosystem test is a substring test: a brand containing "omoda" in any case belongs to it |
| ConfirmHandler.PositiveAnswerOutcome | app/handlers/confirm.py:99-179 | a positive word wins and keeps the record; the lead file entry is there exactly when saving works; unless the routing raises, the group post follows exactly when sending works and the dialogue ends with the reassurance; when it raises, nothing more is sent and the state stays |
| ConfirmHandler.GroupPostWhenRouted | app/handlers/confirm.py:167-175 | once routing has not raised, the lead is posted to its group exactly when it has one and sending works, as the lead card |
| ConfirmHandler.ConfirmedLeadReachesGroup | app/handlers/confirm.py:125-173 | every confirmed lead with a group is posted there, with the lead card, when sending works, unless the routing raises; then only the lead file entry is written |
| ConfirmHandler.CorrectionRewritesBrands | app/handlers/confirm.py:181-196 | without a positive word a different brand found is a correction: both brand fields take it, the note is re-armed and the corrected summary is shown |
| ConfirmHandler.NegativeAndUnclear | app/handlers/confirm.py:198-213 | a negative answer naming the number goes back to `collect_phone`, any other negative answer finishes, and anything else asks again with state and record unchanged |
| ConfirmHandler.OnlyPositiveSendsLeads | app/handlers/confirm.py:99-213 | only a positive answer saves or posts anything |
| ConfirmHandler.SummaryDetailsOnlyForPurchaseAndRepair | app/handlers/confirm.py:62-81 | for every intent but the purchases and repair the summary is name, intent phrase, the brand when set, and the phone question |
| CollectSpecsHandler.JoinGroupsFrom | app/handlers/collect_specs.py:71 | joining digit groups from position `i` never lengthens the text |
| CollectSpecsHandler.JoinGroups | app/handlers/collect_specs.py:71 | joining digit groups never lengthens the text |
| CollectSpecsHandler.FirstLarge | app/handlers/collect_specs.py:73-77 | a number is found exactly when some number exceeds 100 000, and it is at least 100 000 and the integer part of the first such number |
| CollectSpecsHandler.ParseBudget | app/handlers/collect_specs.py:56-77 | a found budget of zero can only be a million amount with a non-zero float below one rouble, since any other zero is falsy in Python |
| CollectSpecsHandler.FirstLargeNumber | app/handlers/collect_specs.py:73-77 | the loop stops at the first number above 100 000 |
| CollectSpecsHandler.ReadBudget | app/handlers/collect_specs.py:56-82 | the budget read step by step, with the truth test on the float, is the budget parsed |
| CollectSpecsHandler.WithBudget | app/handlers/collect_specs.py:80-89 | a budget found is stored and resets the counter; a failed answer keeps the slots and counts only while no budget is stored; nothing else changes |
| CollectSpecsHandler.BodyChoice | app/handlers/collect_specs.py:103-111 | an indifference phrase gives "любой", otherwise the first body category named |
| CollectSpecsHandler.Update | app/handlers/collect_specs.py:108-122 | a new value replaces the slot; no new value keeps it |
| CollectSpecsHandler.Collected | app/handlers/collect_specs.py:133-137 | the second failure without a budget sets the unlimited budget; otherwise the parsed record |
| CollectSpecsHandler.BuildSearchText | app/handlers/collect_specs.py:151-164 | the query assembled part by part |
| CollectSpecsHandler.ParseAnswer | app/handlers/collect_specs.py:52-126 | budget, counter, body and drive saved; the counter returned |
| CollectSpecsHandler.ReadSpecs | app/handlers/collect_specs.py:103-122 | body and drive read from the text |
| CollectSpecsHandler.SpecsTurn | app/handlers/collect_specs.py:31-180 | the turn up to its hand-over |
| CollectSpecsHandler.HandleCollectSpecs | app/handlers/collect_specs.py:18-180 | the turn, then the handler it hands over to |
| CollectSpecsFacts.EscapeHatch | app/handlers/collect_specs.py:42-50 | a question without digits, or a brand, hands the unchanged record to the intent handler |
| CollectSpecsFacts.DigitsKeepAnswer | app/handlers/collect_specs.py:45 | a question word next to a digit is an answer unless a brand is named |
| CollectSpecsFacts.SkipWordUnlimited | app/handlers/collect_specs.py:59-61 | a skip word gives the budget of 100 000 000 |
| CollectSpecsFacts.MillionAmountWins | app/handlers/collect_specs.py:64-83 | without a skip word a million amount with a non-zero float is the budget, even below one rouble, and a zero float gives none; an amount of a rouble or more is always the budget |
| CollectSpecsFacts.SubRoubleExample | app/handlers/collect_specs.py:66-68 | "0,0000001 млн" scales to zero roubles but has a non-zero float, so it is a budget of 0 |
| CollectSpecsFacts.BareNumberBudget | app/handlers/collect_specs.py:69-77 | otherwise a budget is found exactly when some number of the joined text exceeds 100 000, and it is the first one |
| CollectSpecsFacts.GroupedBudgetExample | app/handlers/collect_specs.py:70-77 | "2 500 000 рублей" is read as 2 500 000 |
| CollectSpecsFacts.BudgetResetsRetry | app/handlers/collect_specs.py:82-85 | a found budget is stored and resets the counter |
| CollectSpecsFacts.FailedAttemptCounts | app/handlers/collect_specs.py:86-89 | a failed answer counts an attempt only while no budget is stored |
| CollectSpecsFacts.SecondFailureDefaults | app/handlers/collect_specs.py:133-137 | the second failure without a budget sets the unlimited budget |
| CollectSpecsFacts.FirstFailureAsksAgain | app/handlers/collect_specs.py:176-180 | the first failure without a budget asks for it again and stays, with the counter at one |
| CollectSpecsFacts.IndifferentBody | app/handlers/collect_specs.py:105-106 | an indifference phrase makes the body "любой" whatever else is named |
| CollectSpecsFacts.UnmatchedKeepsSlots | app/handlers/collect_specs.py:107-122 | a text naming no body and no drive leaves both slots |
| CollectSpecsFacts.MatchedSetsSlots | app/handlers/collect_specs.py:107-122 | a named body or drive is the first category of its table with a keyword in the text |
| CollectSpecsFacts.NextSteps | app/handlers/collect_specs.py:139-180 | a turn that does not escape asks for the body, searches, or asks for the budget |
| CollectSpecsFacts.StaysWhenAsking | app/handlers/collect_specs.py:141-180 | a question keeps the state and adds one message |
| CollectSpecsFacts.UnlimitedQueryNamesBrand | app/handlers/collect_specs.py:151-164 | any body, no drive and the unlimited budget give a query naming only the target brand |
| CollectSpecsFacts.SedanQueryExample | app/handlers/collect_specs.py:151-164 | a sedan up to 2 500 000 for Haval gives "седан до 2500000 рублей Haval" |
| CollectPhoneHandler.StorePhone | app/handlers/collect_phone.py:31-78 | the phone is stored, the counter reset and the summary shown in `confirm_final` |
| CollectPhoneHandler.CountFailure | app/handlers/collect_phone.py:99-110 | the counter goes up; the third failure finishes the dialogue |
| CollectPhoneHandler.PhoneTurn | app/handlers/collect_phone.py:25-110 | the turn up to its hand-over |
| CollectPhoneHandler.HandleCollectPhone | app/handlers/collect_phone.py:14-110 | the turn, then the intent handler when it hands over |
| CollectPhoneFacts.ContactCaptured | app/handlers/collect_phone.py:26-41 | a shared contact with a readable number is stored normalised, the counter reset and the summary shown |
| CollectPhoneFacts.ContactUnreadable | app/handlers/collect_phone.py:42-44 | an unreadable contact changes nothing but the reply and counts no attempt |
| CollectPhoneFacts.AlreadyGivenPath | app/handlers/collect_phone.py:50-64 | "I gave it already" confirms with the stored phone or asks for it; the counter stays |
| CollectPhoneFacts.TextCaptured | app/handlers/collect_phone.py:66-79 | a written phone is stored in normal form, the counter reset and the summary shown |
| CollectPhoneFacts.QueryRedirect | app/handlers/collect_phone.py:81-97 | a new request goes to the intent handler without the catalogue, nothing stored or counted, and it has fewer than seven digits |
| CollectPhoneFacts.DigitsAreAttempts | app/handlers/collect_phone.py:82-92 | seven or more digits that make no phone count as a failed attempt, never as a request |
| CollectPhoneFacts.FailedAttempt | app/handlers/collect_phone.py:99-110 | a failed attempt adds one to the counter; the third ends the dialogue in `finished`, earlier ones stay |
| CollectPhoneFacts.AttemptIff | app/handlers/collect_phone.py:26-99 | exactly the texts that are no phone, no "I gave it" and no request count an attempt |
| CollectPhoneFacts.PhoneAndCounter | app/handlers/collect_phone.py:31-104 | each turn keeps the phone and keeps or increments the counter, or stores a normalised phone and resets the counter |
| CollectPhoneFacts.YoIsNotRussianLetter | app/handlers/collect_phone.py:87 | the class `[а-яА-Я]` does not contain "ё" |
| CollectRepairTypeHandler.Classify | app/handlers/collect_repair_type.py:117-122 | a type is found exactly when the reply has a mechanical or a bodywork word, and it is one of the two types |
| CollectRepairTypeHandler.GoToPhone | app/handlers/collect_repair_type.py:74-83 | with a phone the summary is confirmed, else the phone is asked for |
| CollectRepairTypeHandler.AnswerCarQuestion | app/handlers/collect_repair_type.py:70-115 | the yes/no answer about the car, as the confirmation step says |
| CollectRepairTypeHandler.ClassifyReply | app/handlers/collect_repair_type.py:117-142 | the classified reply, as the classification step says |
| CollectRepairTypeHandler.RepairTurn | app/handlers/collect_repair_type.py:31-142 | the turn up to its hand-over |
| CollectRepairTypeHandler.HandleCollectRepairType | app/handlers/collect_repair_type.py:19-142 | the turn, then the intent handler when it hands over |
| CollectRepairTypeFacts.ToPhoneState | app/handlers/collect_repair_type.py:74-83 | the phone step shows the summary exactly when a phone is known, changes no data, and otherwise sends the one request |
| CollectRepairTypeFacts.EscapeDropsIntent | app/handlers/collect_repair_type.py:36-44 | a purchase after all drops the intent and hands the message to the intent handler with the catalogue |
| CollectRepairTypeFacts.PresetTypeAsksAboutCar | app/handlers/collect_repair_type.py:46-67 | a stored repair type asks about the car, raises the waiting flag and stays, whatever the reply |
| CollectRepairTypeFacts.CarQuestionNamesCar | app/handlers/collect_repair_type.py:55-65 | the question template contains the stored car and the repair details ("None" for a null one) |
| CollectRepairTypeFacts.ConfirmationClearsFlag | app/handlers/collect_repair_type.py:69-115 | the yes/no answer clears the waiting flag, takes a brand named in a non-"yes" reply as the car, keeps the rest and goes to the phone |
| CollectRepairTypeFacts.LocksmithFirst | app/handlers/collect_repair_type.py:119-122 | a reply with words of both kinds is mechanical |
| CollectRepairTypeFacts.BodyworkIff | app/handlers/collect_repair_type.py:119-122 | a reply is bodywork exactly when it has a bodywork word and no mechanical word |
| CollectRepairTypeFacts.WhatReadsAsService | app/handlers/collect_repair_type.py:119 | "то" is matched as a substring, so any reply containing "что" is mechanical |
| CollectRepairTypeFacts.ClassifiedGoesOn | app/handlers/collect_repair_type.py:124-140 | a classified reply stores the type and goes to the phone; nothing else changes |
| CollectRepairTypeFacts.UnclassifiedAsksAgain | app/handlers/collect_repair_type.py:141-142 | an unclassified reply asks again and changes nothing else |
| CollectRepairTypeFacts.KeepsIntentAndContacts | app/handlers/collect_repair_type.py:46-142 | outside the escape hatch the intent, phone and name are untouched |
| CollectBrandHandler.ReadPurchaseType | app/handlers/collect_brand.py:34-49 | the purchase type read from the reply while the purchase flag is raised |
| CollectBrandHandler.SlotBrand | app/handlers/collect_brand.py:24-59 | the record after the reply: purchase type, the make found in the right field, the raw model |
| CollectBrandHandler.OfferDealers | app/handlers/collect_brand.py:68-81 | the make is kept as the one not sold here, the state becomes `non_dealer_choice` and the dealer's makes are offered |
| CollectBrandHandler.RouteBuy | app/handlers/collect_brand.py:62-88 | no make asks again; another make for a new car offers the dealer's; otherwise the budget, then the phone |
| CollectBrandHandler.RouteService | app/handlers/collect_brand.py:90-110 | no make asks again; a repair without a type asks for it; otherwise the phone |
| CollectBrandHandler.HandleCollectBrand | app/handlers/collect_brand.py:11-110 | the record after the reply, then the route of its intent |
| CollectBrandFacts.PurchaseFlagDecides | app/handlers/collect_brand.py:35-49 | with the purchase flag the intent becomes a purchase, used only on used-car words without new-car words, and the flag is lowered |
| CollectBrandFacts.NoFlagKeepsIntent | app/handlers/collect_brand.py:35 | without the flag the record is kept |
| CollectBrandFacts.BrandSlotting | app/handlers/collect_brand.py:51-59 | the make found, even none, becomes the car wanted for a purchase and the car owned for repair, spares and sale; the reply is kept as the raw model; nothing else but the purchase type changes |
| CollectBrandFacts.MissingBrandStays | app/handlers/collect_brand.py:63-106 | without a make the state stays and the bot asks again, for every intent it answers |
| CollectBrandFacts.BuyOtherMake | app/handlers/collect_brand.py:68-81 | a new car of another make notes the make and offers the dealer's makes |
| CollectBrandFacts.BuyDealerOrUsed | app/handlers/collect_brand.py:82-88 | a dealer make or a used car asks for the budget unless known, then for the phone |
| CollectBrandFacts.ServiceRouting | app/handlers/collect_brand.py:90-110 | a repair without a type asks for it; a repair with one, spares and sale ask for the phone |
| CollectBrandFacts.OtherIntentSilent | app/handlers/collect_brand.py:52-62 | other intents get no reply and no transition, only the stored record |
| CollectBrandFacts.NoticeNamesMake | app/handlers/collect_brand.py:75-81 | the notice template contains the make it cannot offer |
| CollectBrandFacts.NextStates | app/handlers/collect_brand.py:62-110 | every turn ends in a state the handler can choose or where it was |
| StartHandler.NonEmpty | app/handlers/start.py:64 | `tail or None`: a value exactly for a non-empty part, and that part |
| StartHandler.SplitName | app/handlers/start.py:50-72 | the loop over the separators gives the name and the request the split defines |
| StartHandler.Clear | app/handlers/start.py:22 | no state and an empty record; what was sent stays sent |
| StartHandler.CmdStart | app/handlers/start.py:17-27 | the record is emptied, the state becomes `greeting` and the welcome is sent |
| StartHandler.GreetingTurn | app/handlers/start.py:100-116 | the greeting up to its hand-over |
| StartHandler.HandleGreeting | app/handlers/start.py:88-116 | the greeting, then the intent handler on the request |
| StartHandler.FinishedTurn | app/handlers/start.py:131-152 | the finished state up to its hand-over |
| StartHandler.HandleFinished | app/handlers/start.py:119-155 | the finished state, then the intent handler |
| StartFacts.QueryTestIsRedundant | app/handlers/start.py:56-64 | the query test of line 61 never changes the split, so it does not depend on the brand matcher |
| StartFacts.SplitAtIsPlain | app/handlers/start.py:57-64 | one separator splits exactly when it occurs with a non-empty stripped part before it |
| StartFacts.SplitIffSomeSeparator | app/handlers/start.py:56-64 | the text splits at a separator exactly when some separator occurs with a non-empty part before it |
| StartFacts.FirstSplittingSeparator | app/handlers/start.py:55-64 | the split is at the first separator in the list's order that has a non-empty part before it |
| StartFacts.BlankInput | app/handlers/start.py:51-53 | blank input gives no name and no request |
| StartFacts.FirstWordRule | app/handlers/start.py:66-72 | with no splitting separator the first word is the name only when the rest reads as a request; otherwise the whole text is |
| StartFacts.NameCommaRequest | app/handlers/start.py:55-64 | "name, request" gives the name and the stripped request |
| StartFacts.RomanExample | app/handlers/start.py:50-64 | "Роман, хочу купить ФВ Тигуан" gives "Роман" and "хочу купить ФВ Тигуан" |
| StartFacts.RomanRequestIsQuery | app/handlers/start.py:75-78 | "хочу купить ФВ Тигуан" reads as a request |
| StartFacts.StartResets | app/handlers/start.py:17-27 | `/start` forgets everything, goes to `greeting` and greets |
| StartFacts.GreetingWithoutName | app/handlers/start.py:100-103 | no name asks for it and changes nothing else |
| StartFacts.GreetingWithName | app/handlers/start.py:105-116 | a name is stored stripped and the state becomes `detect_intent`; a request goes to the intent handler with the catalogue, otherwise the menu question is asked |
| StartFacts.GreetingForwardsRequest | app/handlers/start.py:100-114 | a name and a request in one message store the name and forward the stripped request |
| StartFacts.RomanGreeting | app/handlers/start.py:100-114 | "Роман, хочу купить ФВ Тигуан" stores "Роман" and forwards the request |
| StartFacts.FinishedStartsOver | app/handlers/start.py:137-155 | after the end of a dialogue any text but `/start` starts a new request keeping only a truthy name and phone |
| StartFacts.FinishedRestart | app/handlers/start.py:131-135 | `/start` in `finished` does what `cmd_start` does |
| Dispatch.Deliver | app/loader.py:136-144 | the routers in their order: `/start` and `/id` first, then the handler of the current state |
| DispatchFacts.StartEverywhere | app/handlers/start.py:17-27 | `/start` in every state empties the record, goes to `greeting` and greets |
| DispatchFacts.IdEverywhere | app/handlers/start.py:30-41 | `/id` in every state answers the chat id and keeps state and record |
| DispatchFacts.NoStateNoAnswer | app/loader.py:136-144 | with no state set a message that is no command changes nothing |
| DispatchFacts.FinishedNeverSeesStart | app/handlers/start.py:17-135 | the `/start` branch of `handle_finished` is never reached, so every message it sees starts a new request |
| DispatchFacts.RomanOpensDialogue | app/handlers/start.py:17-114 | `/start` then "Роман, хочу купить ФВ Тигуан" stores the name and forwards the request to the intent handler |
| Session.WithoutCatalog | app/handlers/collect_phone.py:96 | the intent handler called without the catalogue and the index is still a valid environment |
| Session.OrElse | app/handlers/confirm.py:44 | `a or b` is truthy exactly when one of them is |
| Session.Conversation.constructor | app/loader.py:74-75 | a new user has no state, an empty record and no messages |
| Session.Conversation.Answer | app/handlers/start.py:27 | `message.answer` adds one message and changes nothing else |
| Session.Conversation.SetState | app/handlers/start.py:23 | `set_state` changes only the state |
| Session.Conversation.Send | app/handlers/confirm.py:120-170 | a saved lead or a group post is one more record in the outbox |
| Session.RequestPhone | app/handlers/collect_brand.py:86-88 | the state becomes `collect_phone` and the phone is asked for by name |
| Handoff.DetectEnv | app/handlers/start.py:113 | the intent handler gets the full environment, or one without catalogue and index |
| Handoff.Continue | app/handlers/start.py:113 | the hand-over a handler ended with runs the next handler on the conversation it left |

## Left out

- app/utils/brand_matcher.py is not part of this model. `find_brand` is an uninterpreted function in `Env`, and a result the source would treat as false (an empty string) counts as no make.
- The LLM client (GigaChat), its prompts, the embeddings and the FAISS index are network calls and float vectors. The classifier's answer, the vector-search candidates and whether embedding the query succeeds are inputs.
- Loading the catalogue from the spreadsheet and computing its prices, and the start-up wiring (loader, main, config, logging), are left out. The catalogue is a given sequence of cars.
- Floating-point factors are integer arithmetic:
  - the power tolerance is `10 * power >= 9 * power_min`;
  - the 1.2 price band, the 1.10, 1.15, 0.9 and 0.8 factors of the degrade ladder, and "2,5 млн" are exact rationals truncated to integers.
  - Python floats could differ from these at the last unit.
- The `.1f` budget display of the confirmation summary is integer tenths of a million, rounded half up. Python's float rounding could differ on an exact half.
- Regular expressions are explicit scanners:
  - `\d` is the ASCII digits `0`-`9`;
  - `\s`, `split()` and `strip()` treat as whitespace exactly space, tab, line feed, carriage return, vertical tab (U+000B), form feed (U+000C) and no-break space (U+00A0); other Unicode spaces are not whitespace here;
  - `\w` and `\b` use ASCII letters, digits, `_` and Cyrillic letters;
  - `lower()` folds only ASCII and Cyrillic letters.
- Telegram I/O is recorded in the outbox:
  - answers, group posts and lead saves are outbox records;
  - an exception raised by Telegram or by the lead file is a flag of `Env` (`saveOk`, `sendOk`);
  - logging is left out.
- The lead file's JSON format, the inactivity scheduler, the activity middleware and their timers are left out.
- The `chat.id` answered to `/id` is a parameter of the turn.
- Slot values are typed: text, or an integer for the budget. A key holding null is recorded in `Dto.Slots.nulls`; a classifier slot of any other JSON type is not modelled.
- The FSM storage copies the record shallowly, so the nested `slots` dictionary is shared. The model takes a slot written after `set_data` as persisting, as it does in memory storage.
- DetectIntentHandler.HandleDetectIntent: the spare-parts block of app/handlers/detect_intent.py:337-362 computes nothing that is used later, so it is not modelled.
- `collect_phone` hands its message to `detect_intent` without the catalogue or the semantic index. The model does the same.
- `handle_finished` is never reached with `/start`, because `cmd_start` answers `/start` in every state first (`DispatchFacts.FinishedNeverSeesStart`). The branch is modelled but unreachable.
- CollectSpecsHandler.ParseBudget: its own contract says only when a found budget can be zero. What it reads is stated in the `CollectSpecsFacts` lemmas. The million amount's float is decided exactly, so a fraction with hundreds of leading zeros, which Python's float turns into zero, and a number too large for a float, on which `int` raises, are not modelled.

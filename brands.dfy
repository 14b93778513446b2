/**
 * The dealer's brands and the brand matcher. The matcher's source is not part
 * of this model: it is a parameter, an arbitrary function from the message
 * text to an optional brand name.
 */
module Brands {
  import opened Wrappers
  import Text

  type BrandFinder = string -> Option<string>

  /** The brands the dealer sells new. */
  const DealerBrands: set<string> := {"Chery", "Jetour", "Haval"}

  /** The same three names in the order the bot lists them. */
  const DealerBrandList: seq<string> := ["Chery", "Jetour", "Haval"]

  lemma DealerBrandListIsTheSet()
    ensures forall b :: b in DealerBrandList <==> b in DealerBrands
  {
  }

  /** Python truthiness of an optional string: present and non-empty. */
  predicate Truthy(s: Option<string>) { s.Some? && s.value != "" }

  /**
   * The brand the matcher finds, with an empty name read as "no brand", the
   * way every `if brand:` test of the handlers reads it.
   */
  function FindBrand(finder: BrandFinder, text: string): (r: Option<string>)
    ensures r.Some? ==> r.value != [] && finder(text) == r
    ensures r.None? <==> !Truthy(finder(text))
  {
    match finder(text)
    case Some(b) => if b == "" then None else Some(b)
    case None => None
  }

  predicate IsDealer(b: Option<string>) { b.Some? && b.value in DealerBrands }

  /** A brand that is set but is not one of the dealer's. */
  predicate IsNonDealer(b: Option<string>) { Truthy(b) && b.value !in DealerBrands }
}

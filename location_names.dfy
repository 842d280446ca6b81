/** Canonicalisation of transaction location names (`canonicalizeLocationName` in
    `src/lib/normalize.ts`). */
module LocationNames {
  import opened Wrappers
  import opened Strings
  import opened Types

  /** The keywords of administrative and non-dining locations: print credit, the card office,
      deposits. */
  const ExcludedKeywords: seq<string> := ["papercut", "dining services", "deposit", "get location", "card services"]

  /** Administrative and non-dining locations: the name contains one of the keywords. */
  function IsExcluded(name: string): (r: bool)
    ensures r <==> exists k :: 0 <= k < |ExcludedKeywords| && Contains(name, ExcludedKeywords[k])
  {
    assert ExcludedKeywords[0] == "papercut" && ExcludedKeywords[1] == "dining services";
    assert ExcludedKeywords[2] == "deposit" && ExcludedKeywords[3] == "get location";
    assert ExcludedKeywords[4] == "card services";
    || Contains(name, "papercut")
    || Contains(name, "dining services")
    || Contains(name, "deposit")
    || Contains(name, "get location")
    || Contains(name, "card services")
  }

  /** The keyword tests of the mapping table, in the order they are tried. */
  predicate IsBlendExpress(name: string) { Contains(name, "blend express") || Contains(name, "blendexpress") }
  predicate IsBlend(name: string) { Contains(name, "blend") && !Contains(name, "express") }
  predicate IsEmporium(name: string) { Contains(name, "emporium") }
  predicate IsArtStreet(name: string) { Contains(name, "art street") || Contains(name, "artstreet") }
  predicate IsToss(name: string) { Contains(name, "toss") }
  predicate IsFlyBy(name: string) { Contains(name, "fly by") || Contains(name, "flyby") }
  predicate IsHeritage(name: string) { Contains(name, "heritage") }
  predicate IsMarycrest(name: string) { Contains(name, "marycrest") }
  predicate IsVwk(name: string) { Contains(name, "vwk") || Contains(name, "virginia") }
  predicate IsAuBonPain(name: string)
  {
    Contains(name, "aubonpain") || Contains(name, "au bon pain") || Contains(name, "abp")
  }
  predicate IsLanding(name: string) { Contains(name, "landing") }
  predicate IsQue(name: string) { Contains(name, "que") }
  predicate IsSpice(name: string) { Contains(name, "spice") }
  predicate IsChill(name: string) { Contains(name, "thechill") || Contains(name, "the chill") }
  predicate IsBistro(name: string) { Contains(name, "bistro") }

  predicate MatchesSomeRule(name: string)
  {
    || IsBlendExpress(name) || IsBlend(name) || IsEmporium(name) || IsArtStreet(name)
    || IsToss(name) || IsFlyBy(name) || IsHeritage(name) || IsMarycrest(name) || IsVwk(name)
    || IsAuBonPain(name) || IsLanding(name) || IsQue(name) || IsSpice(name) || IsChill(name)
    || IsBistro(name)
  }

  const CanonicalNames: set<string> := {
    "The Blend Express", "The Blend", "The Emporium", "ArtStreet Caf\U{00E9}", "Toss", "Fly By",
    "Heritage Coffeehouse", "Marycrest", "VWK", "Au Bon Pain", "Stu\U{2019}s Landing",
    "\U{2018}Que", "Spice", "The CHILL", "Brown Street Bistro"
  }

  /** The ordered mapping table applied to the lower-cased `name`; the first rule that matches
      gives the display name, and a name no rule matches keeps its original spelling. */
  function MappedName(rawName: string, name: string): (r: string)
    ensures r == rawName || r in CanonicalNames
    ensures !MatchesSomeRule(name) ==> r == rawName
  {
    if IsBlendExpress(name) then "The Blend Express"
    else if IsBlend(name) then "The Blend"
    else if IsEmporium(name) then "The Emporium"
    else if IsArtStreet(name) then "ArtStreet Caf\U{00E9}"
    else if IsToss(name) then "Toss"
    else if IsFlyBy(name) then "Fly By"
    else if IsHeritage(name) then "Heritage Coffeehouse"
    else if IsMarycrest(name) then "Marycrest"
    else if IsVwk(name) then "VWK"
    else if IsAuBonPain(name) then "Au Bon Pain"
    else if IsLanding(name) then "Stu\U{2019}s Landing"
    else if IsQue(name) then "\U{2018}Que"
    else if IsSpice(name) then "Spice"
    else if IsChill(name) then "The CHILL"
    else if IsBistro(name) then "Brown Street Bistro"
    else rawName
  }

  /** `canonicalizeLocationName`: `None` stands for the `null` that excludes a record. */
  function Canonicalize(rawName: string): (r: Option<string>)
    ensures r.None? <==> rawName == "" || IsExcluded(Lower(rawName))
    ensures r.Some? ==> r.value != ""
    ensures r.Some? && !MatchesSomeRule(Lower(rawName)) ==> r.value == rawName
  {
    if rawName == "" then None
    else
      var name := Lower(rawName);
      if IsExcluded(name) then None
      else Some(MappedName(rawName, name))
  }

  /** A name that mentions an excluded keyword, in any mix of ASCII letter cases, is dropped. */
  lemma ExcludedInAnyCase(rawName: string, w: string, k: nat)
    requires k < |ExcludedKeywords| && Lower(w) == ExcludedKeywords[k]
    requires Contains(rawName, w)
    ensures Canonicalize(rawName) == None
  {
    ContainsLowered(rawName, w);
  }

  /** The two Blend names in lower case. */
  lemma LowerBlendNames()
    ensures Lower("The Blend Express") == "the blend express"
    ensures Lower("The Blend") == "the blend"
  {
  }

  /** The more specific "blend express" rule is tried before the plain "blend" rule. */
  lemma BlendExpressBeforeBlend(rawName: string)
    requires !IsExcluded(Lower(rawName))
    requires Contains(Lower(rawName), "blend express")
    ensures Canonicalize(rawName) == Some("The Blend Express")
  {
  }

  /** A name that mentions "blend" and "express" but neither "blend express" nor "blendexpress"
      is not "The Blend": both of the first two rules fail and the later rules decide. */
  lemma BlendWithApartExpressIsNotTheBlend(rawName: string)
    requires !IsExcluded(Lower(rawName))
    requires Contains(Lower(rawName), "blend") && Contains(Lower(rawName), "express")
    requires !IsBlendExpress(Lower(rawName))
    ensures Canonicalize(rawName).Some?
    ensures Canonicalize(rawName).value != "The Blend"
    ensures Canonicalize(rawName).value != "The Blend Express"
  {
    LowerBlendNames();
    assert OccursAt("the blend express", "blend express", 4);
    NotContainsByChar("the blend", "express", 1);
  }
}

/** Every display name the mapping table produces maps to itself: it passes every exclusion,
    fails every earlier rule and matches its own one. Each group of `includes` tests is refuted
    in a lemma of its own to keep the proofs small. */
module CanonicalFixedPoints {
  import opened Wrappers
  import opened Strings
  import opened LocationNames

  lemma BlendExpressSkipsEarlierTests()
    ensures !IsExcluded("the blend express")
  {
    NotContainsByChar("the blend express", "papercut", 1);
    NotContainsByChar("the blend express", "dining services", 1);
    NotContainsByChar("the blend express", "deposit", 3);
    NotContainsByChar("the blend express", "get location", 0);
    NotContainsByChar("the blend express", "card services", 0);
  }

  lemma BlendExpressIsCanonical()
    ensures Canonicalize("The Blend Express") == Some("The Blend Express")
  {
    LowerBlendNames();
    BlendExpressSkipsEarlierTests();
    assert OccursAt("the blend express", "blend express", 4);
  }

  lemma BlendSkipsEarlierTests()
    ensures !IsExcluded("the blend") && !IsBlendExpress("the blend")
  {
    NotContainsByChar("the blend", "papercut", 0);
    NotContainsByChar("the blend", "deposit", 2);
  }

  lemma BlendIsCanonical()
    ensures Canonicalize("The Blend") == Some("The Blend")
  {
    LowerBlendNames();
    BlendSkipsEarlierTests();
    NotContainsByChar("the blend", "express", 1);
    assert OccursAt("the blend", "blend", 4);
  }

  lemma EmporiumSkipsEarlierTests()
    ensures !IsExcluded("the emporium") && !IsBlendExpress("the emporium") && !IsBlend("the emporium")
  {
    NotContainsByChar("the emporium", "papercut", 1);
    NotContainsByChar("the emporium", "deposit", 0);
    NotContainsByChar("the emporium", "get location", 0);
    NotContainsByChar("the emporium", "blendexpress", 0);
    NotContainsByChar("the emporium", "blend", 0);
  }

  lemma EmporiumIsCanonical()
    ensures Canonicalize("The Emporium") == Some("The Emporium")
  {
    assert Lower("The Emporium") == "the emporium";
    EmporiumSkipsEarlierTests();
    assert OccursAt("the emporium", "emporium", 4);
  }

  lemma ArtStreetSkipsEarlierTests1()
    ensures !IsExcluded("artstreet caf\U{00E9}") && !IsBlendExpress("artstreet caf\U{00E9}")
  {
    NotContainsByChar("artstreet caf\U{00E9}", "papercut", 0);
    NotContainsByChar("artstreet caf\U{00E9}", "deposit", 0);
    NotContainsByChar("artstreet caf\U{00E9}", "get location", 0);
    NotContainsByChar("artstreet caf\U{00E9}", "card services", 3);
    NotContainsByChar("artstreet caf\U{00E9}", "blend express", 0);
    NotContainsByChar("artstreet caf\U{00E9}", "blendexpress", 0);
  }

  lemma ArtStreetSkipsEarlierTests2()
    ensures !IsBlend("artstreet caf\U{00E9}") && !IsEmporium("artstreet caf\U{00E9}")
  {
    NotContainsByChar("artstreet caf\U{00E9}", "blend", 0);
    NotContainsByChar("artstreet caf\U{00E9}", "emporium", 1);
  }

  lemma ArtStreetIsCanonical()
    ensures Canonicalize("ArtStreet Caf\U{00E9}") == Some("ArtStreet Caf\U{00E9}")
  {
    assert Lower("ArtStreet Caf\U{00E9}") == "artstreet caf\U{00E9}";
    ArtStreetSkipsEarlierTests1();
    ArtStreetSkipsEarlierTests2();
    assert OccursAt("artstreet caf\U{00E9}", "artstreet", 0);
  }

  lemma TossSkipsEarlierTests()
    ensures !IsExcluded("toss") && !IsBlendExpress("toss") && !IsBlend("toss") && !IsEmporium("toss") && !IsArtStreet("toss")
  {
  }

  lemma TossIsCanonical()
    ensures Canonicalize("Toss") == Some("Toss")
  {
    assert Lower("Toss") == "toss";
    TossSkipsEarlierTests();
    assert OccursAt("toss", "toss", 0);
  }

  lemma FlyBySkipsEarlierTests()
    ensures !IsExcluded("fly by") && !IsBlendExpress("fly by") && !IsBlend("fly by") && !IsEmporium("fly by") && !IsArtStreet("fly by") && !IsToss("fly by")
  {
    NotContainsByChar("fly by", "blend", 2);
    NotContainsByChar("fly by", "toss", 0);
  }

  lemma FlyByIsCanonical()
    ensures Canonicalize("Fly By") == Some("Fly By")
  {
    assert Lower("Fly By") == "fly by";
    FlyBySkipsEarlierTests();
    assert OccursAt("fly by", "fly by", 0);
  }

  lemma HeritageSkipsEarlierTests1()
    ensures !IsExcluded("heritage coffeehouse")
  {
    NotContainsByChar("heritage coffeehouse", "papercut", 0);
    NotContainsByChar("heritage coffeehouse", "dining services", 0);
    NotContainsByChar("heritage coffeehouse", "deposit", 0);
    NotContainsByChar("heritage coffeehouse", "get location", 4);
    NotContainsByChar("heritage coffeehouse", "card services", 3);
  }

  lemma HeritageSkipsEarlierTests2()
    ensures !IsBlendExpress("heritage coffeehouse") && !IsBlend("heritage coffeehouse") && !IsEmporium("heritage coffeehouse") && !IsArtStreet("heritage coffeehouse")
  {
    NotContainsByChar("heritage coffeehouse", "blend express", 0);
    NotContainsByChar("heritage coffeehouse", "blendexpress", 0);
    NotContainsByChar("heritage coffeehouse", "blend", 0);
    NotContainsByChar("heritage coffeehouse", "emporium", 1);
    NotContainsByPair("heritage coffeehouse", "art street", 0);
    NotContainsByPair("heritage coffeehouse", "artstreet", 0);
  }

  lemma HeritageSkipsEarlierTests3()
    ensures !IsToss("heritage coffeehouse") && !IsFlyBy("heritage coffeehouse")
  {
    NotContainsByPair("heritage coffeehouse", "toss", 0);
    NotContainsByChar("heritage coffeehouse", "fly by", 1);
    NotContainsByChar("heritage coffeehouse", "flyby", 1);
  }

  lemma HeritageIsCanonical()
    ensures Canonicalize("Heritage Coffeehouse") == Some("Heritage Coffeehouse")
  {
    assert Lower("Heritage Coffeehouse") == "heritage coffeehouse";
    HeritageSkipsEarlierTests1();
    HeritageSkipsEarlierTests2();
    HeritageSkipsEarlierTests3();
    assert OccursAt("heritage coffeehouse", "heritage", 0);
  }

  lemma MarycrestSkipsEarlierTests1()
    ensures !IsExcluded("marycrest") && !IsBlendExpress("marycrest") && !IsBlend("marycrest") && !IsEmporium("marycrest") && !IsArtStreet("marycrest") && !IsToss("marycrest")
  {
    NotContainsByChar("marycrest", "papercut", 0);
    NotContainsByChar("marycrest", "deposit", 0);
    NotContainsByChar("marycrest", "blend", 0);
    NotContainsByChar("marycrest", "emporium", 2);
    NotContainsByPair("marycrest", "artstreet", 1);
    NotContainsByChar("marycrest", "toss", 1);
  }

  lemma MarycrestSkipsEarlierTests2()
    ensures !IsFlyBy("marycrest") && !IsHeritage("marycrest")
  {
    NotContainsByChar("marycrest", "fly by", 0);
    NotContainsByChar("marycrest", "flyby", 0);
    NotContainsByChar("marycrest", "heritage", 0);
  }

  lemma MarycrestIsCanonical()
    ensures Canonicalize("Marycrest") == Some("Marycrest")
  {
    assert Lower("Marycrest") == "marycrest";
    MarycrestSkipsEarlierTests1();
    MarycrestSkipsEarlierTests2();
    assert OccursAt("marycrest", "marycrest", 0);
  }

  lemma VwkSkipsEarlierTests()
    ensures !IsExcluded("vwk") && !IsBlendExpress("vwk") && !IsBlend("vwk") && !IsEmporium("vwk") && !IsArtStreet("vwk") && !IsToss("vwk") && !IsFlyBy("vwk") && !IsHeritage("vwk") && !IsMarycrest("vwk")
  {
  }

  lemma VwkIsCanonical()
    ensures Canonicalize("VWK") == Some("VWK")
  {
    assert Lower("VWK") == "vwk";
    VwkSkipsEarlierTests();
    assert OccursAt("vwk", "vwk", 0);
  }

  lemma AuBonPainSkipsEarlierTests1()
    ensures !IsExcluded("au bon pain") && !IsBlendExpress("au bon pain") && !IsBlend("au bon pain") && !IsEmporium("au bon pain") && !IsArtStreet("au bon pain")
  {
    NotContainsByChar("au bon pain", "papercut", 3);
    NotContainsByChar("au bon pain", "deposit", 0);
    NotContainsByChar("au bon pain", "blend", 1);
    NotContainsByChar("au bon pain", "emporium", 0);
    NotContainsByChar("au bon pain", "art street", 1);
    NotContainsByChar("au bon pain", "artstreet", 1);
  }

  lemma AuBonPainSkipsEarlierTests2()
    ensures !IsToss("au bon pain") && !IsFlyBy("au bon pain") && !IsHeritage("au bon pain") && !IsMarycrest("au bon pain")
  {
    NotContainsByChar("au bon pain", "toss", 0);
    NotContainsByChar("au bon pain", "fly by", 0);
    NotContainsByChar("au bon pain", "flyby", 0);
    NotContainsByChar("au bon pain", "heritage", 0);
    NotContainsByChar("au bon pain", "marycrest", 0);
  }

  lemma AuBonPainSkipsEarlierTests3()
    ensures !IsVwk("au bon pain")
  {
    NotContainsByChar("au bon pain", "vwk", 0);
    NotContainsByChar("au bon pain", "virginia", 0);
  }

  lemma AuBonPainIsCanonical()
    ensures Canonicalize("Au Bon Pain") == Some("Au Bon Pain")
  {
    assert Lower("Au Bon Pain") == "au bon pain";
    AuBonPainSkipsEarlierTests1();
    AuBonPainSkipsEarlierTests2();
    AuBonPainSkipsEarlierTests3();
    assert OccursAt("au bon pain", "au bon pain", 0);
  }

  lemma LandingSkipsEarlierTests1()
    ensures !IsExcluded("stu\U{2019}s landing") && !IsBlendExpress("stu\U{2019}s landing")
  {
    NotContainsByChar("stu\U{2019}s landing", "papercut", 0);
    NotContainsByChar("stu\U{2019}s landing", "deposit", 1);
    NotContainsByChar("stu\U{2019}s landing", "get location", 1);
    NotContainsByChar("stu\U{2019}s landing", "card services", 0);
    NotContainsByChar("stu\U{2019}s landing", "blend express", 0);
    NotContainsByChar("stu\U{2019}s landing", "blendexpress", 0);
  }

  lemma LandingSkipsEarlierTests2()
    ensures !IsBlend("stu\U{2019}s landing") && !IsEmporium("stu\U{2019}s landing") && !IsArtStreet("stu\U{2019}s landing") && !IsToss("stu\U{2019}s landing")
  {
    NotContainsByChar("stu\U{2019}s landing", "blend", 0);
    NotContainsByChar("stu\U{2019}s landing", "emporium", 0);
    NotContainsByChar("stu\U{2019}s landing", "art street", 1);
    NotContainsByChar("stu\U{2019}s landing", "artstreet", 1);
    NotContainsByChar("stu\U{2019}s landing", "toss", 1);
  }

  lemma LandingSkipsEarlierTests3()
    ensures !IsFlyBy("stu\U{2019}s landing") && !IsHeritage("stu\U{2019}s landing") && !IsMarycrest("stu\U{2019}s landing") && !IsVwk("stu\U{2019}s landing")
  {
    NotContainsByChar("stu\U{2019}s landing", "fly by", 0);
    NotContainsByChar("stu\U{2019}s landing", "flyby", 0);
    NotContainsByChar("stu\U{2019}s landing", "heritage", 0);
    NotContainsByChar("stu\U{2019}s landing", "marycrest", 0);
    NotContainsByChar("stu\U{2019}s landing", "vwk", 0);
    NotContainsByChar("stu\U{2019}s landing", "virginia", 0);
  }

  lemma LandingSkipsEarlierTests4()
    ensures !IsAuBonPain("stu\U{2019}s landing")
  {
    NotContainsByChar("stu\U{2019}s landing", "aubonpain", 2);
    NotContainsByChar("stu\U{2019}s landing", "au bon pain", 3);
    NotContainsByChar("stu\U{2019}s landing", "abp", 1);
  }

  lemma LandingIsCanonical()
    ensures Canonicalize("Stu\U{2019}s Landing") == Some("Stu\U{2019}s Landing")
  {
    assert Lower("Stu\U{2019}s Landing") == "stu\U{2019}s landing";
    LandingSkipsEarlierTests1();
    LandingSkipsEarlierTests2();
    LandingSkipsEarlierTests3();
    LandingSkipsEarlierTests4();
    assert OccursAt("stu\U{2019}s landing", "landing", 6);
  }

  lemma QueSkipsEarlierTests()
    ensures !IsExcluded("\U{2018}que") && !IsBlendExpress("\U{2018}que") && !IsBlend("\U{2018}que") && !IsEmporium("\U{2018}que") && !IsArtStreet("\U{2018}que") && !IsToss("\U{2018}que") && !IsFlyBy("\U{2018}que") && !IsHeritage("\U{2018}que") && !IsMarycrest("\U{2018}que") && !IsVwk("\U{2018}que") && !IsAuBonPain("\U{2018}que") && !IsLanding("\U{2018}que")
  {
    NotContainsByChar("\U{2018}que", "toss", 0);
    NotContainsByChar("\U{2018}que", "vwk", 0);
    NotContainsByChar("\U{2018}que", "abp", 0);
  }

  lemma QueIsCanonical()
    ensures Canonicalize("\U{2018}Que") == Some("\U{2018}Que")
  {
    assert Lower("\U{2018}Que") == "\U{2018}que";
    QueSkipsEarlierTests();
    assert OccursAt("\U{2018}que", "que", 1);
  }

  lemma SpiceSkipsEarlierTests()
    ensures !IsExcluded("spice") && !IsBlendExpress("spice") && !IsBlend("spice") && !IsEmporium("spice") && !IsArtStreet("spice") && !IsToss("spice") && !IsFlyBy("spice") && !IsHeritage("spice") && !IsMarycrest("spice") && !IsVwk("spice") && !IsAuBonPain("spice") && !IsLanding("spice") && !IsQue("spice")
  {
    NotContainsByChar("spice", "blend", 0);
    NotContainsByChar("spice", "toss", 0);
    NotContainsByChar("spice", "flyby", 0);
    NotContainsByChar("spice", "vwk", 0);
    NotContainsByChar("spice", "abp", 0);
    NotContainsByChar("spice", "que", 0);
  }

  lemma SpiceIsCanonical()
    ensures Canonicalize("Spice") == Some("Spice")
  {
    assert Lower("Spice") == "spice";
    SpiceSkipsEarlierTests();
    assert OccursAt("spice", "spice", 0);
  }

  lemma ChillSkipsEarlierTests1()
    ensures !IsExcluded("the chill") && !IsBlendExpress("the chill") && !IsBlend("the chill") && !IsEmporium("the chill") && !IsArtStreet("the chill") && !IsToss("the chill")
  {
    NotContainsByChar("the chill", "papercut", 0);
    NotContainsByChar("the chill", "deposit", 0);
    NotContainsByChar("the chill", "blend", 0);
    NotContainsByChar("the chill", "emporium", 1);
    NotContainsByChar("the chill", "artstreet", 0);
    NotContainsByChar("the chill", "toss", 1);
  }

  lemma ChillSkipsEarlierTests2()
    ensures !IsFlyBy("the chill") && !IsHeritage("the chill") && !IsMarycrest("the chill") && !IsVwk("the chill")
  {
    NotContainsByChar("the chill", "fly by", 0);
    NotContainsByChar("the chill", "flyby", 0);
    NotContainsByChar("the chill", "heritage", 2);
    NotContainsByChar("the chill", "marycrest", 0);
    NotContainsByChar("the chill", "vwk", 0);
    NotContainsByChar("the chill", "virginia", 0);
  }

  lemma ChillSkipsEarlierTests3()
    ensures !IsAuBonPain("the chill") && !IsLanding("the chill") && !IsQue("the chill") && !IsSpice("the chill")
  {
    NotContainsByChar("the chill", "aubonpain", 0);
    NotContainsByChar("the chill", "abp", 0);
    NotContainsByChar("the chill", "landing", 1);
    NotContainsByChar("the chill", "que", 0);
    NotContainsByChar("the chill", "spice", 0);
  }

  lemma ChillIsCanonical()
    ensures Canonicalize("The CHILL") == Some("The CHILL")
  {
    assert Lower("The CHILL") == "the chill";
    ChillSkipsEarlierTests1();
    ChillSkipsEarlierTests2();
    ChillSkipsEarlierTests3();
    assert OccursAt("the chill", "the chill", 0);
  }

  lemma BistroSkipsEarlierTests1()
    ensures !IsExcluded("brown street bistro")
  {
    NotContainsByChar("brown street bistro", "papercut", 0);
    NotContainsByChar("brown street bistro", "dining services", 0);
    NotContainsByChar("brown street bistro", "deposit", 0);
    NotContainsByChar("brown street bistro", "get location", 0);
    NotContainsByChar("brown street bistro", "card services", 0);
  }

  lemma BistroSkipsEarlierTests2()
    ensures !IsBlendExpress("brown street bistro") && !IsBlend("brown street bistro") && !IsEmporium("brown street bistro") && !IsArtStreet("brown street bistro")
  {
    NotContainsByChar("brown street bistro", "blend express", 1);
    NotContainsByChar("brown street bistro", "blendexpress", 1);
    NotContainsByChar("brown street bistro", "blend", 1);
    NotContainsByChar("brown street bistro", "emporium", 1);
    NotContainsByChar("brown street bistro", "art street", 0);
    NotContainsByChar("brown street bistro", "artstreet", 0);
  }

  lemma BistroSkipsEarlierTests3()
    ensures !IsToss("brown street bistro") && !IsFlyBy("brown street bistro") && !IsHeritage("brown street bistro") && !IsMarycrest("brown street bistro")
  {
    NotContainsByPair("brown street bistro", "toss", 0);
    NotContainsByChar("brown street bistro", "fly by", 0);
    NotContainsByChar("brown street bistro", "flyby", 0);
    NotContainsByChar("brown street bistro", "heritage", 0);
    NotContainsByChar("brown street bistro", "marycrest", 0);
  }

  lemma BistroSkipsEarlierTests4()
    ensures !IsVwk("brown street bistro") && !IsAuBonPain("brown street bistro") && !IsLanding("brown street bistro")
  {
    NotContainsByChar("brown street bistro", "vwk", 0);
    NotContainsByChar("brown street bistro", "virginia", 0);
    NotContainsByChar("brown street bistro", "aubonpain", 0);
    NotContainsByChar("brown street bistro", "au bon pain", 0);
    NotContainsByChar("brown street bistro", "abp", 0);
    NotContainsByChar("brown street bistro", "landing", 0);
  }

  lemma BistroSkipsEarlierTests5()
    ensures !IsQue("brown street bistro") && !IsSpice("brown street bistro") && !IsChill("brown street bistro")
  {
    NotContainsByChar("brown street bistro", "que", 0);
    NotContainsByChar("brown street bistro", "spice", 1);
    NotContainsByChar("brown street bistro", "thechill", 1);
    NotContainsByChar("brown street bistro", "the chill", 1);
  }

  lemma BistroIsCanonical()
    ensures Canonicalize("Brown Street Bistro") == Some("Brown Street Bistro")
  {
    assert Lower("Brown Street Bistro") == "brown street bistro";
    BistroSkipsEarlierTests1();
    BistroSkipsEarlierTests2();
    BistroSkipsEarlierTests3();
    BistroSkipsEarlierTests4();
    BistroSkipsEarlierTests5();
    assert OccursAt("brown street bistro", "bistro", 13);
  }

  /** Canonicalisation is idempotent on the names it keeps. */
  lemma CanonicalizeIdempotent(rawName: string)
    requires Canonicalize(rawName).Some?
    ensures Canonicalize(Canonicalize(rawName).value) == Canonicalize(rawName)
  {
    var c := Canonicalize(rawName).value;
    if c == "The Blend Express" { BlendExpressIsCanonical(); }
    else if c == "The Blend" { BlendIsCanonical(); }
    else if c == "The Emporium" { EmporiumIsCanonical(); }
    else if c == "ArtStreet Caf\U{00E9}" { ArtStreetIsCanonical(); }
    else if c == "Toss" { TossIsCanonical(); }
    else if c == "Fly By" { FlyByIsCanonical(); }
    else if c == "Heritage Coffeehouse" { HeritageIsCanonical(); }
    else if c == "Marycrest" { MarycrestIsCanonical(); }
    else if c == "VWK" { VwkIsCanonical(); }
    else if c == "Au Bon Pain" { AuBonPainIsCanonical(); }
    else if c == "Stu\U{2019}s Landing" { LandingIsCanonical(); }
    else if c == "\U{2018}Que" { QueIsCanonical(); }
    else if c == "Spice" { SpiceIsCanonical(); }
    else if c == "The CHILL" { ChillIsCanonical(); }
    else if c == "Brown Street Bistro" { BistroIsCanonical(); }
    else { assert c == rawName; }
  }
}

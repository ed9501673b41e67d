/**
 * The filter chain run on the catalog: what the search box, the category
 * pills, the price presets and the availability buttons select. Each fact
 * about one product is proved on its own, and the results are put together
 * product by product.
 */
module ProductsPageExamples {
  import opened Optional
  import opened Text
  import opened Seqs
  import opened Catalog
  import opened ProductsPage

  /** The one-element list when the product survives the chain, else empty. */
  function Pick(p: Product, c: Criteria): seq<Product>
  {
    if Keeps(p, c) then [p] else []
  }

  /** The chain over the catalog, product by product. */
  lemma SelectCatalog(c: Criteria)
    ensures Select(AllProducts, c)
      == Pick(TranquilEveningBlend, c) + (Pick(MorningClarityTea, c) + (Pick(StressReliefBlend, c)
       + (Pick(DigestiveHarmony, c) + (Pick(ImmuneBoostTea, c) + Pick(DeepSleepBlend, c)))))
  {
    FilterSix(AllProducts, KeepTest(c));
  }

  /** A price written "$DD.DD" lies inside [0, 1000]. */
  lemma ShortPriceInFullRange(p: Product)
    requires |p.price| == 6 && p.price[0] == '$' && p.price[3] == '.'
    requires IsDigit(p.price[1]) && IsDigit(p.price[2]) && IsDigit(p.price[4]) && IsDigit(p.price[5])
    ensures InPriceRange(p, FullRange)
  {
    DollarPriceCents(p.price);
  }

  lemma TranquilEveningInFullRange()
    ensures InPriceRange(TranquilEveningBlend, FullRange)
  {
    ShortPriceInFullRange(TranquilEveningBlend);
  }

  lemma MorningClarityInFullRange()
    ensures InPriceRange(MorningClarityTea, FullRange)
  {
    ShortPriceInFullRange(MorningClarityTea);
  }

  lemma StressReliefInFullRange()
    ensures InPriceRange(StressReliefBlend, FullRange)
  {
    ShortPriceInFullRange(StressReliefBlend);
  }

  lemma DigestiveHarmonyInFullRange()
    ensures InPriceRange(DigestiveHarmony, FullRange)
  {
    ShortPriceInFullRange(DigestiveHarmony);
  }

  lemma ImmuneBoostInFullRange()
    ensures InPriceRange(ImmuneBoostTea, FullRange)
  {
    ShortPriceInFullRange(ImmuneBoostTea);
  }

  lemma DeepSleepInFullRange()
    ensures InPriceRange(DeepSleepBlend, FullRange)
  {
    ShortPriceInFullRange(DeepSleepBlend);
  }

  /** A query whose pair at `j` occurs in none of a product's texts misses it. */
  lemma SearchMisses(p: Product, query: string, j: nat)
    requires Lower(query) == query
    requires PairExcludes(p.name, query, j) && PairExcludes(p.description, query, j)
    requires forall tag | tag in p.tags :: PairExcludes(tag, query, j)
    requires forall ingredient | ingredient in p.ingredients :: PairExcludes(ingredient, query, j)
    ensures !SearchHit(p, query)
  {
    NotIncludesByPair(p.name, query, j);
    NotIncludesByPair(p.description, query, j);
    forall tag | tag in p.tags ensures !Includes(Lower(tag), query) {
      NotIncludesByPair(tag, query, j);
    }
    forall ingredient | ingredient in p.ingredients ensures !Includes(Lower(ingredient), query) {
      NotIncludesByPair(ingredient, query, j);
    }
  }

  /** A query equal to an ingredient, up to case, finds the product. */
  lemma SearchHitsIngredient(p: Product, query: string, ingredient: string)
    requires ingredient in p.ingredients && Lower(ingredient) == Lower(query)
    ensures SearchHit(p, query)
  {
    IncludesSelf(Lower(query));
  }

  /** Neither of a tag and a category contains the other, shown by a pair each way. */
  lemma TagMisses(tag: string, category: string, j: nat, k: nat)
    requires PairExcludes(tag, Lower(category), j) && PairExcludes(category, Lower(tag), k)
    ensures !TagMatchesCategory(tag, category)
  {
    NotIncludesByPair(tag, Lower(category), j);
    NotIncludesByPair(category, Lower(tag), k);
  }

  /**
   * A category misses a product when, for every tag, the category's pair at
   * `j` is not in the tag and the tag's first pair is not in the category.
   */
  lemma CategoryMisses(p: Product, category: string, j: nat)
    requires forall tag | tag in p.tags :: PairExcludes(tag, Lower(category), j) && PairExcludes(category, Lower(tag), 0)
    ensures !CategoryHit(p, category)
  {
    forall tag | tag in p.tags ensures !TagMatchesCategory(tag, category) {
      TagMisses(tag, category, j, 0);
    }
  }

  /** A category equal to a tag, up to case, keeps the product. */
  lemma CategoryHitsTag(p: Product, category: string, tag: string)
    requires tag in p.tags && Lower(tag) == Lower(category)
    ensures CategoryHit(p, category)
  {
    IncludesSelf(Lower(category));
    assert TagMatchesCategory(tag, category);
  }

  const GingerSearch := DefaultCriteria.(searchQuery := "ginger")

  lemma GingerIsLowerCase()
    ensures Lower("ginger") == "ginger" && Lower("Ginger") == "ginger"
  {
  }

  lemma GingerAbsentFromTranquilEveningPiece1()
    ensures PairAbsent("Chamomile, lavender, ", "ginger", 3)
  {
  }

  lemma GingerAbsentFromTranquilEveningPiece2()
    ensures PairAbsent("and lemon balm ", "ginger", 3)
  {
  }

  lemma GingerAbsentFromTranquilEveningPiece3()
    ensures PairAbsent("for peaceful nights", "ginger", 3)
  {
  }

  /** The description, piece by piece: "ge" occurs in no piece and at no seam. */
  lemma GingerAbsentFromTranquilEveningDescription()
    ensures PairExcludes(TranquilEveningBlend.description, "ginger", 3)
  {
    GingerAbsentFromTranquilEveningPiece1();
    GingerAbsentFromTranquilEveningPiece2();
    GingerAbsentFromTranquilEveningPiece3();
    PairAbsentAppend("Chamomile, lavender, ", "and lemon balm ", "ginger", 3);
    PairAbsentAppend("Chamomile, lavender, " + "and lemon balm ", "for peaceful nights", "ginger", 3);
  }

  lemma GingerAbsentFromTranquilEveningName()
    ensures PairExcludes(TranquilEveningBlend.name, "ginger", 3)
  {
  }

  lemma GingerAbsentFromTranquilEveningTags()
    ensures forall tag | tag in TranquilEveningBlend.tags :: PairExcludes(tag, "ginger", 3)
  {
  }

  lemma GingerAbsentFromTranquilEveningIngredients()
    ensures forall ingredient | ingredient in TranquilEveningBlend.ingredients :: PairExcludes(ingredient, "ginger", 3)
  {
  }

  lemma GingerMissesTranquilEvening()
    ensures !SearchHit(TranquilEveningBlend, "ginger")
  {
    GingerIsLowerCase();
    GingerAbsentFromTranquilEveningName();
    GingerAbsentFromTranquilEveningDescription();
    GingerAbsentFromTranquilEveningTags();
    GingerAbsentFromTranquilEveningIngredients();
    SearchMisses(TranquilEveningBlend, "ginger", 3);
  }

  lemma GingerAbsentFromMorningClarityPiece1()
    ensures PairAbsent("Ginkgo, green tea, ", "ginger", 3)
  {
  }

  lemma GingerAbsentFromMorningClarityPiece2()
    ensures PairAbsent("and mint for ", "ginger", 3)
  {
  }

  lemma GingerAbsentFromMorningClarityPiece3()
    ensures PairAbsent("mental focus", "ginger", 3)
  {
  }

  /** The description, piece by piece: "ge" occurs in no piece and at no seam. */
  lemma GingerAbsentFromMorningClarityDescription()
    ensures PairExcludes(MorningClarityTea.description, "ginger", 3)
  {
    GingerAbsentFromMorningClarityPiece1();
    GingerAbsentFromMorningClarityPiece2();
    GingerAbsentFromMorningClarityPiece3();
    PairAbsentAppend("Ginkgo, green tea, ", "and mint for ", "ginger", 3);
    PairAbsentAppend("Ginkgo, green tea, " + "and mint for ", "mental focus", "ginger", 3);
  }

  lemma GingerAbsentFromMorningClarityName()
    ensures PairExcludes(MorningClarityTea.name, "ginger", 3)
  {
  }

  lemma GingerAbsentFromMorningClarityTags()
    ensures forall tag | tag in MorningClarityTea.tags :: PairExcludes(tag, "ginger", 3)
  {
  }

  lemma GingerAbsentFromMorningClarityIngredients()
    ensures forall ingredient | ingredient in MorningClarityTea.ingredients :: PairExcludes(ingredient, "ginger", 3)
  {
  }

  lemma GingerMissesMorningClarity()
    ensures !SearchHit(MorningClarityTea, "ginger")
  {
    GingerIsLowerCase();
    GingerAbsentFromMorningClarityName();
    GingerAbsentFromMorningClarityDescription();
    GingerAbsentFromMorningClarityTags();
    GingerAbsentFromMorningClarityIngredients();
    SearchMisses(MorningClarityTea, "ginger", 3);
  }

  lemma GingerAbsentFromStressReliefPiece1()
    ensures PairAbsent("Ashwagandha, holy ", "ginger", 3)
  {
  }

  lemma GingerAbsentFromStressReliefPiece2()
    ensures PairAbsent("basil, and rose ", "ginger", 3)
  {
  }

  lemma GingerAbsentFromStressReliefPiece3()
    ensures PairAbsent("petals for calm", "ginger", 3)
  {
  }

  /** The description, piece by piece: "ge" occurs in no piece and at no seam. */
  lemma GingerAbsentFromStressReliefDescription()
    ensures PairExcludes(StressReliefBlend.description, "ginger", 3)
  {
    GingerAbsentFromStressReliefPiece1();
    GingerAbsentFromStressReliefPiece2();
    GingerAbsentFromStressReliefPiece3();
    PairAbsentAppend("Ashwagandha, holy ", "basil, and rose ", "ginger", 3);
    PairAbsentAppend("Ashwagandha, holy " + "basil, and rose ", "petals for calm", "ginger", 3);
  }

  lemma GingerAbsentFromStressReliefName()
    ensures PairExcludes(StressReliefBlend.name, "ginger", 3)
  {
  }

  lemma GingerAbsentFromStressReliefTags()
    ensures forall tag | tag in StressReliefBlend.tags :: PairExcludes(tag, "ginger", 3)
  {
  }

  lemma GingerAbsentFromStressReliefIngredients()
    ensures forall ingredient | ingredient in StressReliefBlend.ingredients :: PairExcludes(ingredient, "ginger", 3)
  {
  }

  lemma GingerMissesStressRelief()
    ensures !SearchHit(StressReliefBlend, "ginger")
  {
    GingerIsLowerCase();
    GingerAbsentFromStressReliefName();
    GingerAbsentFromStressReliefDescription();
    GingerAbsentFromStressReliefTags();
    GingerAbsentFromStressReliefIngredients();
    SearchMisses(StressReliefBlend, "ginger", 3);
  }

  lemma GingerAbsentFromDeepSleepPiece1()
    ensures PairAbsent("Valerian root, ", "ginger", 3)
  {
  }

  lemma GingerAbsentFromDeepSleepPiece2()
    ensures PairAbsent("passionflower, ", "ginger", 3)
  {
  }

  lemma GingerAbsentFromDeepSleepPiece3()
    ensures PairAbsent("and chamomile ", "ginger", 3)
  {
  }

  lemma GingerAbsentFromDeepSleepPiece4()
    ensures PairAbsent("for restful nights", "ginger", 3)
  {
  }

  /** The description, piece by piece: "ge" occurs in no piece and at no seam. */
  lemma GingerAbsentFromDeepSleepDescription()
    ensures PairExcludes(DeepSleepBlend.description, "ginger", 3)
  {
    GingerAbsentFromDeepSleepPiece1();
    GingerAbsentFromDeepSleepPiece2();
    GingerAbsentFromDeepSleepPiece3();
    GingerAbsentFromDeepSleepPiece4();
    PairAbsentAppend("Valerian root, ", "passionflower, ", "ginger", 3);
    PairAbsentAppend("Valerian root, " + "passionflower, ", "and chamomile ", "ginger", 3);
    PairAbsentAppend("Valerian root, " + "passionflower, " + "and chamomile ", "for restful nights", "ginger", 3);
  }

  lemma GingerAbsentFromDeepSleepName()
    ensures PairExcludes(DeepSleepBlend.name, "ginger", 3)
  {
  }

  lemma GingerAbsentFromDeepSleepTags()
    ensures forall tag | tag in DeepSleepBlend.tags :: PairExcludes(tag, "ginger", 3)
  {
  }

  lemma GingerAbsentFromDeepSleepIngredients()
    ensures forall ingredient | ingredient in DeepSleepBlend.ingredients :: PairExcludes(ingredient, "ginger", 3)
  {
  }

  lemma GingerMissesDeepSleep()
    ensures !SearchHit(DeepSleepBlend, "ginger")
  {
    GingerIsLowerCase();
    GingerAbsentFromDeepSleepName();
    GingerAbsentFromDeepSleepDescription();
    GingerAbsentFromDeepSleepTags();
    GingerAbsentFromDeepSleepIngredients();
    SearchMisses(DeepSleepBlend, "ginger", 3);
  }

  lemma GingerInDigestiveHarmonyIngredients()
    ensures "Ginger" in DigestiveHarmony.ingredients
  {
  }

  lemma GingerHitsDigestiveHarmony()
    ensures SearchHit(DigestiveHarmony, "ginger")
  {
    GingerIsLowerCase();
    GingerInDigestiveHarmonyIngredients();
    SearchHitsIngredient(DigestiveHarmony, "ginger", "Ginger");
  }

  lemma GingerInImmuneBoostIngredients()
    ensures "Ginger" in ImmuneBoostTea.ingredients
  {
  }

  lemma GingerHitsImmuneBoost()
    ensures SearchHit(ImmuneBoostTea, "ginger")
  {
    GingerIsLowerCase();
    GingerInImmuneBoostIngredients();
    SearchHitsIngredient(ImmuneBoostTea, "ginger", "Ginger");
  }

  lemma GingerPicksTranquilEvening()
    ensures Pick(TranquilEveningBlend, GingerSearch) == []
  {
    TranquilEveningInFullRange();
    GingerMissesTranquilEvening();
    SearchAloneDecides(TranquilEveningBlend, "ginger");
  }

  lemma GingerPicksMorningClarity()
    ensures Pick(MorningClarityTea, GingerSearch) == []
  {
    MorningClarityInFullRange();
    GingerMissesMorningClarity();
    SearchAloneDecides(MorningClarityTea, "ginger");
  }

  lemma GingerPicksStressRelief()
    ensures Pick(StressReliefBlend, GingerSearch) == []
  {
    StressReliefInFullRange();
    GingerMissesStressRelief();
    SearchAloneDecides(StressReliefBlend, "ginger");
  }

  lemma GingerPicksDigestiveHarmony()
    ensures Pick(DigestiveHarmony, GingerSearch) == [DigestiveHarmony]
  {
    DigestiveHarmonyInFullRange();
    GingerHitsDigestiveHarmony();
    SearchAloneDecides(DigestiveHarmony, "ginger");
  }

  lemma GingerPicksImmuneBoost()
    ensures Pick(ImmuneBoostTea, GingerSearch) == [ImmuneBoostTea]
  {
    ImmuneBoostInFullRange();
    GingerHitsImmuneBoost();
    SearchAloneDecides(ImmuneBoostTea, "ginger");
  }

  lemma GingerPicksDeepSleep()
    ensures Pick(DeepSleepBlend, GingerSearch) == []
  {
    DeepSleepInFullRange();
    GingerMissesDeepSleep();
    SearchAloneDecides(DeepSleepBlend, "ginger");
  }

  /** Searching "ginger" finds Digestive Harmony and Immune Boost Tea, in that order. */
  lemma GingerSearchResult()
    ensures Select(AllProducts, GingerSearch) == [DigestiveHarmony, ImmuneBoostTea]
  {
    SelectCatalog(GingerSearch);
    GingerPicksTranquilEvening();
    GingerPicksMorningClarity();
    GingerPicksStressRelief();
    GingerPicksDigestiveHarmony();
    GingerPicksImmuneBoost();
    GingerPicksDeepSleep();
  }

  const SleepCategory := DefaultCriteria.(activeCategory := "sleep")

  lemma SleepIsLowerCase()
    ensures Lower("sleep") == "sleep" && Lower("Sleep") == "sleep"
  {
  }

  lemma SleepAbsentFromMorningClarityTags()
    ensures forall tag | tag in MorningClarityTea.tags :: PairExcludes(tag, Lower("sleep"), 0) && PairExcludes("sleep", Lower(tag), 0)
  {
    SleepIsLowerCase();
  }

  lemma SleepMissesMorningClarity()
    ensures !CategoryHit(MorningClarityTea, "sleep")
  {
    SleepAbsentFromMorningClarityTags();
    CategoryMisses(MorningClarityTea, "sleep", 0);
  }

  lemma SleepAbsentFromStressReliefTags()
    ensures forall tag | tag in StressReliefBlend.tags :: PairExcludes(tag, Lower("sleep"), 0) && PairExcludes("sleep", Lower(tag), 0)
  {
    SleepIsLowerCase();
  }

  lemma SleepMissesStressRelief()
    ensures !CategoryHit(StressReliefBlend, "sleep")
  {
    SleepAbsentFromStressReliefTags();
    CategoryMisses(StressReliefBlend, "sleep", 0);
  }

  lemma SleepAbsentFromDigestiveHarmonyTags()
    ensures forall tag | tag in DigestiveHarmony.tags :: PairExcludes(tag, Lower("sleep"), 0) && PairExcludes("sleep", Lower(tag), 0)
  {
    SleepIsLowerCase();
  }

  lemma SleepMissesDigestiveHarmony()
    ensures !CategoryHit(DigestiveHarmony, "sleep")
  {
    SleepAbsentFromDigestiveHarmonyTags();
    CategoryMisses(DigestiveHarmony, "sleep", 0);
  }

  lemma SleepAbsentFromImmuneBoostTags()
    ensures forall tag | tag in ImmuneBoostTea.tags :: PairExcludes(tag, Lower("sleep"), 0) && PairExcludes("sleep", Lower(tag), 0)
  {
    SleepIsLowerCase();
  }

  lemma SleepMissesImmuneBoost()
    ensures !CategoryHit(ImmuneBoostTea, "sleep")
  {
    SleepAbsentFromImmuneBoostTags();
    CategoryMisses(ImmuneBoostTea, "sleep", 0);
  }

  lemma SleepTagOnTranquilEvening()
    ensures "Sleep" in TranquilEveningBlend.tags
  {
  }

  lemma SleepHitsTranquilEvening()
    ensures CategoryHit(TranquilEveningBlend, "sleep")
  {
    SleepIsLowerCase();
    SleepTagOnTranquilEvening();
    CategoryHitsTag(TranquilEveningBlend, "sleep", "Sleep");
  }

  lemma SleepTagOnDeepSleep()
    ensures "Sleep" in DeepSleepBlend.tags
  {
  }

  lemma SleepHitsDeepSleep()
    ensures CategoryHit(DeepSleepBlend, "sleep")
  {
    SleepIsLowerCase();
    SleepTagOnDeepSleep();
    CategoryHitsTag(DeepSleepBlend, "sleep", "Sleep");
  }

  lemma SleepPicksTranquilEvening()
    ensures Pick(TranquilEveningBlend, SleepCategory) == [TranquilEveningBlend]
  {
    TranquilEveningInFullRange();
    SleepHitsTranquilEvening();
    CategoryAloneDecides(TranquilEveningBlend, "sleep");
  }

  lemma SleepPicksMorningClarity()
    ensures Pick(MorningClarityTea, SleepCategory) == []
  {
    MorningClarityInFullRange();
    SleepMissesMorningClarity();
    CategoryAloneDecides(MorningClarityTea, "sleep");
  }

  lemma SleepPicksStressRelief()
    ensures Pick(StressReliefBlend, SleepCategory) == []
  {
    StressReliefInFullRange();
    SleepMissesStressRelief();
    CategoryAloneDecides(StressReliefBlend, "sleep");
  }

  lemma SleepPicksDigestiveHarmony()
    ensures Pick(DigestiveHarmony, SleepCategory) == []
  {
    DigestiveHarmonyInFullRange();
    SleepMissesDigestiveHarmony();
    CategoryAloneDecides(DigestiveHarmony, "sleep");
  }

  lemma SleepPicksImmuneBoost()
    ensures Pick(ImmuneBoostTea, SleepCategory) == []
  {
    ImmuneBoostInFullRange();
    SleepMissesImmuneBoost();
    CategoryAloneDecides(ImmuneBoostTea, "sleep");
  }

  lemma SleepPicksDeepSleep()
    ensures Pick(DeepSleepBlend, SleepCategory) == [DeepSleepBlend]
  {
    DeepSleepInFullRange();
    SleepHitsDeepSleep();
    CategoryAloneDecides(DeepSleepBlend, "sleep");
  }

  /** The "sleep" pill keeps Tranquil Evening Blend and Deep Sleep Blend, in that order. */
  lemma SleepCategoryResult()
    ensures Select(AllProducts, SleepCategory) == [TranquilEveningBlend, DeepSleepBlend]
  {
    SelectCatalog(SleepCategory);
    SleepPicksTranquilEvening();
    SleepPicksMorningClarity();
    SleepPicksStressRelief();
    SleepPicksDigestiveHarmony();
    SleepPicksImmuneBoost();
    SleepPicksDeepSleep();
  }

  const ClarityCategory := DefaultCriteria.(activeCategory := "clarity")

  lemma ClarityIsLowerCase()
    ensures Lower("clarity") == "clarity"
  {
  }

  lemma ClarityAbsentFromTranquilEveningTags()
    ensures forall tag | tag in TranquilEveningBlend.tags :: PairExcludes(tag, Lower("clarity"), 0) && PairExcludes("clarity", Lower(tag), 0)
  {
    ClarityIsLowerCase();
  }

  lemma ClarityMissesTranquilEvening()
    ensures !CategoryHit(TranquilEveningBlend, "clarity")
  {
    ClarityAbsentFromTranquilEveningTags();
    CategoryMisses(TranquilEveningBlend, "clarity", 0);
  }

  lemma ClarityAbsentFromMorningClarityTags()
    ensures forall tag | tag in MorningClarityTea.tags :: PairExcludes(tag, Lower("clarity"), 0) && PairExcludes("clarity", Lower(tag), 0)
  {
    ClarityIsLowerCase();
  }

  lemma ClarityMissesMorningClarity()
    ensures !CategoryHit(MorningClarityTea, "clarity")
  {
    ClarityAbsentFromMorningClarityTags();
    CategoryMisses(MorningClarityTea, "clarity", 0);
  }

  lemma ClarityAbsentFromStressReliefTags()
    ensures forall tag | tag in StressReliefBlend.tags :: PairExcludes(tag, Lower("clarity"), 0) && PairExcludes("clarity", Lower(tag), 0)
  {
    ClarityIsLowerCase();
  }

  lemma ClarityMissesStressRelief()
    ensures !CategoryHit(StressReliefBlend, "clarity")
  {
    ClarityAbsentFromStressReliefTags();
    CategoryMisses(StressReliefBlend, "clarity", 0);
  }

  lemma ClarityAbsentFromDigestiveHarmonyTags()
    ensures forall tag | tag in DigestiveHarmony.tags :: PairExcludes(tag, Lower("clarity"), 0) && PairExcludes("clarity", Lower(tag), 0)
  {
    ClarityIsLowerCase();
  }

  lemma ClarityMissesDigestiveHarmony()
    ensures !CategoryHit(DigestiveHarmony, "clarity")
  {
    ClarityAbsentFromDigestiveHarmonyTags();
    CategoryMisses(DigestiveHarmony, "clarity", 0);
  }

  lemma ClarityAbsentFromImmuneBoostTags()
    ensures forall tag | tag in ImmuneBoostTea.tags :: PairExcludes(tag, Lower("clarity"), 0) && PairExcludes("clarity", Lower(tag), 0)
  {
    ClarityIsLowerCase();
  }

  lemma ClarityMissesImmuneBoost()
    ensures !CategoryHit(ImmuneBoostTea, "clarity")
  {
    ClarityAbsentFromImmuneBoostTags();
    CategoryMisses(ImmuneBoostTea, "clarity", 0);
  }

  lemma ClarityAbsentFromDeepSleepTags()
    ensures forall tag | tag in DeepSleepBlend.tags :: PairExcludes(tag, Lower("clarity"), 0) && PairExcludes("clarity", Lower(tag), 0)
  {
    ClarityIsLowerCase();
  }

  lemma ClarityMissesDeepSleep()
    ensures !CategoryHit(DeepSleepBlend, "clarity")
  {
    ClarityAbsentFromDeepSleepTags();
    CategoryMisses(DeepSleepBlend, "clarity", 0);
  }

  lemma ClarityPicksTranquilEvening()
    ensures Pick(TranquilEveningBlend, ClarityCategory) == []
  {
    TranquilEveningInFullRange();
    ClarityMissesTranquilEvening();
    CategoryAloneDecides(TranquilEveningBlend, "clarity");
  }

  lemma ClarityPicksMorningClarity()
    ensures Pick(MorningClarityTea, ClarityCategory) == []
  {
    MorningClarityInFullRange();
    ClarityMissesMorningClarity();
    CategoryAloneDecides(MorningClarityTea, "clarity");
  }

  lemma ClarityPicksStressRelief()
    ensures Pick(StressReliefBlend, ClarityCategory) == []
  {
    StressReliefInFullRange();
    ClarityMissesStressRelief();
    CategoryAloneDecides(StressReliefBlend, "clarity");
  }

  lemma ClarityPicksDigestiveHarmony()
    ensures Pick(DigestiveHarmony, ClarityCategory) == []
  {
    DigestiveHarmonyInFullRange();
    ClarityMissesDigestiveHarmony();
    CategoryAloneDecides(DigestiveHarmony, "clarity");
  }

  lemma ClarityPicksImmuneBoost()
    ensures Pick(ImmuneBoostTea, ClarityCategory) == []
  {
    ImmuneBoostInFullRange();
    ClarityMissesImmuneBoost();
    CategoryAloneDecides(ImmuneBoostTea, "clarity");
  }

  lemma ClarityPicksDeepSleep()
    ensures Pick(DeepSleepBlend, ClarityCategory) == []
  {
    DeepSleepInFullRange();
    ClarityMissesDeepSleep();
    CategoryAloneDecides(DeepSleepBlend, "clarity");
  }

  /** The "clarity" pill empties the grid: no catalog tag contains "clarity" or is contained in it. */
  lemma ClarityCategoryResult()
    ensures Select(AllProducts, ClarityCategory) == []
  {
    SelectCatalog(ClarityCategory);
    ClarityPicksTranquilEvening();
    ClarityPicksMorningClarity();
    ClarityPicksStressRelief();
    ClarityPicksDigestiveHarmony();
    ClarityPicksImmuneBoost();
    ClarityPicksDeepSleep();
  }

  const DigestiveCategory := DefaultCriteria.(activeCategory := "digestive")

  lemma DigestiveIsLowerCase()
    ensures Lower("digestive") == "digestive"
  {
  }

  /**
   * "Digestion" and "digestive" share their first seven letters, but
   * neither contains the other.
   */
  lemma DigestionIsNotDigestive()
    ensures !TagMatchesCategory("Digestion", "digestive")
  {
    DigestiveIsLowerCase();
    assert Lower("Digestion") == "digestion";
    TagMisses("Digestion", "digestive", 6, 6);
  }

  lemma DigestiveTagsOfDigestiveHarmony()
    ensures DigestiveHarmony.tags == ["Digestion", "Wellness", "Herbal", "Natural"]
  {
  }

  lemma DigestiveMissesDigestiveHarmony()
    ensures !CategoryHit(DigestiveHarmony, "digestive")
  {
    DigestiveIsLowerCase();
    DigestiveTagsOfDigestiveHarmony();
    DigestionIsNotDigestive();
    TagMisses("Wellness", "digestive", 1, 0);
    TagMisses("Herbal", "digestive", 1, 0);
    TagMisses("Natural", "digestive", 1, 0);
  }

  lemma DigestiveAbsentFromTranquilEveningTags()
    ensures forall tag | tag in TranquilEveningBlend.tags :: PairExcludes(tag, Lower("digestive"), 1) && PairExcludes("digestive", Lower(tag), 0)
  {
    DigestiveIsLowerCase();
  }

  lemma DigestiveMissesTranquilEvening()
    ensures !CategoryHit(TranquilEveningBlend, "digestive")
  {
    DigestiveAbsentFromTranquilEveningTags();
    CategoryMisses(TranquilEveningBlend, "digestive", 1);
  }

  lemma DigestiveAbsentFromMorningClarityTags()
    ensures forall tag | tag in MorningClarityTea.tags :: PairExcludes(tag, Lower("digestive"), 1) && PairExcludes("digestive", Lower(tag), 0)
  {
    DigestiveIsLowerCase();
  }

  lemma DigestiveMissesMorningClarity()
    ensures !CategoryHit(MorningClarityTea, "digestive")
  {
    DigestiveAbsentFromMorningClarityTags();
    CategoryMisses(MorningClarityTea, "digestive", 1);
  }

  lemma DigestiveAbsentFromStressReliefTags()
    ensures forall tag | tag in StressReliefBlend.tags :: PairExcludes(tag, Lower("digestive"), 1) && PairExcludes("digestive", Lower(tag), 0)
  {
    DigestiveIsLowerCase();
  }

  lemma DigestiveMissesStressRelief()
    ensures !CategoryHit(StressReliefBlend, "digestive")
  {
    DigestiveAbsentFromStressReliefTags();
    CategoryMisses(StressReliefBlend, "digestive", 1);
  }

  lemma DigestiveAbsentFromImmuneBoostTags()
    ensures forall tag | tag in ImmuneBoostTea.tags :: PairExcludes(tag, Lower("digestive"), 1) && PairExcludes("digestive", Lower(tag), 0)
  {
    DigestiveIsLowerCase();
  }

  lemma DigestiveMissesImmuneBoost()
    ensures !CategoryHit(ImmuneBoostTea, "digestive")
  {
    DigestiveAbsentFromImmuneBoostTags();
    CategoryMisses(ImmuneBoostTea, "digestive", 1);
  }

  lemma DigestiveAbsentFromDeepSleepTags()
    ensures forall tag | tag in DeepSleepBlend.tags :: PairExcludes(tag, Lower("digestive"), 1) && PairExcludes("digestive", Lower(tag), 0)
  {
    DigestiveIsLowerCase();
  }

  lemma DigestiveMissesDeepSleep()
    ensures !CategoryHit(DeepSleepBlend, "digestive")
  {
    DigestiveAbsentFromDeepSleepTags();
    CategoryMisses(DeepSleepBlend, "digestive", 1);
  }

  lemma DigestivePicksTranquilEvening()
    ensures Pick(TranquilEveningBlend, DigestiveCategory) == []
  {
    TranquilEveningInFullRange();
    DigestiveMissesTranquilEvening();
    CategoryAloneDecides(TranquilEveningBlend, "digestive");
  }

  lemma DigestivePicksMorningClarity()
    ensures Pick(MorningClarityTea, DigestiveCategory) == []
  {
    MorningClarityInFullRange();
    DigestiveMissesMorningClarity();
    CategoryAloneDecides(MorningClarityTea, "digestive");
  }

  lemma DigestivePicksStressRelief()
    ensures Pick(StressReliefBlend, DigestiveCategory) == []
  {
    StressReliefInFullRange();
    DigestiveMissesStressRelief();
    CategoryAloneDecides(StressReliefBlend, "digestive");
  }

  lemma DigestivePicksDigestiveHarmony()
    ensures Pick(DigestiveHarmony, DigestiveCategory) == []
  {
    DigestiveHarmonyInFullRange();
    DigestiveMissesDigestiveHarmony();
    CategoryAloneDecides(DigestiveHarmony, "digestive");
  }

  lemma DigestivePicksImmuneBoost()
    ensures Pick(ImmuneBoostTea, DigestiveCategory) == []
  {
    ImmuneBoostInFullRange();
    DigestiveMissesImmuneBoost();
    CategoryAloneDecides(ImmuneBoostTea, "digestive");
  }

  lemma DigestivePicksDeepSleep()
    ensures Pick(DeepSleepBlend, DigestiveCategory) == []
  {
    DeepSleepInFullRange();
    DigestiveMissesDeepSleep();
    CategoryAloneDecides(DeepSleepBlend, "digestive");
  }

  /** The "digestive" pill empties the grid, although Digestive Harmony carries the tag "Digestion". */
  lemma DigestiveCategoryResult()
    ensures Select(AllProducts, DigestiveCategory) == []
  {
    SelectCatalog(DigestiveCategory);
    DigestivePicksTranquilEvening();
    DigestivePicksMorningClarity();
    DigestivePicksStressRelief();
    DigestivePicksDigestiveHarmony();
    DigestivePicksImmuneBoost();
    DigestivePicksDeepSleep();
  }

  const UnderTwentyFive := DefaultCriteria.(priceRange := PriceRange(0, 25))

  lemma TranquilEveningCents()
    ensures PriceCents(TranquilEveningBlend) == Some(2499)
  {
    DollarPriceCents(TranquilEveningBlend.price);
  }

  lemma MorningClarityCents()
    ensures PriceCents(MorningClarityTea) == Some(2899)
  {
    DollarPriceCents(MorningClarityTea.price);
  }

  lemma StressReliefCents()
    ensures PriceCents(StressReliefBlend) == Some(3299)
  {
    DollarPriceCents(StressReliefBlend.price);
  }

  lemma DigestiveHarmonyCents()
    ensures PriceCents(DigestiveHarmony) == Some(2699)
  {
    DollarPriceCents(DigestiveHarmony.price);
  }

  lemma ImmuneBoostCents()
    ensures PriceCents(ImmuneBoostTea) == Some(2999)
  {
    DollarPriceCents(ImmuneBoostTea.price);
  }

  lemma DeepSleepCents()
    ensures PriceCents(DeepSleepBlend) == Some(2799)
  {
    DollarPriceCents(DeepSleepBlend.price);
  }

  lemma UnderTwentyFivePicksTranquilEvening()
    ensures Pick(TranquilEveningBlend, UnderTwentyFive) == [TranquilEveningBlend]
  {
    TranquilEveningCents();
    PriceAloneDecides(TranquilEveningBlend, PriceRange(0, 25));
  }

  lemma UnderTwentyFivePicksMorningClarity()
    ensures Pick(MorningClarityTea, UnderTwentyFive) == []
  {
    MorningClarityCents();
    PriceAloneDecides(MorningClarityTea, PriceRange(0, 25));
  }

  lemma UnderTwentyFivePicksStressRelief()
    ensures Pick(StressReliefBlend, UnderTwentyFive) == []
  {
    StressReliefCents();
    PriceAloneDecides(StressReliefBlend, PriceRange(0, 25));
  }

  lemma UnderTwentyFivePicksDigestiveHarmony()
    ensures Pick(DigestiveHarmony, UnderTwentyFive) == []
  {
    DigestiveHarmonyCents();
    PriceAloneDecides(DigestiveHarmony, PriceRange(0, 25));
  }

  lemma UnderTwentyFivePicksImmuneBoost()
    ensures Pick(ImmuneBoostTea, UnderTwentyFive) == []
  {
    ImmuneBoostCents();
    PriceAloneDecides(ImmuneBoostTea, PriceRange(0, 25));
  }

  lemma UnderTwentyFivePicksDeepSleep()
    ensures Pick(DeepSleepBlend, UnderTwentyFive) == []
  {
    DeepSleepCents();
    PriceAloneDecides(DeepSleepBlend, PriceRange(0, 25));
  }

  /** The "Under $25" window keeps only Tranquil Evening Blend, priced $24.99. */
  lemma UnderTwentyFiveResult()
    ensures Select(AllProducts, UnderTwentyFive) == [TranquilEveningBlend]
  {
    SelectCatalog(UnderTwentyFive);
    UnderTwentyFivePicksTranquilEvening();
    UnderTwentyFivePicksMorningClarity();
    UnderTwentyFivePicksStressRelief();
    UnderTwentyFivePicksDigestiveHarmony();
    UnderTwentyFivePicksImmuneBoost();
    UnderTwentyFivePicksDeepSleep();
  }

  const OverFifty := DefaultCriteria.(priceRange := PriceRange(50, 1000))

  lemma OverFiftyPicksTranquilEvening()
    ensures Pick(TranquilEveningBlend, OverFifty) == []
  {
    TranquilEveningCents();
    PriceAloneDecides(TranquilEveningBlend, PriceRange(50, 1000));
  }

  lemma OverFiftyPicksMorningClarity()
    ensures Pick(MorningClarityTea, OverFifty) == []
  {
    MorningClarityCents();
    PriceAloneDecides(MorningClarityTea, PriceRange(50, 1000));
  }

  lemma OverFiftyPicksStressRelief()
    ensures Pick(StressReliefBlend, OverFifty) == []
  {
    StressReliefCents();
    PriceAloneDecides(StressReliefBlend, PriceRange(50, 1000));
  }

  lemma OverFiftyPicksDigestiveHarmony()
    ensures Pick(DigestiveHarmony, OverFifty) == []
  {
    DigestiveHarmonyCents();
    PriceAloneDecides(DigestiveHarmony, PriceRange(50, 1000));
  }

  lemma OverFiftyPicksImmuneBoost()
    ensures Pick(ImmuneBoostTea, OverFifty) == []
  {
    ImmuneBoostCents();
    PriceAloneDecides(ImmuneBoostTea, PriceRange(50, 1000));
  }

  lemma OverFiftyPicksDeepSleep()
    ensures Pick(DeepSleepBlend, OverFifty) == []
  {
    DeepSleepCents();
    PriceAloneDecides(DeepSleepBlend, PriceRange(50, 1000));
  }

  /** The "Over $50" window empties the grid: every catalog price is below $50. */
  lemma OverFiftyResult()
    ensures Select(AllProducts, OverFifty) == []
  {
    SelectCatalog(OverFifty);
    OverFiftyPicksTranquilEvening();
    OverFiftyPicksMorningClarity();
    OverFiftyPicksStressRelief();
    OverFiftyPicksDigestiveHarmony();
    OverFiftyPicksImmuneBoost();
    OverFiftyPicksDeepSleep();
  }

  const OutOfStock := DefaultCriteria.(availabilityFilter := Some(false))

  lemma OutOfStockPicksTranquilEvening()
    ensures Pick(TranquilEveningBlend, OutOfStock) == []
  {
    TranquilEveningInFullRange();
    AvailabilityAloneDecides(TranquilEveningBlend, Some(false));
  }

  lemma OutOfStockPicksMorningClarity()
    ensures Pick(MorningClarityTea, OutOfStock) == []
  {
    MorningClarityInFullRange();
    AvailabilityAloneDecides(MorningClarityTea, Some(false));
  }

  lemma OutOfStockPicksStressRelief()
    ensures Pick(StressReliefBlend, OutOfStock) == [StressReliefBlend]
  {
    StressReliefInFullRange();
    AvailabilityAloneDecides(StressReliefBlend, Some(false));
  }

  lemma OutOfStockPicksDigestiveHarmony()
    ensures Pick(DigestiveHarmony, OutOfStock) == []
  {
    DigestiveHarmonyInFullRange();
    AvailabilityAloneDecides(DigestiveHarmony, Some(false));
  }

  lemma OutOfStockPicksImmuneBoost()
    ensures Pick(ImmuneBoostTea, OutOfStock) == []
  {
    ImmuneBoostInFullRange();
    AvailabilityAloneDecides(ImmuneBoostTea, Some(false));
  }

  lemma OutOfStockPicksDeepSleep()
    ensures Pick(DeepSleepBlend, OutOfStock) == []
  {
    DeepSleepInFullRange();
    AvailabilityAloneDecides(DeepSleepBlend, Some(false));
  }

  /** "Out of Stock" keeps only Stress Relief Blend. */
  lemma OutOfStockResult()
    ensures Select(AllProducts, OutOfStock) == [StressReliefBlend]
  {
    SelectCatalog(OutOfStock);
    OutOfStockPicksTranquilEvening();
    OutOfStockPicksMorningClarity();
    OutOfStockPicksStressRelief();
    OutOfStockPicksDigestiveHarmony();
    OutOfStockPicksImmuneBoost();
    OutOfStockPicksDeepSleep();
  }
}

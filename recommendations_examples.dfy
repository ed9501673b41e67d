/**
 * The recommendation panel on this catalog: the scores without and with the
 * products page's preferences, and the four products each ranking shows.
 * Each fact about one product or one tag is proved on its own.
 */
module RecommendationsExamples {
  import opened Optional
  import opened Text
  import opened Seqs
  import opened Catalog
  import opened Recommendations

  /** The preferences the products page passes to the panel: "wellness", then "organic". */
  predicate IsWellnessOrganic(preferences: seq<string>)
  {
    |preferences| == 2 && preferences[0] == "wellness" && preferences[1] == "organic"
  }

  /** Filtering a four-element list, element by element. */
  lemma FilterFour<T(!new)>(s: seq<T>, keep: T -> bool)
    requires |s| == 4
    ensures Filter(s, keep) == PickBy(s[0], keep) + (PickBy(s[1], keep) + (PickBy(s[2], keep) + PickBy(s[3], keep)))
  {
    var s1 := s[1..];
    var s2 := s1[1..];
    var s3 := s2[1..];
    assert s3[1..] == [];
    assert Filter(s3, keep) == PickBy(s[3], keep);
    assert Filter(s2, keep) == PickBy(s[2], keep) + Filter(s3, keep);
    assert Filter(s1, keep) == PickBy(s[1], keep) + Filter(s2, keep);
  }

  /** Without preferences nothing is excluded: the candidates are the catalog. */
  lemma NoExclusionKeepsCatalog()
    ensures Candidates(None) == AllProducts
  {
    FilterKeepsAll(AllProducts, NotCurrentTest(None));
  }

  /** Scoring a six-element list, given each element's score. */
  lemma ScoreAllSix(ps: seq<Product>, preferences: seq<string>, v: seq<real>)
    requires |ps| == 6 && |v| == 6
    requires forall i | 0 <= i < 6 :: Score(ps[i], preferences) == v[i]
    ensures ScoreAll(ps, preferences)
      == [Scored(ps[0], v[0]), Scored(ps[1], v[1]), Scored(ps[2], v[2]),
          Scored(ps[3], v[3]), Scored(ps[4], v[4]), Scored(ps[5], v[5])]
  {
  }

  /** The scored catalog, given the score of the product at each position. */
  lemma CatalogScores(preferences: seq<string>, v: seq<real>)
    requires |v| == 6 && |AllProducts| == 6
    requires forall i | 0 <= i < 6 :: Score(AllProducts[i], preferences) == v[i]
    ensures ScoreAll(Candidates(None), preferences)
      == [Scored(AllProducts[0], v[0]), Scored(AllProducts[1], v[1]), Scored(AllProducts[2], v[2]),
          Scored(AllProducts[3], v[3]), Scored(AllProducts[4], v[4]), Scored(AllProducts[5], v[5])]
  {
    NoExclusionKeepsCatalog();
    ScoreAllSix(AllProducts, preferences, v);
  }

  lemma PreferencesAreLowerCase()
    ensures Lower("wellness") == "wellness" && Lower("organic") == "organic"
  {
  }

  lemma TagSleepIsLowerCase()
    ensures Lower("Sleep") == "sleep"
  {
  }

  lemma TagSleepMissesWellness()
    ensures !EitherIncludes("Sleep", "wellness")
  {
    TagSleepIsLowerCase();
    PreferencesAreLowerCase();
    NotEitherIncludesByPairs("Sleep", "wellness", 0, 0);
  }

  lemma TagSleepMissesOrganic()
    ensures !EitherIncludes("Sleep", "organic")
  {
    TagSleepIsLowerCase();
    PreferencesAreLowerCase();
    NotEitherIncludesByPairs("Sleep", "organic", 0, 0);
  }

  lemma TagSleepAgainstPreferences(preferences: seq<string>)
    requires IsWellnessOrganic(preferences)
    ensures MatchesPreference("Sleep", preferences) == false
  {
    TagSleepMissesWellness();
    TagSleepMissesOrganic();
    forall pref | pref in preferences ensures !EitherIncludes("Sleep", pref) {
      assert pref == preferences[0] || pref == preferences[1];
    }
  }

  lemma TagRelaxationIsLowerCase()
    ensures Lower("Relaxation") == "relaxation"
  {
  }

  lemma TagRelaxationMissesWellness()
    ensures !EitherIncludes("Relaxation", "wellness")
  {
    TagRelaxationIsLowerCase();
    PreferencesAreLowerCase();
    NotEitherIncludesByPairs("Relaxation", "wellness", 0, 0);
  }

  lemma TagRelaxationMissesOrganic()
    ensures !EitherIncludes("Relaxation", "organic")
  {
    TagRelaxationIsLowerCase();
    PreferencesAreLowerCase();
    NotEitherIncludesByPairs("Relaxation", "organic", 0, 0);
  }

  lemma TagRelaxationAgainstPreferences(preferences: seq<string>)
    requires IsWellnessOrganic(preferences)
    ensures MatchesPreference("Relaxation", preferences) == false
  {
    TagRelaxationMissesWellness();
    TagRelaxationMissesOrganic();
    forall pref | pref in preferences ensures !EitherIncludes("Relaxation", pref) {
      assert pref == preferences[0] || pref == preferences[1];
    }
  }

  lemma TagEveningIsLowerCase()
    ensures Lower("Evening") == "evening"
  {
  }

  lemma TagEveningMissesWellness()
    ensures !EitherIncludes("Evening", "wellness")
  {
    TagEveningIsLowerCase();
    PreferencesAreLowerCase();
    NotEitherIncludesByPairs("Evening", "wellness", 0, 0);
  }

  lemma TagEveningMissesOrganic()
    ensures !EitherIncludes("Evening", "organic")
  {
    TagEveningIsLowerCase();
    PreferencesAreLowerCase();
    NotEitherIncludesByPairs("Evening", "organic", 0, 0);
  }

  lemma TagEveningAgainstPreferences(preferences: seq<string>)
    requires IsWellnessOrganic(preferences)
    ensures MatchesPreference("Evening", preferences) == false
  {
    TagEveningMissesWellness();
    TagEveningMissesOrganic();
    forall pref | pref in preferences ensures !EitherIncludes("Evening", pref) {
      assert pref == preferences[0] || pref == preferences[1];
    }
  }

  lemma TagOrganicIsLowerCase()
    ensures Lower("Organic") == "organic"
  {
  }

  lemma TagOrganicMissesWellness()
    ensures !EitherIncludes("Organic", "wellness")
  {
    TagOrganicIsLowerCase();
    PreferencesAreLowerCase();
    NotEitherIncludesByPairs("Organic", "wellness", 0, 0);
  }

  lemma TagOrganicMatchesOrganic()
    ensures EitherIncludes("Organic", "organic")
  {
    TagOrganicIsLowerCase();
    PreferencesAreLowerCase();
    IncludesSelf("organic");
  }

  lemma TagOrganicAgainstPreferences(preferences: seq<string>)
    requires IsWellnessOrganic(preferences)
    ensures MatchesPreference("Organic", preferences) == true
  {
    TagOrganicMissesWellness();
    TagOrganicMatchesOrganic();
    assert preferences[1] in preferences;
  }

  lemma TagFocusIsLowerCase()
    ensures Lower("Focus") == "focus"
  {
  }

  lemma TagFocusMissesWellness()
    ensures !EitherIncludes("Focus", "wellness")
  {
    TagFocusIsLowerCase();
    PreferencesAreLowerCase();
    NotEitherIncludesByPairs("Focus", "wellness", 0, 0);
  }

  lemma TagFocusMissesOrganic()
    ensures !EitherIncludes("Focus", "organic")
  {
    TagFocusIsLowerCase();
    PreferencesAreLowerCase();
    NotEitherIncludesByPairs("Focus", "organic", 0, 0);
  }

  lemma TagFocusAgainstPreferences(preferences: seq<string>)
    requires IsWellnessOrganic(preferences)
    ensures MatchesPreference("Focus", preferences) == false
  {
    TagFocusMissesWellness();
    TagFocusMissesOrganic();
    forall pref | pref in preferences ensures !EitherIncludes("Focus", pref) {
      assert pref == preferences[0] || pref == preferences[1];
    }
  }

  lemma TagEnergyIsLowerCase()
    ensures Lower("Energy") == "energy"
  {
  }

  lemma TagEnergyMissesWellness()
    ensures !EitherIncludes("Energy", "wellness")
  {
    TagEnergyIsLowerCase();
    PreferencesAreLowerCase();
    NotEitherIncludesByPairs("Energy", "wellness", 0, 0);
  }

  lemma TagEnergyMissesOrganic()
    ensures !EitherIncludes("Energy", "organic")
  {
    TagEnergyIsLowerCase();
    PreferencesAreLowerCase();
    NotEitherIncludesByPairs("Energy", "organic", 0, 0);
  }

  lemma TagEnergyAgainstPreferences(preferences: seq<string>)
    requires IsWellnessOrganic(preferences)
    ensures MatchesPreference("Energy", preferences) == false
  {
    TagEnergyMissesWellness();
    TagEnergyMissesOrganic();
    forall pref | pref in preferences ensures !EitherIncludes("Energy", pref) {
      assert pref == preferences[0] || pref == preferences[1];
    }
  }

  lemma TagMorningIsLowerCase()
    ensures Lower("Morning") == "morning"
  {
  }

  lemma TagMorningMissesWellness()
    ensures !EitherIncludes("Morning", "wellness")
  {
    TagMorningIsLowerCase();
    PreferencesAreLowerCase();
    NotEitherIncludesByPairs("Morning", "wellness", 0, 0);
  }

  lemma TagMorningMissesOrganic()
    ensures !EitherIncludes("Morning", "organic")
  {
    TagMorningIsLowerCase();
    PreferencesAreLowerCase();
    NotEitherIncludesByPairs("Morning", "organic", 1, 0);
  }

  lemma TagMorningAgainstPreferences(preferences: seq<string>)
    requires IsWellnessOrganic(preferences)
    ensures MatchesPreference("Morning", preferences) == false
  {
    TagMorningMissesWellness();
    TagMorningMissesOrganic();
    forall pref | pref in preferences ensures !EitherIncludes("Morning", pref) {
      assert pref == preferences[0] || pref == preferences[1];
    }
  }

  lemma TagPremiumIsLowerCase()
    ensures Lower("Premium") == "premium"
  {
  }

  lemma TagPremiumMissesWellness()
    ensures !EitherIncludes("Premium", "wellness")
  {
    TagPremiumIsLowerCase();
    PreferencesAreLowerCase();
    NotEitherIncludesByPairs("Premium", "wellness", 0, 0);
  }

  lemma TagPremiumMissesOrganic()
    ensures !EitherIncludes("Premium", "organic")
  {
    TagPremiumIsLowerCase();
    PreferencesAreLowerCase();
    NotEitherIncludesByPairs("Premium", "organic", 0, 0);
  }

  lemma TagPremiumAgainstPreferences(preferences: seq<string>)
    requires IsWellnessOrganic(preferences)
    ensures MatchesPreference("Premium", preferences) == false
  {
    TagPremiumMissesWellness();
    TagPremiumMissesOrganic();
    forall pref | pref in preferences ensures !EitherIncludes("Premium", pref) {
      assert pref == preferences[0] || pref == preferences[1];
    }
  }

  lemma TagStressReliefIsLowerCase()
    ensures Lower("Stress Relief") == "stress relief"
  {
  }

  lemma TagStressReliefMissesWellness()
    ensures !EitherIncludes("Stress Relief", "wellness")
  {
    TagStressReliefIsLowerCase();
    PreferencesAreLowerCase();
    NotEitherIncludesByPairs("Stress Relief", "wellness", 0, 0);
  }

  lemma TagStressReliefMissesOrganic()
    ensures !EitherIncludes("Stress Relief", "organic")
  {
    TagStressReliefIsLowerCase();
    PreferencesAreLowerCase();
    NotEitherIncludesByPairs("Stress Relief", "organic", 0, 0);
  }

  lemma TagStressReliefAgainstPreferences(preferences: seq<string>)
    requires IsWellnessOrganic(preferences)
    ensures MatchesPreference("Stress Relief", preferences) == false
  {
    TagStressReliefMissesWellness();
    TagStressReliefMissesOrganic();
    forall pref | pref in preferences ensures !EitherIncludes("Stress Relief", pref) {
      assert pref == preferences[0] || pref == preferences[1];
    }
  }

  lemma TagCalmIsLowerCase()
    ensures Lower("Calm") == "calm"
  {
  }

  lemma TagCalmMissesWellness()
    ensures !EitherIncludes("Calm", "wellness")
  {
    TagCalmIsLowerCase();
    PreferencesAreLowerCase();
    NotEitherIncludesByPairs("Calm", "wellness", 0, 0);
  }

  lemma TagCalmMissesOrganic()
    ensures !EitherIncludes("Calm", "organic")
  {
    TagCalmIsLowerCase();
    PreferencesAreLowerCase();
    NotEitherIncludesByPairs("Calm", "organic", 0, 0);
  }

  lemma TagCalmAgainstPreferences(preferences: seq<string>)
    requires IsWellnessOrganic(preferences)
    ensures MatchesPreference("Calm", preferences) == false
  {
    TagCalmMissesWellness();
    TagCalmMissesOrganic();
    forall pref | pref in preferences ensures !EitherIncludes("Calm", pref) {
      assert pref == preferences[0] || pref == preferences[1];
    }
  }

  lemma TagAyurvedicIsLowerCase()
    ensures Lower("Ayurvedic") == "ayurvedic"
  {
  }

  lemma TagAyurvedicMissesWellness()
    ensures !EitherIncludes("Ayurvedic", "wellness")
  {
    TagAyurvedicIsLowerCase();
    PreferencesAreLowerCase();
    NotEitherIncludesByPairs("Ayurvedic", "wellness", 0, 0);
  }

  lemma TagAyurvedicMissesOrganic()
    ensures !EitherIncludes("Ayurvedic", "organic")
  {
    TagAyurvedicIsLowerCase();
    PreferencesAreLowerCase();
    NotEitherIncludesByPairs("Ayurvedic", "organic", 0, 0);
  }

  lemma TagAyurvedicAgainstPreferences(preferences: seq<string>)
    requires IsWellnessOrganic(preferences)
    ensures MatchesPreference("Ayurvedic", preferences) == false
  {
    TagAyurvedicMissesWellness();
    TagAyurvedicMissesOrganic();
    forall pref | pref in preferences ensures !EitherIncludes("Ayurvedic", pref) {
      assert pref == preferences[0] || pref == preferences[1];
    }
  }

  lemma TagTraditionalIsLowerCase()
    ensures Lower("Traditional") == "traditional"
  {
  }

  lemma TagTraditionalMissesWellness()
    ensures !EitherIncludes("Traditional", "wellness")
  {
    TagTraditionalIsLowerCase();
    PreferencesAreLowerCase();
    NotEitherIncludesByPairs("Traditional", "wellness", 0, 0);
  }

  lemma TagTraditionalMissesOrganic()
    ensures !EitherIncludes("Traditional", "organic")
  {
    TagTraditionalIsLowerCase();
    PreferencesAreLowerCase();
    NotEitherIncludesByPairs("Traditional", "organic", 0, 0);
  }

  lemma TagTraditionalAgainstPreferences(preferences: seq<string>)
    requires IsWellnessOrganic(preferences)
    ensures MatchesPreference("Traditional", preferences) == false
  {
    TagTraditionalMissesWellness();
    TagTraditionalMissesOrganic();
    forall pref | pref in preferences ensures !EitherIncludes("Traditional", pref) {
      assert pref == preferences[0] || pref == preferences[1];
    }
  }

  lemma TagDigestionIsLowerCase()
    ensures Lower("Digestion") == "digestion"
  {
  }

  lemma TagDigestionMissesWellness()
    ensures !EitherIncludes("Digestion", "wellness")
  {
    TagDigestionIsLowerCase();
    PreferencesAreLowerCase();
    NotEitherIncludesByPairs("Digestion", "wellness", 0, 0);
  }

  lemma TagDigestionMissesOrganic()
    ensures !EitherIncludes("Digestion", "organic")
  {
    TagDigestionIsLowerCase();
    PreferencesAreLowerCase();
    NotEitherIncludesByPairs("Digestion", "organic", 0, 0);
  }

  lemma TagDigestionAgainstPreferences(preferences: seq<string>)
    requires IsWellnessOrganic(preferences)
    ensures MatchesPreference("Digestion", preferences) == false
  {
    TagDigestionMissesWellness();
    TagDigestionMissesOrganic();
    forall pref | pref in preferences ensures !EitherIncludes("Digestion", pref) {
      assert pref == preferences[0] || pref == preferences[1];
    }
  }

  lemma TagWellnessIsLowerCase()
    ensures Lower("Wellness") == "wellness"
  {
  }

  lemma TagWellnessMatchesWellness()
    ensures EitherIncludes("Wellness", "wellness")
  {
    TagWellnessIsLowerCase();
    PreferencesAreLowerCase();
    IncludesSelf("wellness");
  }

  lemma TagWellnessMissesOrganic()
    ensures !EitherIncludes("Wellness", "organic")
  {
    TagWellnessIsLowerCase();
    PreferencesAreLowerCase();
    NotEitherIncludesByPairs("Wellness", "organic", 0, 0);
  }

  lemma TagWellnessAgainstPreferences(preferences: seq<string>)
    requires IsWellnessOrganic(preferences)
    ensures MatchesPreference("Wellness", preferences) == true
  {
    TagWellnessMatchesWellness();
    TagWellnessMissesOrganic();
    assert preferences[0] in preferences;
  }

  lemma TagHerbalIsLowerCase()
    ensures Lower("Herbal") == "herbal"
  {
  }

  lemma TagHerbalMissesWellness()
    ensures !EitherIncludes("Herbal", "wellness")
  {
    TagHerbalIsLowerCase();
    PreferencesAreLowerCase();
    NotEitherIncludesByPairs("Herbal", "wellness", 0, 0);
  }

  lemma TagHerbalMissesOrganic()
    ensures !EitherIncludes("Herbal", "organic")
  {
    TagHerbalIsLowerCase();
    PreferencesAreLowerCase();
    NotEitherIncludesByPairs("Herbal", "organic", 0, 0);
  }

  lemma TagHerbalAgainstPreferences(preferences: seq<string>)
    requires IsWellnessOrganic(preferences)
    ensures MatchesPreference("Herbal", preferences) == false
  {
    TagHerbalMissesWellness();
    TagHerbalMissesOrganic();
    forall pref | pref in preferences ensures !EitherIncludes("Herbal", pref) {
      assert pref == preferences[0] || pref == preferences[1];
    }
  }

  lemma TagNaturalIsLowerCase()
    ensures Lower("Natural") == "natural"
  {
  }

  lemma TagNaturalMissesWellness()
    ensures !EitherIncludes("Natural", "wellness")
  {
    TagNaturalIsLowerCase();
    PreferencesAreLowerCase();
    NotEitherIncludesByPairs("Natural", "wellness", 0, 0);
  }

  lemma TagNaturalMissesOrganic()
    ensures !EitherIncludes("Natural", "organic")
  {
    TagNaturalIsLowerCase();
    PreferencesAreLowerCase();
    NotEitherIncludesByPairs("Natural", "organic", 0, 0);
  }

  lemma TagNaturalAgainstPreferences(preferences: seq<string>)
    requires IsWellnessOrganic(preferences)
    ensures MatchesPreference("Natural", preferences) == false
  {
    TagNaturalMissesWellness();
    TagNaturalMissesOrganic();
    forall pref | pref in preferences ensures !EitherIncludes("Natural", pref) {
      assert pref == preferences[0] || pref == preferences[1];
    }
  }

  lemma TagImmunityIsLowerCase()
    ensures Lower("Immunity") == "immunity"
  {
  }

  lemma TagImmunityMissesWellness()
    ensures !EitherIncludes("Immunity", "wellness")
  {
    TagImmunityIsLowerCase();
    PreferencesAreLowerCase();
    NotEitherIncludesByPairs("Immunity", "wellness", 0, 0);
  }

  lemma TagImmunityMissesOrganic()
    ensures !EitherIncludes("Immunity", "organic")
  {
    TagImmunityIsLowerCase();
    PreferencesAreLowerCase();
    NotEitherIncludesByPairs("Immunity", "organic", 0, 0);
  }

  lemma TagImmunityAgainstPreferences(preferences: seq<string>)
    requires IsWellnessOrganic(preferences)
    ensures MatchesPreference("Immunity", preferences) == false
  {
    TagImmunityMissesWellness();
    TagImmunityMissesOrganic();
    forall pref | pref in preferences ensures !EitherIncludes("Immunity", pref) {
      assert pref == preferences[0] || pref == preferences[1];
    }
  }

  lemma TagWildcraftedIsLowerCase()
    ensures Lower("Wildcrafted") == "wildcrafted"
  {
  }

  lemma TagWildcraftedMissesWellness()
    ensures !EitherIncludes("Wildcrafted", "wellness")
  {
    TagWildcraftedIsLowerCase();
    PreferencesAreLowerCase();
    NotEitherIncludesByPairs("Wildcrafted", "wellness", 0, 0);
  }

  lemma TagWildcraftedMissesOrganic()
    ensures !EitherIncludes("Wildcrafted", "organic")
  {
    TagWildcraftedIsLowerCase();
    PreferencesAreLowerCase();
    NotEitherIncludesByPairs("Wildcrafted", "organic", 0, 0);
  }

  lemma TagWildcraftedAgainstPreferences(preferences: seq<string>)
    requires IsWellnessOrganic(preferences)
    ensures MatchesPreference("Wildcrafted", preferences) == false
  {
    TagWildcraftedMissesWellness();
    TagWildcraftedMissesOrganic();
    forall pref | pref in preferences ensures !EitherIncludes("Wildcrafted", pref) {
      assert pref == preferences[0] || pref == preferences[1];
    }
  }

  lemma TranquilEveningScore()
    ensures Score(TranquilEveningBlend, []) == 58.0
  {
  }

  lemma TranquilEveningMatchingTags(preferences: seq<string>)
    requires IsWellnessOrganic(preferences)
    ensures |MatchingTags(TranquilEveningBlend.tags, preferences)| == 1
  {
    FilterFour(TranquilEveningBlend.tags, PreferenceTest(preferences));
    TagSleepAgainstPreferences(preferences);
    TagRelaxationAgainstPreferences(preferences);
    TagEveningAgainstPreferences(preferences);
    TagOrganicAgainstPreferences(preferences);
  }

  lemma TranquilEveningScoreWithPreferences(preferences: seq<string>)
    requires IsWellnessOrganic(preferences)
    ensures Score(TranquilEveningBlend, preferences) == 63.0
  {
    TranquilEveningMatchingTags(preferences);
  }

  lemma MorningClarityScore()
    ensures Score(MorningClarityTea, []) == 59.0
  {
  }

  lemma MorningClarityMatchingTags(preferences: seq<string>)
    requires IsWellnessOrganic(preferences)
    ensures |MatchingTags(MorningClarityTea.tags, preferences)| == 0
  {
    FilterFour(MorningClarityTea.tags, PreferenceTest(preferences));
    TagFocusAgainstPreferences(preferences);
    TagEnergyAgainstPreferences(preferences);
    TagMorningAgainstPreferences(preferences);
    TagPremiumAgainstPreferences(preferences);
  }

  lemma MorningClarityScoreWithPreferences(preferences: seq<string>)
    requires IsWellnessOrganic(preferences)
    ensures Score(MorningClarityTea, preferences) == 59.0
  {
    MorningClarityMatchingTags(preferences);
  }

  lemma StressReliefScore()
    ensures Score(StressReliefBlend, []) == 55.9
  {
  }

  lemma StressReliefMatchingTags(preferences: seq<string>)
    requires IsWellnessOrganic(preferences)
    ensures |MatchingTags(StressReliefBlend.tags, preferences)| == 0
  {
    FilterFour(StressReliefBlend.tags, PreferenceTest(preferences));
    TagStressReliefAgainstPreferences(preferences);
    TagCalmAgainstPreferences(preferences);
    TagAyurvedicAgainstPreferences(preferences);
    TagTraditionalAgainstPreferences(preferences);
  }

  lemma StressReliefScoreWithPreferences(preferences: seq<string>)
    requires IsWellnessOrganic(preferences)
    ensures Score(StressReliefBlend, preferences) == 55.9
  {
    StressReliefMatchingTags(preferences);
  }

  lemma DigestiveHarmonyScore()
    ensures Score(DigestiveHarmony, []) == 56.0
  {
  }

  lemma DigestiveHarmonyMatchingTags(preferences: seq<string>)
    requires IsWellnessOrganic(preferences)
    ensures |MatchingTags(DigestiveHarmony.tags, preferences)| == 1
  {
    FilterFour(DigestiveHarmony.tags, PreferenceTest(preferences));
    TagDigestionAgainstPreferences(preferences);
    TagWellnessAgainstPreferences(preferences);
    TagHerbalAgainstPreferences(preferences);
    TagNaturalAgainstPreferences(preferences);
  }

  lemma DigestiveHarmonyScoreWithPreferences(preferences: seq<string>)
    requires IsWellnessOrganic(preferences)
    ensures Score(DigestiveHarmony, preferences) == 61.0
  {
    DigestiveHarmonyMatchingTags(preferences);
  }

  lemma ImmuneBoostScore()
    ensures Score(ImmuneBoostTea, []) == 58.0
  {
  }

  lemma ImmuneBoostMatchingTags(preferences: seq<string>)
    requires IsWellnessOrganic(preferences)
    ensures |MatchingTags(ImmuneBoostTea.tags, preferences)| == 2
  {
    FilterFour(ImmuneBoostTea.tags, PreferenceTest(preferences));
    TagImmunityAgainstPreferences(preferences);
    TagWellnessAgainstPreferences(preferences);
    TagOrganicAgainstPreferences(preferences);
    TagWildcraftedAgainstPreferences(preferences);
  }

  lemma ImmuneBoostScoreWithPreferences(preferences: seq<string>)
    requires IsWellnessOrganic(preferences)
    ensures Score(ImmuneBoostTea, preferences) == 68.0
  {
    ImmuneBoostMatchingTags(preferences);
  }

  lemma DeepSleepScore()
    ensures Score(DeepSleepBlend, []) == 58.8
  {
  }

  lemma DeepSleepMatchingTags(preferences: seq<string>)
    requires IsWellnessOrganic(preferences)
    ensures |MatchingTags(DeepSleepBlend.tags, preferences)| == 0
  {
    FilterFour(DeepSleepBlend.tags, PreferenceTest(preferences));
    TagSleepAgainstPreferences(preferences);
    TagRelaxationAgainstPreferences(preferences);
    TagTraditionalAgainstPreferences(preferences);
    TagHerbalAgainstPreferences(preferences);
  }

  lemma DeepSleepScoreWithPreferences(preferences: seq<string>)
    requires IsWellnessOrganic(preferences)
    ensures Score(DeepSleepBlend, preferences) == 58.8
  {
    DeepSleepMatchingTags(preferences);
  }

  /** The scores without preferences, in catalog order. */
  const PlainScores: seq<Scored> := [
    Scored(TranquilEveningBlend, 58.0),
    Scored(MorningClarityTea, 59.0),
    Scored(StressReliefBlend, 55.9),
    Scored(DigestiveHarmony, 56.0),
    Scored(ImmuneBoostTea, 58.0),
    Scored(DeepSleepBlend, 58.8)]

  lemma PlainScoresAreTheScores()
    ensures ScoreAll(Candidates(None), []) == PlainScores
  {
    var v := [58.0, 59.0, 55.9, 56.0, 58.0, 58.8];
    forall i | 0 <= i < 6 ensures Score(AllProducts[i], []) == v[i] {
      if i == 0 {
        TranquilEveningScore();
      } else if i == 1 {
        MorningClarityScore();
      } else if i == 2 {
        StressReliefScore();
      } else if i == 3 {
        DigestiveHarmonyScore();
      } else if i == 4 {
        ImmuneBoostScore();
      } else if i == 5 {
        DeepSleepScore();
      }
    }
    CatalogScores([], v);
  }

  lemma PlainScoresSortStep0()
    ensures SortDesc(PlainScores[..1]) == [PlainScores[0]]
  {
    SortDescExtend(PlainScores, 0);
    InsertPlaces(PlainScores[0], [], 0);
  }

  lemma PlainScoresSortStep1()
    ensures SortDesc(PlainScores[..2]) == [PlainScores[1], PlainScores[0]]
  {
    PlainScoresSortStep0();
    SortDescExtend(PlainScores, 1);
    InsertPlaces(PlainScores[1], [PlainScores[0]], 0);
  }

  lemma PlainScoresSortStep2()
    ensures SortDesc(PlainScores[..3]) == [PlainScores[1], PlainScores[0], PlainScores[2]]
  {
    PlainScoresSortStep1();
    SortDescExtend(PlainScores, 2);
    InsertPlaces(PlainScores[2], [PlainScores[1], PlainScores[0]], 2);
  }

  lemma PlainScoresSortStep3()
    ensures SortDesc(PlainScores[..4]) == [PlainScores[1], PlainScores[0], PlainScores[3], PlainScores[2]]
  {
    PlainScoresSortStep2();
    SortDescExtend(PlainScores, 3);
    InsertPlaces(PlainScores[3], [PlainScores[1], PlainScores[0], PlainScores[2]], 2);
  }

  lemma PlainScoresSortStep4()
    ensures SortDesc(PlainScores[..5]) == [PlainScores[1], PlainScores[0], PlainScores[4], PlainScores[3], PlainScores[2]]
  {
    PlainScoresSortStep3();
    SortDescExtend(PlainScores, 4);
    InsertPlaces(PlainScores[4], [PlainScores[1], PlainScores[0], PlainScores[3], PlainScores[2]], 2);
  }

  lemma PlainScoresSortStep5()
    ensures SortDesc(PlainScores[..6]) == [PlainScores[1], PlainScores[5], PlainScores[0], PlainScores[4], PlainScores[3], PlainScores[2]]
  {
    PlainScoresSortStep4();
    SortDescExtend(PlainScores, 5);
    InsertPlaces(PlainScores[5], [PlainScores[1], PlainScores[0], PlainScores[4], PlainScores[3], PlainScores[2]], 1);
  }

  lemma PlainScoresSorted(preferences: seq<string>)
    requires ScoreAll(Candidates(None), preferences) == PlainScores
    ensures SortDesc(ScoreAll(Candidates(None), preferences)) == [PlainScores[1], PlainScores[5], PlainScores[0], PlainScores[4], PlainScores[3], PlainScores[2]]
  {
    PlainScoresSortStep5();
    assert PlainScores[..6] == PlainScores;
  }

  /** With no product excluded and no preferences the panel shows ids 2, 6, 1, 5; ids 1 and 5 tie at 58 and keep catalog order. */
  lemma HomePageRanking()
    ensures Ranked(None, []) == [Scored(MorningClarityTea, 59.0), Scored(DeepSleepBlend, 58.8), Scored(TranquilEveningBlend, 58.0), Scored(ImmuneBoostTea, 58.0)]
  {
    PlainScoresAreTheScores();
    PlainScoresSorted([]);
  }

  /** The scores with the products page's preferences, in catalog order. */
  const PreferenceScores: seq<Scored> := [
    Scored(TranquilEveningBlend, 63.0),
    Scored(MorningClarityTea, 59.0),
    Scored(StressReliefBlend, 55.9),
    Scored(DigestiveHarmony, 61.0),
    Scored(ImmuneBoostTea, 68.0),
    Scored(DeepSleepBlend, 58.8)]

  lemma PreferenceScoresAreTheScores(preferences: seq<string>)
    requires IsWellnessOrganic(preferences)
    ensures ScoreAll(Candidates(None), preferences) == PreferenceScores
  {
    var v := [63.0, 59.0, 55.9, 61.0, 68.0, 58.8];
    forall i | 0 <= i < 6 ensures Score(AllProducts[i], preferences) == v[i] {
      if i == 0 {
        TranquilEveningScoreWithPreferences(preferences);
      } else if i == 1 {
        MorningClarityScoreWithPreferences(preferences);
      } else if i == 2 {
        StressReliefScoreWithPreferences(preferences);
      } else if i == 3 {
        DigestiveHarmonyScoreWithPreferences(preferences);
      } else if i == 4 {
        ImmuneBoostScoreWithPreferences(preferences);
      } else if i == 5 {
        DeepSleepScoreWithPreferences(preferences);
      }
    }
    CatalogScores(preferences, v);
  }

  lemma PreferenceScoresSortStep0()
    ensures SortDesc(PreferenceScores[..1]) == [PreferenceScores[0]]
  {
    SortDescExtend(PreferenceScores, 0);
    InsertPlaces(PreferenceScores[0], [], 0);
  }

  lemma PreferenceScoresSortStep1()
    ensures SortDesc(PreferenceScores[..2]) == [PreferenceScores[0], PreferenceScores[1]]
  {
    PreferenceScoresSortStep0();
    SortDescExtend(PreferenceScores, 1);
    InsertPlaces(PreferenceScores[1], [PreferenceScores[0]], 1);
  }

  lemma PreferenceScoresSortStep2()
    ensures SortDesc(PreferenceScores[..3]) == [PreferenceScores[0], PreferenceScores[1], PreferenceScores[2]]
  {
    PreferenceScoresSortStep1();
    SortDescExtend(PreferenceScores, 2);
    InsertPlaces(PreferenceScores[2], [PreferenceScores[0], PreferenceScores[1]], 2);
  }

  lemma PreferenceScoresSortStep3()
    ensures SortDesc(PreferenceScores[..4]) == [PreferenceScores[0], PreferenceScores[3], PreferenceScores[1], PreferenceScores[2]]
  {
    PreferenceScoresSortStep2();
    SortDescExtend(PreferenceScores, 3);
    InsertPlaces(PreferenceScores[3], [PreferenceScores[0], PreferenceScores[1], PreferenceScores[2]], 1);
  }

  lemma PreferenceScoresSortStep4()
    ensures SortDesc(PreferenceScores[..5]) == [PreferenceScores[4], PreferenceScores[0], PreferenceScores[3], PreferenceScores[1], PreferenceScores[2]]
  {
    PreferenceScoresSortStep3();
    SortDescExtend(PreferenceScores, 4);
    InsertPlaces(PreferenceScores[4], [PreferenceScores[0], PreferenceScores[3], PreferenceScores[1], PreferenceScores[2]], 0);
  }

  lemma PreferenceScoresSortStep5()
    ensures SortDesc(PreferenceScores[..6]) == [PreferenceScores[4], PreferenceScores[0], PreferenceScores[3], PreferenceScores[1], PreferenceScores[5], PreferenceScores[2]]
  {
    PreferenceScoresSortStep4();
    SortDescExtend(PreferenceScores, 5);
    InsertPlaces(PreferenceScores[5], [PreferenceScores[4], PreferenceScores[0], PreferenceScores[3], PreferenceScores[1], PreferenceScores[2]], 4);
  }

  lemma PreferenceScoresSorted(preferences: seq<string>)
    requires ScoreAll(Candidates(None), preferences) == PreferenceScores
    ensures SortDesc(ScoreAll(Candidates(None), preferences)) == [PreferenceScores[4], PreferenceScores[0], PreferenceScores[3], PreferenceScores[1], PreferenceScores[5], PreferenceScores[2]]
  {
    PreferenceScoresSortStep5();
    assert PreferenceScores[..6] == PreferenceScores;
  }

  /** With the preferences "wellness" and "organic" the panel shows ids 5, 1, 4, 2. */
  lemma ProductsPageRanking(preferences: seq<string>)
    requires IsWellnessOrganic(preferences)
    ensures Ranked(None, preferences) == [Scored(ImmuneBoostTea, 68.0), Scored(TranquilEveningBlend, 63.0), Scored(DigestiveHarmony, 61.0), Scored(MorningClarityTea, 59.0)]
  {
    PreferenceScoresAreTheScores(preferences);
    PreferenceScoresSorted(preferences);
  }

}

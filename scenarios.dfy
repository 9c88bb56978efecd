/** What `recommend` does on the actual catalog for some particular answer
    sets. */
module Scenarios {
  import opened Catalog
  import opened Scoring
  import opened Ranking
  import opened Recommender

  /** Every avoidance the wizard offers, as the lower-case tags it stores. */
  const ALL_AVOIDANCES: seq<string> := ["dairy", "gluten", "nuts", "eggs", "soy", "shellfish", "sesame"]

  /** Avoiding everything the wizard offers still leaves five meals: Lentil
      Curry + Rice, Turkey Chili and Chickpea Pasta Primavera (no allergen
      tags), Beef Steak Plate (only the conditional "dairy?") and Sardine
      Avocado Toast ("fish" is not among the offered avoidances, "gluten?"
      is conditional). So the "no meals fit" answer does not come. Only
      membership matters, so the avoided tags may come in any order and
      with repeats. */
  lemma AllAvoidedLeavesFive(ans: Answers, topK: nat, seed: Seed)
    requires forall a :: a in ans.avoids <==> a in ALL_AVOIDANCES
    requires ValidSeed(seed)
    ensures FitSet(MEALS, ans) == {3, 4, 5, 8, 11}
    ensures FitCount(MEALS, ans) == 5
    ensures Recommended(MEALS, ans, topK, seed).explanation == DEFAULT_EXPLANATION
    ensures |Recommended(MEALS, ans, topK, seed).topRecommendations| == Min(topK, 5)
  {
    AllAvoidedExcluded(ans.avoids);
    AllAvoidedKept(ans.avoids);
    FitSetIs(MEALS, ans, {3, 4, 5, 8, 11});
    FiveElements();
    NoFitExactly(MEALS, ans, topK, seed);
    CountIsMin(MEALS, ans, topK, seed);
  }

  lemma AllAvoidedExcluded(avoids: seq<string>)
    requires forall a :: a in avoids <==> a in ALL_AVOIDANCES
    ensures forall k :: 0 <= k < |MEALS| && k !in {3, 4, 5, 8, 11} ==> Disqualified(MEALS[k], avoids)
  {
    forall k | 0 <= k < |MEALS| && k !in {3, 4, 5, 8, 11} ensures Disqualified(MEALS[k], avoids)
    {
      // each of these meals carries a tag the user avoids as its first one
      assert k in {0, 1, 2, 6, 7, 9, 10};
      var tag := MEALS[k].allergens[0];
      assert tag in avoids;
    }
  }

  lemma AllAvoidedKept(avoids: seq<string>)
    requires forall a :: a in avoids <==> a in ALL_AVOIDANCES
    ensures forall k :: k in {3, 4, 5, 8, 11} ==> 0 <= k < |MEALS| && !Disqualified(MEALS[k], avoids)
  {
    assert "fish" !in avoids && "gluten?" !in avoids && "dairy?" !in avoids;
    assert MEALS[3].allergens == [] && MEALS[4].allergens == [] && MEALS[11].allergens == [];
    assert MEALS[5].allergens == ["dairy?"];
    assert MEALS[8].allergens == ["gluten?", "fish"];
  }

  lemma FitSetIs(meals: seq<Meal>, ans: Answers, fit: set<int>)
    requires forall k :: k in fit ==> 0 <= k < |meals| && !Disqualified(meals[k], ans.avoids)
    requires forall k :: 0 <= k < |meals| && k !in fit ==> Disqualified(meals[k], ans.avoids)
    ensures FitSet(meals, ans) == fit
  {
  }

  lemma FiveElements()
    ensures |{3, 4, 5, 8, 11}| == 5
  {
    assert {3, 4, 5, 8, 11} == {3, 4, 5, 8} + {11};
    assert {3, 4, 5, 8} == {3, 4, 5} + {8};
    assert {3, 4, 5} == {3, 4} + {5};
    assert {3, 4} == {3} + {4};
  }

  /** With shellfish avoided, the shrimp bowl is never recommended. */
  lemma ShellfishAvoidedExcludesShrimp(ans: Answers, topK: nat, seed: Seed)
    requires "shellfish" in ans.avoids && ValidSeed(seed)
    ensures var top := Recommended(MEALS, ans, topK, seed).topRecommendations;
      forall i :: 0 <= i < |top| ==> top[i].name != "Shrimp Rice Bowl"
  {
    var top := Recommended(MEALS, ans, topK, seed).topRecommendations;
    RecordsAreFittingMeals(MEALS, ans, topK, seed);
    CatalogShape();
    assert MEALS[10].name == "Shrimp Rice Bowl";
    assert Disqualified(MEALS[10], ans.avoids) by { assert "shellfish" in MEALS[10].allergens; }
    forall i | 0 <= i < |top| ensures top[i].name != MEALS[10].name
    {
      var k :| 0 <= k < |MEALS| && !Disqualified(MEALS[k], ans.avoids) && top[i] == Package(EntryFor(MEALS[k], ans));
    }
  }

  /** A user cutting, any timing, wanting fish or seafood, low effort,
      lower sodium and mild food. */
  const CUT_FISH_LOW_EFFORT := Answers("cut", "any", "fish/seafood", [], "low", "lower", "mild")

  /** The shrimp bowl scores 74 for that user (bonuses for seafood, for a
      cut-friendly meal, for low effort and for mild spice); every other
      meal scores less, the closest being 69. */
  lemma CutFishScores()
    ensures Evaluate(MEALS[10], CUT_FISH_LOW_EFFORT).score == 74
    ensures forall k :: 0 <= k < |MEALS| && k != 10 ==> Evaluate(MEALS[k], CUT_FISH_LOW_EFFORT).score < 74
  {
    CutFishScoresFirstHalf();
    CutFishScoresSecondHalf();
  }

  lemma CutFishScoresFirstHalf()
    ensures forall k :: 0 <= k < 6 ==> Evaluate(MEALS[k], CUT_FISH_LOW_EFFORT).score < 74
  {
    forall k | 0 <= k < 6 ensures Evaluate(MEALS[k], CUT_FISH_LOW_EFFORT).score < 74
    {
      assert k in {0, 1, 2, 3, 4, 5};
    }
  }

  lemma CutFishScoresSecondHalf()
    ensures Evaluate(MEALS[10], CUT_FISH_LOW_EFFORT).score == 74
    ensures forall k :: 6 <= k < |MEALS| && k != 10 ==> Evaluate(MEALS[k], CUT_FISH_LOW_EFFORT).score < 74
  {
    forall k | 6 <= k < |MEALS| && k != 10 ensures Evaluate(MEALS[k], CUT_FISH_LOW_EFFORT).score < 74
    {
      assert k in {6, 7, 8, 9, 11};
    }
  }

  /** For that user the single top pick is the shrimp bowl, whatever the
      seed: it is a seafood meal of at most 600 calories and at least 35 g
      of protein, scoring above the baseline. */
  lemma CutFishTopPick(seed: Seed)
    requires ValidSeed(seed)
    ensures var top := Recommended(MEALS, CUT_FISH_LOW_EFFORT, 1, seed).topRecommendations;
      top == [Package(EntryFor(MEALS[10], CUT_FISH_LOW_EFFORT))]
      && top[0].name == "Shrimp Rice Bowl" && top[0].score == 74 > BASELINE
      && top[0].macros.calories <= 600 && top[0].macros.proteinG >= 35
  {
    CutFishScores();
    UniqueBestIsTopPick(MEALS, CUT_FISH_LOW_EFFORT, seed, 10);
  }
}

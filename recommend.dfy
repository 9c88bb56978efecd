/** `recommend` of MealMD: score every catalog meal against the answers, drop
    the disqualified ones, optionally shuffle with a seeded random source,
    sort by descending score (stable), keep the first `topK` and package
    each as a display record. */
module Recommender {
  import opened Catalog
  import opened Scoring
  import opened Ranking

  /** The optional seed. A seeded call shuffles with the draws that seed
      determines (see Ranking.ValidDraws); the unseeded call does not
      shuffle at all. */
  datatype Seed = NoSeed | Seeded(draw: (nat, nat) -> nat)

  ghost predicate ValidSeed(seed: Seed)
  {
    seed.Seeded? ==> ValidDraws(seed.draw)
  }

  datatype Macros = Macros(calories: int, proteinG: int, carbsG: int, fatG: int)

  /** One entry of `top_recommendations`. */
  datatype Recommendation = Recommendation(
    name: string,
    items: seq<string>,
    macros: Macros,
    sodiumMg: int,
    score: int,
    reasons: seq<Reason>,
    flags: seq<Flag>)

  /** The dictionary `recommend` returns. */
  datatype Response = Response(topRecommendations: seq<Recommendation>, explanation: string)

  /** Scores at or below this mark a disqualified meal. */
  const DISQUALIFIED_CUTOFF := -500
  const NO_FIT_EXPLANATION := "No meals fit all choices. Try relaxing one avoidance or picking 'No preference'."
  const DEFAULT_EXPLANATION := "Simple terminal helper for meal ideas."

  function Min(a: int, b: int): int
  {
    if a <= b then a else b
  }

  /** The tuple (score, meal, reasons, flags) that scoring `m` yields. */
  function EntryFor(m: Meal, ans: Answers): Entry
  {
    var r := Evaluate(m, ans);
    Entry(r.score, m, r.reasons, r.flags)
  }

  /** The scored list: the entries of the meals that score above the
      cutoff, in the order of `meals`. */
  function Scored(meals: seq<Meal>, ans: Answers): (r: seq<Entry>)
    ensures |r| <= |meals|
  {
    if meals == [] then []
    else
      var e := EntryFor(meals[|meals| - 1], ans);
      Scored(meals[..|meals| - 1], ans) + (if e.score > DISQUALIFIED_CUTOFF then [e] else [])
  }

  /** The positions of the meals of `meals` that are not disqualified. */
  ghost function FitSet(meals: seq<Meal>, ans: Answers): set<int>
  {
    set k | 0 <= k < |meals| && !Disqualified(meals[k], ans.avoids)
  }

  /** The number of meals of `meals` that are not disqualified. */
  ghost function FitCount(meals: seq<Meal>, ans: Answers): nat
  {
    |FitSet(meals, ans)|
  }

  /** The scored list as it is before the sort: shuffled when seeded. */
  function Arranged(scored: seq<Entry>, seed: Seed): seq<Entry>
    requires ValidSeed(seed)
  {
    match seed
    case NoSeed => scored
    case Seeded(draw) => Shuffled(scored, draw)
  }

  /** The scored catalog in the order of the final list. */
  function Ranked(meals: seq<Meal>, ans: Answers, seed: Seed): seq<Entry>
    requires ValidSeed(seed)
  {
    SortByScore(Arranged(Scored(meals, ans), seed))
  }

  function Package(e: Entry): Recommendation
  {
    Recommendation(e.meal.name, e.meal.items,
                   Macros(e.meal.calories, e.meal.proteinG, e.meal.carbsG, e.meal.fatG),
                   e.meal.sodiumMg, e.score, e.reasons, e.flags)
  }

  function PackageAll(s: seq<Entry>): seq<Recommendation>
  {
    if s == [] then [] else PackageAll(s[..|s| - 1]) + [Package(s[|s| - 1])]
  }

  /** `recommend` over a given catalog, as a function: the reference the
      methods are proved against. */
  function Recommended(meals: seq<Meal>, ans: Answers, topK: nat, seed: Seed): Response
    requires ValidSeed(seed)
  {
    if Scored(meals, ans) == [] then Response([], NO_FIT_EXPLANATION)
    else
      var ranked := Ranked(meals, ans, seed);
      Response(PackageAll(ranked[..Min(topK, |ranked|)]), DEFAULT_EXPLANATION)
  }

  /** The first loop of `recommend`: score each meal in turn and keep the
      tuples of those above the cutoff. */
  method ScoreAll(meals: seq<Meal>, ans: Answers) returns (scored: seq<Entry>)
    ensures scored == Scored(meals, ans)
  {
    scored := [];
    for i := 0 to |meals|
      invariant scored == Scored(meals[..i], ans)
    {
      var s, r, f := ScoreMeal(meals[i], ans);
      if s > DISQUALIFIED_CUTOFF {
        scored := scored + [Entry(s, meals[i], r, f)];
      }
      assert meals[..i + 1][..i] == meals[..i];
    }
    assert meals[..|meals|] == meals;
  }

  /** The last loop of `recommend`: one display record per kept tuple. */
  method PackageTop(top: seq<Entry>) returns (out: seq<Recommendation>)
    ensures out == PackageAll(top)
  {
    out := [];
    for k := 0 to |top|
      invariant out == PackageAll(top[..k])
    {
      out := out + [Package(top[k])];
      assert top[..k + 1][..k] == top[..k];
    }
    assert top[..|top|] == top;
  }

  /** The body of `recommend`, over the catalog it is given. */
  method RecommendFrom(meals: seq<Meal>, ans: Answers, topK: nat, seed: Seed) returns (result: Response)
    requires ValidSeed(seed)
    ensures result == Recommended(meals, ans, topK, seed)
  {
    var scored := ScoreAll(meals, ans);
    if scored == [] {
      return Response([], NO_FIT_EXPLANATION);
    }

    var a := new Entry[|scored|](k requires 0 <= k < |scored| => scored[k]);
    assert a[..] == scored;
    match seed {
      case Seeded(draw) => Shuffle(a, draw);
      case NoSeed =>
    }
    SortInPlace(a);

    var out := PackageTop(a[..Min(topK, a.Length)]);
    return Response(out, DEFAULT_EXPLANATION);
  }

  /** `recommend(ans, top_k, seed)`: the recommendation over the catalog. */
  method Recommend(ans: Answers, topK: nat, seed: Seed) returns (result: Response)
    requires ValidSeed(seed)
    ensures result == Recommended(MEALS, ans, topK, seed)
  {
    result := RecommendFrom(MEALS, ans, topK, seed);
  }

  // ---------------------------------------------------------------------
  // The scored list
  // ---------------------------------------------------------------------

  /** One meal contributes its tuple exactly when it is not disqualified. */
  lemma ScoredSingle(m: Meal, ans: Answers)
    ensures Scored([m], ans) == if Disqualified(m, ans.avoids) then [] else [EntryFor(m, ans)]
  {
    assert [m][..0] == [];
  }

  /** Scoring distributes over concatenation, so the scored list keeps the
      order of the catalog. */
  lemma {:induction false} ScoredAppend(a: seq<Meal>, b: seq<Meal>, ans: Answers)
    ensures Scored(a + b, ans) == Scored(a, ans) + Scored(b, ans)
    decreases |b|
  {
    if b == [] {
      assert a + b == a;
    } else {
      var b' := b[..|b| - 1];
      assert (a + b)[..|a + b| - 1] == a + b';
      ScoredAppend(a, b', ans);
    }
  }

  /** The scored list holds exactly the tuples of the meals that are not
      disqualified, each with that meal's score, reasons and flags. */
  lemma {:induction false} ScoredMembers(meals: seq<Meal>, ans: Answers, e: Entry)
    ensures e in Scored(meals, ans) <==>
      e.meal in meals && !Disqualified(e.meal, ans.avoids) && e == EntryFor(e.meal, ans)
  {
    if meals != [] {
      var init := meals[..|meals| - 1];
      ScoredMembers(init, ans, e);
      SplitLast(meals);
    }
  }

  lemma FitSetSnoc(meals: seq<Meal>, ans: Answers)
    requires meals != []
    ensures FitSet(meals, ans) == FitSet(meals[..|meals| - 1], ans)
      + (if Disqualified(meals[|meals| - 1], ans.avoids) then {} else {|meals| - 1})
    ensures |meals| - 1 !in FitSet(meals[..|meals| - 1], ans)
  {
  }

  /** As many tuples are kept as there are meals that are not disqualified. */
  lemma {:induction false} ScoredCount(meals: seq<Meal>, ans: Answers)
    ensures |Scored(meals, ans)| == FitCount(meals, ans)
  {
    if meals == [] {
      assert FitSet(meals, ans) == {};
    } else {
      ScoredCount(meals[..|meals| - 1], ans);
      FitSetSnoc(meals, ans);
    }
  }

  lemma {:induction false} ScoredNamesDistinct(meals: seq<Meal>, ans: Answers)
    requires DistinctNames(meals)
    ensures NamesDistinct(Scored(meals, ans))
  {
    if meals != [] {
      var n := |meals| - 1;
      var init := meals[..n];
      ScoredNamesDistinct(init, ans);
      var r0 := Scored(init, ans);
      forall i | 0 <= i < |r0| ensures r0[i].meal.name != meals[n].name
      {
        ScoredMembers(init, ans, r0[i]);
        var p :| 0 <= p < n && init[p] == r0[i].meal;
      }
    }
  }

  // ---------------------------------------------------------------------
  // The final list
  // ---------------------------------------------------------------------

  /** The final order is a sorted reordering of the scored list. */
  lemma RankedIsSortedPermutation(meals: seq<Meal>, ans: Answers, seed: Seed)
    requires ValidSeed(seed)
    ensures multiset(Ranked(meals, ans, seed)) == multiset(Scored(meals, ans))
    ensures SortedByScore(Ranked(meals, ans, seed))
  {
    var scored := Scored(meals, ans);
    if seed.Seeded? {
      ShuffledKeepsEntries(scored, seed.draw);
    }
    SortByScoreKeepsEntries(Arranged(scored, seed));
    SortByScoreSorted(Arranged(scored, seed));
  }

  /** Among equal scores the final order is the order before the sort: the
      order of the catalog when no seed is given. */
  lemma TiesKeepArrangedOrder(meals: seq<Meal>, ans: Answers, seed: Seed, v: int)
    requires ValidSeed(seed)
    ensures WithScore(Ranked(meals, ans, seed), v) == WithScore(Arranged(Scored(meals, ans), seed), v)
    ensures seed == NoSeed ==> WithScore(Ranked(meals, ans, seed), v) == WithScore(Scored(meals, ans), v)
  {
    SortByScoreStable(Arranged(Scored(meals, ans), seed), v);
  }

  /** The seed only reorders meals of equal score: with or without it the
      records have the same scores position by position, and each score
      is held by the same tuples. */
  lemma SeedOnlyReordersTies(meals: seq<Meal>, ans: Answers, topK: nat, seed: Seed)
    requires ValidSeed(seed)
    ensures var seeded := Recommended(meals, ans, topK, seed).topRecommendations;
      var plain := Recommended(meals, ans, topK, NoSeed).topRecommendations;
      |seeded| == |plain| && forall i :: 0 <= i < |seeded| ==> seeded[i].score == plain[i].score
    ensures forall v :: multiset(WithScore(Ranked(meals, ans, seed), v)) == multiset(WithScore(Ranked(meals, ans, NoSeed), v))
  {
    var r1, r2 := Ranked(meals, ans, seed), Ranked(meals, ans, NoSeed);
    RankedIsSortedPermutation(meals, ans, seed);
    RankedIsSortedPermutation(meals, ans, NoSeed);
    forall v ensures multiset(WithScore(r1, v)) == multiset(WithScore(r2, v))
                && |WithScore(r1, v)| == |WithScore(r2, v)|
    {
      PermutationKeepsScoreGroups(r1, r2, v);
      assert |WithScore(r1, v)| == |multiset(WithScore(r1, v))|;
      assert |WithScore(r2, v)| == |multiset(WithScore(r2, v))|;
    }
    SortedSameCountsSameScores(r1, r2);
    TopEntries(meals, ans, topK, seed);
    TopEntries(meals, ans, topK, NoSeed);
  }

  lemma {:induction false} PackageAllIndex(s: seq<Entry>)
    ensures |PackageAll(s)| == |s|
    ensures forall i :: 0 <= i < |s| ==> PackageAll(s)[i] == Package(s[i])
  {
    if s != [] {
      PackageAllIndex(s[..|s| - 1]);
    }
  }

  /** The "no meals fit" answer comes exactly when every meal is
      disqualified, and then with no recommendation; otherwise the
      explanation is the default one. */
  lemma NoFitExactly(meals: seq<Meal>, ans: Answers, topK: nat, seed: Seed)
    requires ValidSeed(seed)
    ensures Recommended(meals, ans, topK, seed).explanation == NO_FIT_EXPLANATION <==>
      forall k :: 0 <= k < |meals| ==> Disqualified(meals[k], ans.avoids)
    ensures Recommended(meals, ans, topK, seed).explanation == NO_FIT_EXPLANATION ==>
      Recommended(meals, ans, topK, seed).topRecommendations == []
    ensures Recommended(meals, ans, topK, seed).explanation in {NO_FIT_EXPLANATION, DEFAULT_EXPLANATION}
  {
    var scored := Scored(meals, ans);
    if scored == [] {
      forall k | 0 <= k < |meals| ensures Disqualified(meals[k], ans.avoids)
      {
        ScoredMembers(meals, ans, EntryFor(meals[k], ans));
      }
    } else {
      ScoredMembers(meals, ans, scored[0]);
      assert NO_FIT_EXPLANATION != DEFAULT_EXPLANATION by {
        assert |NO_FIT_EXPLANATION| != |DEFAULT_EXPLANATION|;
      }
    }
  }

  /** The list holds min(topK, number of meals that fit) records. */
  lemma CountIsMin(meals: seq<Meal>, ans: Answers, topK: nat, seed: Seed)
    requires ValidSeed(seed)
    ensures |Recommended(meals, ans, topK, seed).topRecommendations| == Min(topK, FitCount(meals, ans))
  {
    ScoredCount(meals, ans);
    RankedIsSortedPermutation(meals, ans, seed);
    var ranked := Ranked(meals, ans, seed);
    assert |ranked| == |multiset(ranked)| == |multiset(Scored(meals, ans))|;
    TopEntries(meals, ans, topK, seed);
  }

  /** The records are the packaged first min(topK, n) entries of the final
      order. */
  lemma TopEntries(meals: seq<Meal>, ans: Answers, topK: nat, seed: Seed)
    requires ValidSeed(seed)
    ensures var top := Recommended(meals, ans, topK, seed).topRecommendations;
      var ranked := Ranked(meals, ans, seed);
      |top| == Min(topK, |ranked|) && forall t :: 0 <= t < |top| ==> top[t] == Package(ranked[t])
  {
    var ranked := Ranked(meals, ans, seed);
    PackageAllIndex(ranked[..Min(topK, |ranked|)]);
  }

  /** The records come by descending score. */
  lemma ScoresNonIncreasing(meals: seq<Meal>, ans: Answers, topK: nat, seed: Seed)
    requires ValidSeed(seed)
    ensures var top := Recommended(meals, ans, topK, seed).topRecommendations;
      forall i, j :: 0 <= i < j < |top| ==> top[i].score >= top[j].score
  {
    RankedIsSortedPermutation(meals, ans, seed);
    TopEntries(meals, ans, topK, seed);
  }

  /** Entry `i` of the final list is the tuple of a meal that fits. */
  lemma RankedEntryFits(meals: seq<Meal>, ans: Answers, seed: Seed, i: nat)
    requires ValidSeed(seed) && i < |Ranked(meals, ans, seed)|
    ensures exists k :: (0 <= k < |meals| && !Disqualified(meals[k], ans.avoids)
                         && Ranked(meals, ans, seed)[i] == EntryFor(meals[k], ans))
  {
    var ranked := Ranked(meals, ans, seed);
    RankedIsSortedPermutation(meals, ans, seed);
    assert ranked[i] in multiset(Scored(meals, ans));
    ScoredMembers(meals, ans, ranked[i]);
    var k :| 0 <= k < |meals| && meals[k] == ranked[i].meal;
  }

  /** Every record is a meal of the catalog that is not disqualified,
      carrying that meal's score, reasons and flags. */
  lemma RecordsAreFittingMeals(meals: seq<Meal>, ans: Answers, topK: nat, seed: Seed)
    requires ValidSeed(seed)
    ensures var top := Recommended(meals, ans, topK, seed).topRecommendations;
      forall i :: 0 <= i < |top| ==>
        exists k :: (0 <= k < |meals| && !Disqualified(meals[k], ans.avoids)
                     && top[i] == Package(EntryFor(meals[k], ans)))
  {
    var top := Recommended(meals, ans, topK, seed).topRecommendations;
    TopEntries(meals, ans, topK, seed);
    forall i | 0 <= i < |top|
      ensures exists k :: (0 <= k < |meals| && !Disqualified(meals[k], ans.avoids)
                           && top[i] == Package(EntryFor(meals[k], ans)))
    {
      RankedEntryFits(meals, ans, seed, i);
    }
  }

  /** In a catalog with distinct names, no meal is recommended twice. */
  lemma RecordsDistinct(meals: seq<Meal>, ans: Answers, topK: nat, seed: Seed)
    requires ValidSeed(seed) && DistinctNames(meals)
    ensures var top := Recommended(meals, ans, topK, seed).topRecommendations;
      forall i, j :: 0 <= i < j < |top| ==> top[i].name != top[j].name
  {
    ScoredNamesDistinct(meals, ans);
    RankedIsSortedPermutation(meals, ans, seed);
    PermutationKeepsNamesDistinct(Scored(meals, ans), Ranked(meals, ans, seed));
    TopEntries(meals, ans, topK, seed);
  }

  /** The records are the best `topK`: a meal that fits and outscores
      some recommended meal is itself recommended. */
  lemma RecordsAreBest(meals: seq<Meal>, ans: Answers, topK: nat, seed: Seed, k: nat, i: nat)
    requires ValidSeed(seed)
    requires k < |meals| && !Disqualified(meals[k], ans.avoids)
    requires i < |Recommended(meals, ans, topK, seed).topRecommendations|
    ensures var top := Recommended(meals, ans, topK, seed).topRecommendations;
      Evaluate(meals[k], ans).score > top[i].score ==>
        exists t :: 0 <= t < |top| && top[t].name == meals[k].name
  {
    var e := EntryFor(meals[k], ans);
    ScoredMembers(meals, ans, e);
    RankedIsSortedPermutation(meals, ans, seed);
    var ranked := Ranked(meals, ans, seed);
    var top := Recommended(meals, ans, topK, seed).topRecommendations;
    TopEntries(meals, ans, topK, seed);
    assert e in multiset(ranked);
    var p :| 0 <= p < |ranked| && ranked[p] == e;
    if p < |top| {
      assert top[p] == Package(ranked[p]);
    } else {
      assert top[i] == Package(ranked[i]);
    }
  }

  /** When one fitting meal outscores every other fitting meal, its tuple
      heads the final order. */
  lemma UniqueBestRankedFirst(meals: seq<Meal>, ans: Answers, seed: Seed, b: nat)
    requires ValidSeed(seed)
    requires b < |meals| && !Disqualified(meals[b], ans.avoids)
    requires forall k :: 0 <= k < |meals| && k != b && !Disqualified(meals[k], ans.avoids) ==>
      Evaluate(meals[k], ans).score < Evaluate(meals[b], ans).score
    ensures |Ranked(meals, ans, seed)| >= 1 && Ranked(meals, ans, seed)[0] == EntryFor(meals[b], ans)
  {
    var ranked := Ranked(meals, ans, seed);
    var best := EntryFor(meals[b], ans);
    ScoredMembers(meals, ans, best);
    RankedIsSortedPermutation(meals, ans, seed);
    assert best in multiset(ranked);
    SortedFirstIsGreatest(ranked, best);
    RankedEntryFits(meals, ans, seed, 0);
    var k :| 0 <= k < |meals| && !Disqualified(meals[k], ans.avoids) && ranked[0] == EntryFor(meals[k], ans);
    assert k == b;
  }

  lemma SortedFirstIsGreatest(r: seq<Entry>, e: Entry)
    requires SortedByScore(r) && e in r
    ensures r[0].score >= e.score
  {
  }

  /** When one fitting meal outscores every other fitting meal, it is the
      single pick for topK = 1, whatever the seed. */
  lemma UniqueBestIsTopPick(meals: seq<Meal>, ans: Answers, seed: Seed, b: nat)
    requires ValidSeed(seed)
    requires b < |meals| && !Disqualified(meals[b], ans.avoids)
    requires forall k :: 0 <= k < |meals| && k != b && !Disqualified(meals[k], ans.avoids) ==>
      Evaluate(meals[k], ans).score < Evaluate(meals[b], ans).score
    ensures Recommended(meals, ans, 1, seed).topRecommendations == [Package(EntryFor(meals[b], ans))]
  {
    UniqueBestRankedFirst(meals, ans, seed, b);
    TopEntries(meals, ans, 1, seed);
  }
}

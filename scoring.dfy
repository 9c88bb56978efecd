/** The scoring engine: `score_meal` of MealMD. A meal and the user's answers
    give a score that starts at a baseline of 50 and is adjusted by a fixed
    sequence of additive rules, together with the reasons and advisory flags
    those rules produce. A meal that carries an avoided allergen is
    disqualified before any rule runs. */
module Scoring {
  import opened Catalog

  /** The answer set collected by the wizard. Every field keeps the source's
      string value, so that a value the rules do not name falls through to
      the same branch it does in the source. */
  datatype Answers = Answers(
    goal: string,          // "cut", "maintenance" or "bulk"
    timing: string,        // "pre", "post" or "any"
    proteinPref: string,   // "beef", "poultry", "fish/seafood", "plant-only" or "no-preference"
    avoids: seq<string>,   // lower-case allergen tags
    effort: string,        // "low", "med", "high" or "restaurant"
    sodiumPref: string,    // "normal" or "lower"
    spicePref: string)     // "mild", "medium", "spicy" or "no-pref"

  /** What scoring one meal yields. */
  datatype ScoreResult = ScoreResult(score: int, reasons: seq<Reason>, flags: seq<Flag>)

  /** The reasons the rules give, each standing for the source's fixed text
      (see Text). */
  datatype Reason =
    | ConflictsWithAvoidances
    | PrefersPlantOnly
    | MatchesFishSeafood
    | MatchesProtein
    | CutHighProtein
    | BulkHigherCalories
    | MaintenanceCalories
    | PreLighterFat
    | PreGoodCarbs
    | PostProtein
    | LowEffortPrep
    | TakeoutFriendly
    | LowerSodium
  {
    function Text(): string
    {
      match this
      case ConflictsWithAvoidances => "conflicts with avoidances"
      case PrefersPlantOnly => "prefers plant-only"
      case MatchesFishSeafood => "matches fish/seafood preference"
      case MatchesProtein => "matches protein preference"
      case CutHighProtein => "cut: high protein, moderate calories"
      case BulkHigherCalories => "bulk: higher cals & protein"
      case MaintenanceCalories => "maintenance-friendly calories"
      case PreLighterFat => "pre: lighter fat"
      case PreGoodCarbs => "pre: good carbs"
      case PostProtein => "post: protein for recovery"
      case LowEffortPrep => "low effort prep"
      case TakeoutFriendly => "restaurant/takeout friendly"
      case LowerSodium => "lower sodium"
    }
  }

  /** The advisory flags, each standing for the source's fixed text. */
  datatype Flag = ContainsAllergen | GlutenDepends | OmitButter
  {
    function Text(): string
    {
      match this
      case ContainsAllergen => "contains allergen"
      case GlutenDepends => "gluten depends on ingredients"
      case OmitButter => "omit butter to be dairy-free"
    }
  }

  /** The contribution of one scoring rule: points added (negative for a
      penalty) and the reasons it appends. */
  datatype Adjustment = Adjustment(points: int, reasons: seq<Reason>)

  const BASELINE := 50
  const DISQUALIFIED_SCORE := -999
  /** The least and greatest score a meal that is not disqualified can get. */
  const MIN_SCORE := 0
  const MAX_SCORE := 94


  /** The result every disqualified meal gets. */
  const DISQUALIFIED: ScoreResult := ScoreResult(DISQUALIFIED_SCORE, [ConflictsWithAvoidances], [ContainsAllergen])

  /** The avoidance filter: some avoided tag is literally one of the meal's
      allergen tags (exact string membership, so "gluten" does not match
      "gluten?"). */
  predicate Disqualified(m: Meal, avoids: seq<string>)
  {
    exists a :: a in avoids && a in m.allergens
  }

  /** A tag with the trailing '?' that marks a conditional ingredient. */
  predicate IsConditional(tag: string)
  {
    |tag| > 0 && tag[|tag| - 1] == '?'
  }

  // ---------------------------------------------------------------------
  // The rules, one function each, in the order the source applies them.
  // ---------------------------------------------------------------------

  function ProteinRule(m: Meal, pref: string): (r: Adjustment)
    ensures -WEIGHTS.plantOnlyPenalty <= r.points <= WEIGHTS.matchProteinPref
    ensures pref == "no-preference" ==> r == Adjustment(0, [])
  {
    if pref == "no-preference" then Adjustment(0, [])
    else if pref == "plant-only" then
      if m.proteinType != "plant" then Adjustment(-WEIGHTS.plantOnlyPenalty, [PrefersPlantOnly])
      else Adjustment(0, [])
    else if pref == "fish/seafood" then
      if m.proteinType !in ["fish", "shellfish"] then Adjustment(-WEIGHTS.mismatchProteinPref, [])
      else Adjustment(WEIGHTS.fishPrefBonus, [MatchesFishSeafood])
    else if m.proteinType == pref then Adjustment(WEIGHTS.matchProteinPref, [MatchesProtein])
    else Adjustment(-WEIGHTS.mismatchProteinPref, [])
  }

  /** Any goal other than "cut" and "bulk" is treated as maintenance. */
  function GoalRule(m: Meal, goal: string): (r: Adjustment)
    ensures -WEIGHTS.fatPenaltyCut <= r.points <= WEIGHTS.goalCut
  {
    if goal == "cut" then
      var bonus := if m.calories <= 600 && m.proteinG >= 35
        then Adjustment(WEIGHTS.goalCut, [CutHighProtein])
        else Adjustment(0, []);
      if m.fatG > 22 then bonus.(points := bonus.points - WEIGHTS.fatPenaltyCut) else bonus
    else if goal == "bulk" then
      if m.calories >= 650 && m.proteinG >= 40 then Adjustment(WEIGHTS.goalBulk, [BulkHigherCalories])
      else if m.calories < 600 then Adjustment(-3, [])
      else Adjustment(0, [])
    else
      if 500 <= m.calories <= 700 then Adjustment(WEIGHTS.goalMaint, [MaintenanceCalories])
      else Adjustment(0, [])
  }

  /** Timing other than "pre" and "post" changes nothing. */
  function TimingRule(m: Meal, timing: string): (r: Adjustment)
    ensures -WEIGHTS.preLowFat <= r.points
    ensures r.points <= WEIGHTS.preLowFat + WEIGHTS.preGoodCarbs + WEIGHTS.preModProtein
    ensures timing != "pre" && timing != "post" ==> r == Adjustment(0, [])
  {
    if timing == "pre" then
      var fat := if m.fatG <= 20 then Adjustment(WEIGHTS.preLowFat, [PreLighterFat])
                 else Adjustment(-WEIGHTS.preLowFat, []);
      var carbs := if 40 <= m.carbsG <= 90 then Adjustment(WEIGHTS.preGoodCarbs, [PreGoodCarbs])
                   else Adjustment(0, []);
      var protein := if 25 <= m.proteinG <= 40 then WEIGHTS.preModProtein else 0;
      Adjustment(fat.points + carbs.points + protein, fat.reasons + carbs.reasons)
    else if timing == "post" then
      var protein := if m.proteinG >= 35 then Adjustment(WEIGHTS.postProtein, [PostProtein])
                     else Adjustment(0, []);
      var carbs := if m.carbsG >= 50 then WEIGHTS.postCarbs else 0;
      var fat := if m.fatG <= 20 then WEIGHTS.postLowFat else 0;
      Adjustment(protein.points + carbs + fat, protein.reasons)
    else Adjustment(0, [])
  }

  /** An effort answer other than the four named ones changes nothing. */
  function EffortRule(m: Meal, effort: string): (r: Adjustment)
    ensures -WEIGHTS.effortRestaurantPenalty <= r.points <= WEIGHTS.effortLowBonus
    ensures effort == "med" && m.effort == "high" ==> r == Adjustment(0, [])
  {
    if effort == "low" then
      if m.effort == "low" then Adjustment(WEIGHTS.effortLowBonus, [LowEffortPrep])
      else Adjustment(-WEIGHTS.effortLowPenalty, [])
    else if effort == "med" then
      if m.effort in ["low", "med"] then Adjustment(WEIGHTS.effortMedBonus, []) else Adjustment(0, [])
    else if effort == "high" then
      if m.effort == "high" then Adjustment(WEIGHTS.effortHighBonus, []) else Adjustment(-2, [])
    else if effort == "restaurant" then
      if m.takeoutOk then Adjustment(WEIGHTS.effortRestaurantBonus, [TakeoutFriendly])
      else Adjustment(-WEIGHTS.effortRestaurantPenalty, [])
    else Adjustment(0, [])
  }

  /** Any sodium answer other than "lower" takes the normal branch. */
  function SodiumRule(m: Meal, pref: string): (r: Adjustment)
    ensures -WEIGHTS.sodiumHighPenalty <= r.points <= WEIGHTS.sodiumLowBonus
    ensures pref != "lower" && m.sodiumMg <= 850 ==> r == Adjustment(0, [])
  {
    if pref == "lower" then
      if m.sodiumMg <= 500 then Adjustment(WEIGHTS.sodiumLowBonus, [LowerSodium])
      else if m.sodiumMg > 700 then Adjustment(-WEIGHTS.sodiumHighPenalty, [])
      else Adjustment(0, [])
    else
      if m.sodiumMg > 850 then Adjustment(-WEIGHTS.sodiumTooHighPenalty, []) else Adjustment(0, [])
  }

  function SpiceRule(m: Meal, pref: string): (r: Adjustment)
    ensures r.reasons == [] && 0 <= r.points <= WEIGHTS.spiceMatchBonus
    ensures r.points != 0 ==> m.spice == pref
  {
    if pref != "no-pref" && m.spice == pref then Adjustment(WEIGHTS.spiceMatchBonus, [])
    else Adjustment(0, [])
  }

  /** The advisory flags for optional ingredients. They look at the allergen
      tags only. */
  function Flags(m: Meal): (r: seq<Flag>)
    ensures GlutenDepends in r <==> "gluten?" in m.allergens
    ensures OmitButter in r <==> "dairy?" in m.allergens
    ensures |r| <= 2
    ensures "gluten?" in m.allergens && "dairy?" in m.allergens ==> r == [GlutenDepends, OmitButter]
  {
    (if "gluten?" in m.allergens then [GlutenDepends] else [])
    + (if "dairy?" in m.allergens then [OmitButter] else [])
  }

  /** `score_meal` as a function: the reference the method is proved against. */
  function Evaluate(m: Meal, ans: Answers): (r: ScoreResult)
    ensures !Disqualified(m, ans.avoids) ==> MIN_SCORE <= r.score <= MAX_SCORE
    ensures r.score > -500 <==> !Disqualified(m, ans.avoids)
  {
    if Disqualified(m, ans.avoids) then DISQUALIFIED
    else
      var p := ProteinRule(m, ans.proteinPref);
      var g := GoalRule(m, ans.goal);
      var t := TimingRule(m, ans.timing);
      var e := EffortRule(m, ans.effort);
      var s := SodiumRule(m, ans.sodiumPref);
      var sp := SpiceRule(m, ans.spicePref);
      ScoreResult(BASELINE + p.points + g.points + t.points + e.points + s.points + sp.points,
                  p.reasons + g.reasons + t.reasons + e.reasons + s.reasons + sp.reasons,
                  Flags(m))
  }

  // ---------------------------------------------------------------------
  // `score_meal` itself: a running score and two lists that the rules update
  // in turn. Each rule's block of the source is one step method below; each
  // step adds its rule's points to the running score and appends its reasons,
  // and the last one appends the advisory flags.
  // ---------------------------------------------------------------------

  /** The avoidance scan: tries the avoided tags one by one and stops at the
      first one the meal carries. */
  method HasConflict(meal: Meal, avoids: seq<string>) returns (conflict: bool)
    ensures conflict == Disqualified(meal, avoids)
  {
    conflict := false;
    var i := 0;
    while i < |avoids| && !conflict
      invariant 0 <= i <= |avoids|
      invariant conflict ==> 0 < i && avoids[i - 1] in meal.allergens
      invariant !conflict ==> forall k :: 0 <= k < i ==> avoids[k] !in meal.allergens
    {
      conflict := avoids[i] in meal.allergens;
      i := i + 1;
    }
  }

  method ApplyProteinPreference(meal: Meal, pref: string, score: int, reasons: seq<Reason>)
    returns (score': int, reasons': seq<Reason>)
    ensures score' == score + ProteinRule(meal, pref).points
    ensures reasons' == reasons + ProteinRule(meal, pref).reasons
  {
    score', reasons' := score, reasons;
    if pref == "no-preference" {
    } else if pref == "plant-only" {
      if meal.proteinType != "plant" {
        score' := score' - WEIGHTS.plantOnlyPenalty; reasons' := reasons' + [PrefersPlantOnly];
      }
    } else if pref == "fish/seafood" {
      if meal.proteinType !in ["fish", "shellfish"] {
        score' := score' - WEIGHTS.mismatchProteinPref;
      } else {
        score' := score' + WEIGHTS.fishPrefBonus; reasons' := reasons' + [MatchesFishSeafood];
      }
    } else {
      if meal.proteinType == pref {
        score' := score' + WEIGHTS.matchProteinPref; reasons' := reasons' + [MatchesProtein];
      } else {
        score' := score' - WEIGHTS.mismatchProteinPref;
      }
    }
  }

  method ApplyGoal(meal: Meal, goal: string, score: int, reasons: seq<Reason>)
    returns (score': int, reasons': seq<Reason>)
    ensures score' == score + GoalRule(meal, goal).points
    ensures reasons' == reasons + GoalRule(meal, goal).reasons
  {
    score', reasons' := score, reasons;
    if goal == "cut" {
      if meal.calories <= 600 && meal.proteinG >= 35 {
        score' := score' + WEIGHTS.goalCut; reasons' := reasons' + [CutHighProtein];
      }
      if meal.fatG > 22 {
        score' := score' - WEIGHTS.fatPenaltyCut;
      }
    } else if goal == "bulk" {
      if meal.calories >= 650 && meal.proteinG >= 40 {
        score' := score' + WEIGHTS.goalBulk; reasons' := reasons' + [BulkHigherCalories];
      } else if meal.calories < 600 {
        score' := score' - 3;
      }
    } else {  // maintenance
      if 500 <= meal.calories <= 700 {
        score' := score' + WEIGHTS.goalMaint; reasons' := reasons' + [MaintenanceCalories];
      }
    }
  }

  method ApplyTiming(meal: Meal, timing: string, score: int, reasons: seq<Reason>)
    returns (score': int, reasons': seq<Reason>)
    ensures score' == score + TimingRule(meal, timing).points
    ensures reasons' == reasons + TimingRule(meal, timing).reasons
  {
    score', reasons' := score, reasons;
    if timing == "pre" {
      if meal.fatG <= 20 {
        score' := score' + WEIGHTS.preLowFat; reasons' := reasons' + [PreLighterFat];
      } else {
        score' := score' - WEIGHTS.preLowFat;
      }
      if 40 <= meal.carbsG <= 90 {
        score' := score' + WEIGHTS.preGoodCarbs; reasons' := reasons' + [PreGoodCarbs];
      }
      if 25 <= meal.proteinG <= 40 {
        score' := score' + WEIGHTS.preModProtein;
      }
    } else if timing == "post" {
      if meal.proteinG >= 35 {
        score' := score' + WEIGHTS.postProtein; reasons' := reasons' + [PostProtein];
      }
      if meal.carbsG >= 50 {
        score' := score' + WEIGHTS.postCarbs;
      }
      if meal.fatG <= 20 {
        score' := score' + WEIGHTS.postLowFat;
      }
    }
  }

  method ApplyEffort(meal: Meal, effort: string, score: int, reasons: seq<Reason>)
    returns (score': int, reasons': seq<Reason>)
    ensures score' == score + EffortRule(meal, effort).points
    ensures reasons' == reasons + EffortRule(meal, effort).reasons
  {
    score', reasons' := score, reasons;
    if effort == "low" {
      if meal.effort == "low" {
        score' := score' + WEIGHTS.effortLowBonus; reasons' := reasons' + [LowEffortPrep];
      } else {
        score' := score' - WEIGHTS.effortLowPenalty;
      }
    } else if effort == "med" {
      if meal.effort in ["low", "med"] {
        score' := score' + WEIGHTS.effortMedBonus;
      }
    } else if effort == "high" {
      if meal.effort == "high" {
        score' := score' + WEIGHTS.effortHighBonus;
      } else {
        score' := score' - 2;
      }
    } else if effort == "restaurant" {
      if meal.takeoutOk {
        score' := score' + WEIGHTS.effortRestaurantBonus; reasons' := reasons' + [TakeoutFriendly];
      } else {
        score' := score' - WEIGHTS.effortRestaurantPenalty;
      }
    }
  }

  method ApplySodium(meal: Meal, pref: string, score: int, reasons: seq<Reason>)
    returns (score': int, reasons': seq<Reason>)
    ensures score' == score + SodiumRule(meal, pref).points
    ensures reasons' == reasons + SodiumRule(meal, pref).reasons
  {
    score', reasons' := score, reasons;
    if pref == "lower" {
      if meal.sodiumMg <= 500 {
        score' := score' + WEIGHTS.sodiumLowBonus; reasons' := reasons' + [LowerSodium];
      } else if meal.sodiumMg > 700 {
        score' := score' - WEIGHTS.sodiumHighPenalty;
      }
    } else {
      if meal.sodiumMg > 850 {
        score' := score' - WEIGHTS.sodiumTooHighPenalty;
      }
    }
  }

  method ApplySpice(meal: Meal, pref: string, score: int, reasons: seq<Reason>)
    returns (score': int, reasons': seq<Reason>)
    ensures score' == score + SpiceRule(meal, pref).points
    ensures reasons' == reasons + SpiceRule(meal, pref).reasons
  {
    score', reasons' := score, reasons;
    if pref != "no-pref" && meal.spice == pref {
      score' := score' + WEIGHTS.spiceMatchBonus;
    }
    assert SpiceRule(meal, pref).reasons == [];
  }

  /** Appends the advisory flags for optional ingredients. */
  method AddOptionalFlags(meal: Meal, flags: seq<Flag>) returns (flags': seq<Flag>)
    ensures flags' == flags + Flags(meal)
  {
    flags' := flags;
    if "gluten?" in meal.allergens {
      flags' := flags' + [GlutenDepends];
    }
    if "dairy?" in meal.allergens {
      flags' := flags' + [OmitButter];
    }
  }

  method ScoreMeal(meal: Meal, ans: Answers) returns (score: int, reasons: seq<Reason>, flags: seq<Flag>)
    ensures ScoreResult(score, reasons, flags) == Evaluate(meal, ans)
    ensures score == DISQUALIFIED_SCORE <==> Disqualified(meal, ans.avoids)
    ensures score != DISQUALIFIED_SCORE ==> MIN_SCORE <= score <= MAX_SCORE
  {
    score := BASELINE;
    reasons := [];
    flags := [];

    // Avoidances filter
    var conflict := HasConflict(meal, ans.avoids);
    if conflict {
      return DISQUALIFIED_SCORE, [ConflictsWithAvoidances], [ContainsAllergen];
    }

    score, reasons := ApplyProteinPreference(meal, ans.proteinPref, score, reasons);
    assert reasons == ProteinRule(meal, ans.proteinPref).reasons;
    score, reasons := ApplyGoal(meal, ans.goal, score, reasons);
    score, reasons := ApplyTiming(meal, ans.timing, score, reasons);
    score, reasons := ApplyEffort(meal, ans.effort, score, reasons);
    score, reasons := ApplySodium(meal, ans.sodiumPref, score, reasons);

    score, reasons := ApplySpice(meal, ans.spicePref, score, reasons);
    flags := AddOptionalFlags(meal, flags);
  }

  // ---------------------------------------------------------------------
  // Properties of the scoring engine
  // ---------------------------------------------------------------------

  /** A meal gets the disqualification result (score -999, the conflict
      reason and the allergen flag, no other rule applied) exactly when one
      of the avoided tags is literally among its allergen tags. */
  lemma DisqualifiedExactly(m: Meal, ans: Answers)
    ensures Evaluate(m, ans) == DISQUALIFIED <==> Disqualified(m, ans.avoids)
    ensures Evaluate(m, ans).score == DISQUALIFIED_SCORE <==> Disqualified(m, ans.avoids)
  {
  }

  /** Matching is exact: when no avoided tag carries the conditional '?'
      marker, only the meal's unmarked tags can disqualify it, so "gluten?"
      never matches an avoided "gluten". */
  lemma MarkedTagsNeverMatch(m: Meal, avoids: seq<string>)
    requires forall a :: a in avoids ==> !IsConditional(a)
    ensures Disqualified(m, avoids) <==> exists t :: t in m.allergens && !IsConditional(t) && t in avoids
  {
  }

  /** With every rule in its neutral branch the score stays at the baseline
      and no reason is given; the flags are still those of the allergens. */
  lemma NeutralAnswersKeepBaseline(m: Meal, ans: Answers)
    requires !Disqualified(m, ans.avoids)
    requires ans.proteinPref == "no-preference"
    requires ans.goal != "cut" && ans.goal != "bulk" && (m.calories < 500 || m.calories > 700)
    requires ans.timing != "pre" && ans.timing != "post"
    requires ans.effort == "med" && m.effort == "high"
    requires ans.sodiumPref != "lower" && m.sodiumMg <= 850
    requires ans.spicePref == "no-pref"
    ensures Evaluate(m, ans) == ScoreResult(BASELINE, [], Flags(m))
  {
  }

  /** Under "lower" sodium, against the same meal with 600 mg (inside the
      gap between the two thresholds): at most 500 mg adds the bonus, above
      700 mg subtracts the penalty, and anything in between changes nothing.
      No other rule looks at sodium. */
  lemma LowerSodiumBands(m: Meal, ans: Answers)
    requires ans.sodiumPref == "lower" && !Disqualified(m, ans.avoids)
    ensures Evaluate(m, ans).score == Evaluate(m.(sodiumMg := 600), ans).score
      + (if m.sodiumMg <= 500 then WEIGHTS.sodiumLowBonus
         else if m.sodiumMg > 700 then -WEIGHTS.sodiumHighPenalty
         else 0)
  {
    var m' := m.(sodiumMg := 600);
    assert m'.allergens == m.allergens;
    assert ProteinRule(m', ans.proteinPref) == ProteinRule(m, ans.proteinPref);
    assert GoalRule(m', ans.goal) == GoalRule(m, ans.goal);
    assert TimingRule(m', ans.timing) == TimingRule(m, ans.timing);
    assert EffortRule(m', ans.effort) == EffortRule(m, ans.effort);
    assert SpiceRule(m', ans.spicePref) == SpiceRule(m, ans.spicePref);
  }

  /** Under "lower" sodium the "lower sodium" reason is given exactly when
      the meal has at most 500 mg; no other rule gives it. */
  lemma LowerSodiumReason(m: Meal, ans: Answers)
    requires ans.sodiumPref == "lower" && !Disqualified(m, ans.avoids)
    ensures LowerSodium in Evaluate(m, ans).reasons <==> m.sodiumMg <= 500
  {
    var p, g, t, e := ProteinRule(m, ans.proteinPref), GoalRule(m, ans.goal), TimingRule(m, ans.timing), EffortRule(m, ans.effort);
    assert Evaluate(m, ans).reasons == p.reasons + g.reasons + t.reasons + e.reasons + SodiumRule(m, ans.sodiumPref).reasons;
    assert LowerSodium !in p.reasons + g.reasons + t.reasons + e.reasons;
  }

  /** Under "cut" the fat penalty does not depend on the bonus: the goal
      adjustment is the one the same meal would get with no fat, less the
      penalty when fat exceeds 22 g. So both may apply together. */
  lemma CutFatPenaltyIndependent(m: Meal)
    ensures GoalRule(m, "cut").points
      == GoalRule(m.(fatG := 0), "cut").points - (if m.fatG > 22 then WEIGHTS.fatPenaltyCut else 0)
    ensures GoalRule(m, "cut").reasons == GoalRule(m.(fatG := 0), "cut").reasons
    ensures m.calories <= 600 && m.proteinG >= 35 && m.fatG > 22 ==>
      GoalRule(m, "cut") == Adjustment(WEIGHTS.goalCut - WEIGHTS.fatPenaltyCut, [CutHighProtein])
  {
  }

  /** Under "bulk" the bonus and the flat -3 never both apply: the penalty
      is taken exactly when the bonus is not earned and calories are below
      600. */
  lemma BulkBranchesExclusive(m: Meal)
    ensures GoalRule(m, "bulk").points in {WEIGHTS.goalBulk, -3, 0}
    ensures GoalRule(m, "bulk").points == WEIGHTS.goalBulk <==> m.calories >= 650 && m.proteinG >= 40
    ensures GoalRule(m, "bulk").points == -3 <==> !(m.calories >= 650 && m.proteinG >= 40) && m.calories < 600
  {
  }

  /** For a meal that is not disqualified the flags depend on its allergen
      tags alone: the gluten advisory iff "gluten?" is present, the butter
      advisory iff "dairy?" is present, in that order. */
  lemma FlagsFollowAllergens(m1: Meal, a1: Answers, m2: Meal, a2: Answers)
    requires !Disqualified(m1, a1.avoids) && !Disqualified(m2, a2.avoids)
    requires m1.allergens == m2.allergens
    ensures Evaluate(m1, a1).flags == Evaluate(m2, a2).flags
    ensures GlutenDepends in Evaluate(m1, a1).flags <==> "gluten?" in m1.allergens
    ensures OmitButter in Evaluate(m1, a1).flags <==> "dairy?" in m1.allergens
    ensures "gluten?" in m1.allergens && "dairy?" in m1.allergens ==>
      Evaluate(m1, a1).flags == [GlutenDepends, OmitButter]
  {
  }

  /** The lower score bound is tight: plant-only against a meat meal, fatty
      under cut, fatty before a workout, no takeout and high sodium. */
  lemma LeastScoreAttained()
    ensures exists m: Meal, ans: Answers :: !Disqualified(m, ans.avoids) && Evaluate(m, ans).score == MIN_SCORE
  {
    var worst := Meal("worst", [], 700, 50, 100, 30, 800, 0, "beef", [], "med", false, "mild", []);
    var worstAnswers := Answers("cut", "pre", "plant-only", [], "restaurant", "lower", "spicy");
    assert ProteinRule(worst, "plant-only").points == -WEIGHTS.plantOnlyPenalty;
    assert GoalRule(worst, "cut").points == -WEIGHTS.fatPenaltyCut;
    assert TimingRule(worst, "pre").points == -WEIGHTS.preLowFat;
    assert EffortRule(worst, "restaurant").points == -WEIGHTS.effortRestaurantPenalty;
    assert SodiumRule(worst, "lower").points == -WEIGHTS.sodiumHighPenalty;
    assert SpiceRule(worst, "spicy").points == 0;
    assert Evaluate(worst, worstAnswers).score == MIN_SCORE;
  }

  /** The upper score bound is tight: every rule at its largest bonus. */
  lemma GreatestScoreAttained()
    ensures exists m: Meal, ans: Answers :: !Disqualified(m, ans.avoids) && Evaluate(m, ans).score == MAX_SCORE
  {
    var best := Meal("best", [], 600, 38, 60, 15, 400, 0, "beef", [], "low", true, "mild", []);
    var bestAnswers := Answers("cut", "pre", "beef", [], "low", "lower", "mild");
    assert ProteinRule(best, "beef").points == WEIGHTS.matchProteinPref;
    assert GoalRule(best, "cut").points == WEIGHTS.goalCut;
    assert TimingRule(best, "pre").points == WEIGHTS.preLowFat + WEIGHTS.preGoodCarbs + WEIGHTS.preModProtein;
    assert EffortRule(best, "low").points == WEIGHTS.effortLowBonus;
    assert SodiumRule(best, "lower").points == WEIGHTS.sodiumLowBonus;
    assert SpiceRule(best, "mild").points == WEIGHTS.spiceMatchBonus;
    assert Evaluate(best, bestAnswers).score == MAX_SCORE;
  }
}

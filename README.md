# MealMD recommender in Dafny

This project models the recommendation core of MealMD (`mealmd_wizard.py`). MealMD is a terminal helper that suggests meals from a fixed catalog based on a user's answers: goal, workout timing, protein preference, allergens to avoid, effort, sodium and spice. The model covers four pieces:

- **Meal record and catalog** (`catalog.dfy`, module `Catalog`): the twelve meals and the table of scoring weights.
- **`score_meal`** (`scoring.dfy`, module `Scoring`):
  - A meal that carries an avoided allergen tag is disqualified with score -999.
  - Otherwise the score starts at 50, and six additive rules adjust it in a fixed order: protein preference, goal, timing, effort, sodium and spice.
  - The rules also produce reason strings, and the allergen tags produce advisory flags.
  - Each rule is a pure function; `Evaluate` combines them.
  - The imperative `ScoreMeal` updates a running score, a list of reasons and a list of flags, one step method per block of the source (the six rules, then the flags). It is proved equal to `Evaluate`.
- **Reordering** (`ranking.dfy`, module `Ranking`):
  - The seeded shuffle is Python's own Fisher–Yates loop over an array. The random draws are a parameter.
  - The stable descending sort is an in-place insertion sort, proved equal to the pure `SortByScore`.
  - The lemmas prove that `SortByScore` is sorted, is a permutation and is stable. They also prove that any stable descending sort gives the same list, so the choice of algorithm does not matter.
- **`recommend`** (`recommend.dfy`, module `Recommender`):
  - `RecommendFrom` follows the body of `recommend` over any catalog: it scores each meal, keeps those above -500, shuffles when seeded, sorts, keeps the first `topK` and packages the records.
  - `Recommend` is the same call on `MEALS`.
  - Both are proved equal to the pure `Recommended`, and the lemmas about the output are stated on that function.
- **Concrete scenarios** (`scenarios.dfy`, module `Scenarios`): facts about the real catalog, such as what is left when every allergen is avoided, and the single top pick for one specific user.

Scores are integers. Every weight is an integer and the baseline is 50, so the Python float score is always integral, and `round(s, 1)` leaves it unchanged. Answers and the categorical meal fields stay strings, so an unrecognised answer takes the same fall-through branch it takes in the source. Examples:

- an unknown goal counts as maintenance;
- an unknown protein preference takes the exact-type comparison;
- any sodium answer other than "lower" takes the normal branch.

Two behaviours of the code differ from what a reader might expect; the model follows the code:

- **Avoided tags match by exact string.** One might expect conditional tags (`gluten?`, `dairy?`) to match an avoidance of their base name. The code (`mealmd_wizard.py:212`) tests `a in meal.allergens` literally, so a conditional tag never matches a plain avoidance (`Scoring.MarkedTagsNeverMatch`).
- **Avoiding everything still leaves five meals.** One might expect that avoiding all seven offered allergens gives the "no meals fit" answer. With the code's exact matching, five meals are left, so the default explanation comes (`Scenarios.AllAvoidedLeavesFive`):
  - Lentil Curry + Rice, Turkey Chili (Lean) and Chickpea Pasta Primavera carry no tags;
  - Beef Steak Plate carries only `dairy?`;
  - Sardine Avocado Toast carries only `gluten?` and `fish`.

## Model

| member | source | states |
|---|---|---|
| Catalog.CatalogShape | mealmd_wizard.py:122-159 | The catalog has twelve meals with pairwise distinct names |
| Scoring.ProteinRule | mealmd_wizard.py:215-230 | The protein adjustment lies between -30 and +8; "no-preference" gives nothing |
| Scoring.GoalRule | mealmd_wizard.py:232-245 | The goal adjustment lies between -4 and +10 |
| Scoring.TimingRule | mealmd_wizard.py:247-256 | The timing adjustment lies between -6 and +13; a timing other than "pre"/"post" gives nothing |
| Scoring.EffortRule | mealmd_wizard.py:258-269 | The effort adjustment lies between -4 and +6; "med" effort against a high-effort meal gives nothing |
| Scoring.SodiumRule | mealmd_wizard.py:271-276 | The sodium adjustment lies between -6 and +5; the normal branch at or below 850 mg gives nothing |
| Scoring.SpiceRule | mealmd_wizard.py:278-280 | The spice rule gives no reason and adds at most 2, and only when the meal's spice equals the preference |
| Scoring.Flags | mealmd_wizard.py:282-284 | The gluten advisory is present iff `gluten?` is a tag, the butter advisory iff `dairy?` is; at most two flags, gluten first |
| Scoring.Evaluate | mealmd_wizard.py:198-286 | A meal that is not disqualified scores between 0 and 94; the score exceeds -500 iff the meal is not disqualified |
| Scoring.HasConflict | mealmd_wizard.py:211-212 | The scan over the avoided tags reports a conflict iff some avoided tag is literally one of the meal's allergen tags |
| Scoring.ApplyProteinPreference | mealmd_wizard.py:215-230 | The step adds the protein rule's points to the running score and appends its reasons |
| Scoring.ApplyGoal | mealmd_wizard.py:232-245 | The step adds the goal rule's points and appends its reasons |
| Scoring.ApplyTiming | mealmd_wizard.py:247-256 | The step adds the timing rule's points and appends its reasons |
| Scoring.ApplyEffort | mealmd_wizard.py:258-269 | The step adds the effort rule's points and appends its reasons |
| Scoring.ApplySodium | mealmd_wizard.py:271-276 | The step adds the sodium rule's points and appends its reasons |
| Scoring.ApplySpice | mealmd_wizard.py:278-280 | The step adds the spice rule's points and appends its (empty) reasons |
| Scoring.AddOptionalFlags | mealmd_wizard.py:282-284 | The step appends exactly the advisory flags of the meal's allergen tags |
| Scoring.ScoreMeal | mealmd_wizard.py:198-286 | The result equals `Evaluate`; the score is -999 iff the meal is disqualified, and otherwise lies in [0, 94] |
| Scoring.DisqualifiedExactly | mealmd_wizard.py:211-213 | A meal gets exactly (-999, conflict reason, allergen flag) iff an avoided tag is among its allergens |
| Scoring.MarkedTagsNeverMatch | mealmd_wizard.py:211-212 | When no avoided tag ends in '?', only the meal's unmarked tags can disqualify it |
| Scoring.NeutralAnswersKeepBaseline | mealmd_wizard.py:199-280 | With every rule in its neutral branch the score is 50, there are no reasons, and the flags are those of the allergens |
| Scoring.LowerSodiumBands | mealmd_wizard.py:272-274 | Under "lower" sodium, compared with the same meal at 600 mg: at most 500 mg adds 5, above 700 mg subtracts 6, and in between nothing changes |
| Scoring.LowerSodiumReason | mealmd_wizard.py:272-273 | Under "lower" sodium the "lower sodium" reason is given iff the meal has at most 500 mg |
| Scoring.CutFatPenaltyIndependent | mealmd_wizard.py:233-237 | Under "cut" the fat penalty is taken independently of the bonus, and both may apply together |
| Scoring.BulkBranchesExclusive | mealmd_wizard.py:238-242 | Under "bulk" the +10 bonus and the -3 penalty never both apply; each is taken exactly under its own condition |
| Scoring.FlagsFollowAllergens | mealmd_wizard.py:282-284 | For meals that are not disqualified, the flags depend on the allergen tags alone |
| Scoring.LeastScoreAttained | mealmd_wizard.py:198-280 | Some meal and answer set score exactly 0, so the lower bound is tight |
| Scoring.GreatestScoreAttained | mealmd_wizard.py:198-280 | Some meal and answer set score exactly 94, so the upper bound is tight |
| Ranking.WithScoreMembers | mealmd_wizard.py:305 | The entries of a list that have a given score are exactly its members with that score |
| Ranking.SortByScoreKeepsEntries | mealmd_wizard.py:305 | Sorting is a permutation: the multiset of entries is unchanged |
| Ranking.SortByScoreSorted | mealmd_wizard.py:305 | The sorted list has non-increasing scores |
| Ranking.SortByScoreStable | mealmd_wizard.py:305 | The sort is stable: entries with equal scores keep their relative order |
| Ranking.StableSortUnique | mealmd_wizard.py:305 | Any sorted, stable reordering of a list equals `SortByScore` of it, so Python's stable sort gives the same list |
| Ranking.SortedSameCountsSameScores | mealmd_wizard.py:305 | Two sorted lists with as many entries of each score have the same score at every position |
| Ranking.PermutationKeepsScoreGroups | mealmd_wizard.py:301-305 | Two reorderings of one list hold the same entries of each score |
| Ranking.PermutationKeepsNamesDistinct | mealmd_wizard.py:301-305 | Reordering a list with distinct meal names keeps the names distinct |
| Ranking.ShuffledKeepsEntries | mealmd_wizard.py:301-303 | The seeded shuffle is a permutation of the scored list |
| Ranking.Shuffle | mealmd_wizard.py:301-303 | The in-place Fisher–Yates loop leaves the array equal to `Shuffled` of its old contents |
| Ranking.InsertInPlace | mealmd_wizard.py:305 | One insertion step puts the next entry into the sorted prefix and leaves the rest of the array alone |
| Ranking.SortInPlace | mealmd_wizard.py:305 | The in-place sort leaves the array equal to `SortByScore` of its old contents |
| Recommender.ScoreAll | mealmd_wizard.py:289-293 | The first loop builds exactly the scored list: the tuples of the meals above the cutoff, in catalog order |
| Recommender.PackageTop | mealmd_wizard.py:307-317 | The last loop builds one display record per kept tuple, in order |
| Recommender.RecommendFrom | mealmd_wizard.py:288-318 | Scoring, filtering, the optional shuffle, the sort, truncation and packaging together equal `Recommended` |
| Recommender.Recommend | mealmd_wizard.py:288-318 | `recommend` on the catalog equals `Recommended` over `MEALS` |
| Recommender.ScoredSingle | mealmd_wizard.py:290-293 | A single meal contributes its tuple iff it is not disqualified |
| Recommender.ScoredAppend | mealmd_wizard.py:290-293 | The scored list of a concatenation is the concatenation of the scored lists, so catalog order is kept |
| Recommender.ScoredMembers | mealmd_wizard.py:290-293 | The scored list holds exactly the tuples of the meals that are not disqualified, each with that meal's own score, reasons and flags |
| Recommender.ScoredCount | mealmd_wizard.py:290-293 | The scored list is as long as the number of meals that are not disqualified |
| Recommender.RankedIsSortedPermutation | mealmd_wizard.py:301-305 | The final order is a sorted permutation of the scored list, whatever the seed |
| Recommender.TiesKeepArrangedOrder | mealmd_wizard.py:301-305 | Among equal scores the final order is the order before the sort; with no seed, that is catalog order |
| Recommender.SeedOnlyReordersTies | mealmd_wizard.py:301-306 | With or without a seed the records have the same scores position by position, and the full sorted lists hold the same entries of each score |
| Recommender.NoFitExactly | mealmd_wizard.py:295-299 | The "no meals fit" explanation comes iff every meal is disqualified, and then with no records; otherwise the explanation is the default one |
| Recommender.TopEntries | mealmd_wizard.py:306-317 | The records are the packaged first min(topK, n) entries of the final order |
| Recommender.CountIsMin | mealmd_wizard.py:306 | There are min(topK, number of meals that are not disqualified) records |
| Recommender.ScoresNonIncreasing | mealmd_wizard.py:305-317 | Record scores are non-increasing |
| Recommender.RankedEntryFits | mealmd_wizard.py:290-305 | Every entry of the final order is the tuple of a catalog meal that is not disqualified |
| Recommender.RecordsAreFittingMeals | mealmd_wizard.py:290-317 | Every record is a catalog meal that is not disqualified, carrying its own score, reasons and flags |
| Recommender.RecordsDistinct | mealmd_wizard.py:290-317 | In a catalog with distinct names no meal is recommended twice |
| Recommender.RecordsAreBest | mealmd_wizard.py:290-317 | A fitting meal that outscores some record is itself among the records |
| Recommender.UniqueBestRankedFirst | mealmd_wizard.py:290-305 | A fitting meal that outscores every other fitting meal heads the final order, whatever the seed |
| Recommender.UniqueBestIsTopPick | mealmd_wizard.py:288-318 | Such a meal is the single record for topK = 1, whatever the seed |
| Scenarios.AllAvoidedLeavesFive | mealmd_wizard.py:122-159 | Avoiding all seven offered allergens, in any order, leaves exactly meals 3, 4, 5, 8 and 11; the explanation is the default one and there are min(topK, 5) records |
| Scenarios.ShellfishAvoidedExcludesShrimp | mealmd_wizard.py:153-155 | With shellfish avoided the Shrimp Rice Bowl is never recommended |
| Scenarios.CutFishScores | mealmd_wizard.py:198-286 | For a cutting, seafood-preferring, low-effort, lower-sodium, mild user the Shrimp Rice Bowl scores 74 and every other meal scores less |
| Scenarios.CutFishTopPick | mealmd_wizard.py:288-318 | For that user the single top pick is the Shrimp Rice Bowl (score 74, at most 600 kcal, at least 35 g protein), whatever the seed |

## Left out

- The terminal interface: `ask`, `ask_multi`, `enable_color` and the `C` colour class (`mealmd_wizard.py:26-101`). They are interactive I/O and ANSI output.
- `load_prefs` and `save_prefs`. They do file and JSON I/O.
- `parse_args`, `main`, the back-navigation wizard and the text/JSON rendering. They are CLI plumbing around `recommend`.
- The concrete random numbers. `random.seed` and Python's Mersenne Twister are replaced by a `draw(n, i)` parameter. Any function with `draw(n, i) <= i` is a valid source of draws, so every lemma holds for all seeds. Which permutation a given integer seed produces is not modelled.
- Recommender.RecommendFrom: `topK` is a natural number. A negative `top_k` slices from the end of the list in Python, and that case is not modelled.
- A missing answer field raises `KeyError` in the source. The model's answer set is a record in which every field is present.
- The answers' `avoids` is a set in the source and a sequence here. Only membership is used, so the difference is invisible.
- The display-only meal fields (`items`, `notes`, `calcium_mg`) are carried through unchanged. No rule reads them.
- Python's Timsort is replaced by a stable insertion sort. `Ranking.StableSortUnique` shows that every stable descending sort gives the same list.
- `recommend` is modelled over any catalog (`RecommendFrom`), with `Recommend` as the call on the fixed `MEALS`. Python reads the module-level list directly.
- `recommend`'s default arguments (`top_k=3`, `seed=None`) are not modelled: `Recommend` takes both explicitly.
- Reasons and flags are the enumerations `Reason` and `Flag`; their `Text()` gives the source's exact strings, but the packaged records carry the enumeration values, not the strings.
- The score is an integer rather than a float, and `round(s, 1)` is left out. Every adjustment is integral, so both are exact.

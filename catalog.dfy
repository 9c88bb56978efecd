/** The static data of MealMD: the meal record, the twelve-entry catalog and the
    table of scoring weights. None of it changes while the program runs. */
module Catalog {

  /** One candidate meal. The categorical attributes keep the source's string
      values: protein type is one of "beef", "poultry", "fish", "shellfish",
      "plant"; effort is "low", "med" or "high"; spice is "mild", "medium" or
      "spicy". Allergen tags are plain strings too, and a trailing '?' marks
      an ingredient that is only present in some versions of the meal.
      `items`, `calciumMg` and `notes` are carried for display only. */
  datatype Meal = Meal(
    name: string,
    items: seq<string>,
    calories: int,
    proteinG: int,
    carbsG: int,
    fatG: int,
    sodiumMg: int,
    calciumMg: int,
    proteinType: string,
    allergens: seq<string>,
    effort: string,
    takeoutOk: bool,
    spice: string,
    notes: seq<string>)

  /** The fixed catalog, in the order the recommender visits it. */
  const MEALS: seq<Meal> := [
    Meal("Grilled Salmon Bowl",
         ["grilled salmon 5 oz", "quinoa 1 cup", "spinach", "tomato", "olive oil", "lemon", "plain yogurt 1/2 cup"],
         650, 45, 55, 24, 520, 250, "fish", ["dairy"], "med", true, "mild", ["Omega-3s"]),
    Meal("Chicken Thigh + Sweet Potato Plate",
         ["roasted chicken thigh 6 oz", "baked sweet potato", "steamed broccoli", "tahini drizzle"],
         620, 42, 62, 18, 480, 180, "poultry", ["sesame"], "med", true, "mild", ["balanced"]),
    Meal("Tofu Stir-Fry",
         ["extra-firm tofu 6 oz", "mixed vegetables", "brown rice 1 cup", "garlic-ginger sauce (low sodium)"],
         600, 36, 70, 16, 420, 350, "plant", ["soy", "gluten?"], "low", false, "medium", ["plant protein"]),
    Meal("Lentil Curry + Rice",
         ["red lentil curry 1.5 cups", "basmati rice 1 cup", "cucumber salad"],
         680, 32, 98, 16, 540, 140, "plant", [], "med", true, "medium", ["good fiber"]),
    Meal("Turkey Chili (Lean)",
         ["ground turkey 93% 6 oz", "beans", "tomato", "onion", "spices"],
         640, 48, 58, 18, 620, 160, "poultry", [], "med", true, "medium", ["high protein"]),
    Meal("Beef Steak Plate",
         ["sirloin steak 6 oz", "roasted potatoes", "asparagus", "butter"],
         720, 50, 46, 30, 540, 60, "beef", ["dairy?"], "high", true, "mild", ["creatine-rich"]),
    Meal("Egg White Veggie Omelet + Oats",
         ["egg white omelet (4 whites)", "mixed veggies", "rolled oats 1 cup", "berries"],
         520, 36, 66, 8, 420, 180, "plant", ["eggs", "gluten?"], "low", false, "mild", ["light"]),
    Meal("Greek Yogurt Power Bowl",
         ["plain Greek yogurt 1.5 cups", "berries", "chia seeds", "walnuts", "honey"],
         580, 42, 48, 20, 180, 450, "plant", ["dairy", "nuts"], "low", false, "mild", ["easy"]),
    Meal("Sardine Avocado Toast",
         ["whole-grain toast 2 slices", "sardines in olive oil 1 tin", "avocado", "lemon"],
         560, 32, 44, 28, 520, 320, "fish", ["gluten?", "fish"], "low", true, "mild", ["omega-3s"]),
    Meal("Tempeh Buddha Bowl",
         ["tempeh 6 oz", "farro 1 cup", "kale", "roasted peppers", "tahini-lemon"],
         620, 38, 70, 16, 460, 220, "plant", ["soy", "sesame"], "med", false, "mild", ["fermented"]),
    Meal("Shrimp Rice Bowl",
         ["shrimp 6 oz", "jasmine rice 1 cup", "cabbage slaw", "lime", "olive oil"],
         600, 42, 64, 14, 640, 160, "shellfish", ["shellfish"], "low", true, "mild", ["lean protein"]),
    Meal("Chickpea Pasta Primavera",
         ["chickpea pasta 3 oz dry", "zucchini", "tomato", "olive oil", "basil"],
         580, 34, 70, 14, 380, 120, "plant", [], "low", false, "mild", ["high fiber"])
  ]

  /** The centralised scoring weights, one named field per tunable factor. */
  datatype WeightTable = WeightTable(
    matchProteinPref: int,
    mismatchProteinPref: int,
    plantOnlyPenalty: int,
    fishPrefBonus: int,
    goalCut: int,
    goalBulk: int,
    goalMaint: int,
    fatPenaltyCut: int,
    preLowFat: int,
    preGoodCarbs: int,
    preModProtein: int,
    postProtein: int,
    postCarbs: int,
    postLowFat: int,
    effortLowBonus: int,
    effortLowPenalty: int,
    effortMedBonus: int,
    effortHighBonus: int,
    effortRestaurantBonus: int,
    effortRestaurantPenalty: int,
    sodiumLowBonus: int,
    sodiumHighPenalty: int,
    sodiumTooHighPenalty: int,
    spiceMatchBonus: int)

  const WEIGHTS: WeightTable := WeightTable(
    matchProteinPref := 8,
    mismatchProteinPref := 4,
    plantOnlyPenalty := 30,
    fishPrefBonus := 6,
    goalCut := 10,
    goalBulk := 10,
    goalMaint := 5,
    fatPenaltyCut := 4,
    preLowFat := 6,
    preGoodCarbs := 4,
    preModProtein := 3,
    postProtein := 6,
    postCarbs := 4,
    postLowFat := 2,
    effortLowBonus := 6,
    effortLowPenalty := 3,
    effortMedBonus := 3,
    effortHighBonus := 4,
    effortRestaurantBonus := 5,
    effortRestaurantPenalty := 4,
    sodiumLowBonus := 5,
    sodiumHighPenalty := 6,
    sodiumTooHighPenalty := 2,
    spiceMatchBonus := 2)

  /** Meal names identify catalog entries: no two entries share one. */
  predicate DistinctNames(meals: seq<Meal>)
  {
    forall i, j :: 0 <= i < j < |meals| ==> meals[i].name != meals[j].name
  }

  /** The catalog has twelve entries with pairwise distinct names. */
  lemma CatalogShape()
    ensures |MEALS| == 12
    ensures DistinctNames(MEALS)
  {
    // No two names share both their first letter and their length.
    forall i, j | 0 <= i < j < |MEALS|
      ensures MEALS[i].name != MEALS[j].name
    {
      assert |MEALS[i].name| != |MEALS[j].name| || MEALS[i].name[0] != MEALS[j].name[0];
    }
  }
}

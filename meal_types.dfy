/** The records that flow between the planner's parts: nutrient profiles,
    resolved meals, the user's form input, generated plans and the plans kept
    in the history list. */
module MealTypes {

  /** Calories (kcal) and protein, carbs and fat (grams). */
  datatype Nutrients = Nutrients(calories: int, protein: int, carbs: int, fat: int)

  const NoNutrients := Nutrients(0, 0, 0, 0)

  predicate NonNegative(n: Nutrients) {
    n.calories >= 0 && n.protein >= 0 && n.carbs >= 0 && n.fat >= 0
  }

  /** Element-wise sum of two profiles. */
  function Add(a: Nutrients, b: Nutrients): Nutrients {
    Nutrients(a.calories + b.calories, a.protein + b.protein, a.carbs + b.carbs, a.fat + b.fat)
  }

  /** The four meal-time slots the planner knows. */
  predicate IsMealTime(t: string) {
    t == "breakfast" || t == "lunch" || t == "dinner" || t == "snack"
  }

  /** A resolved meal (the `MealSuggestion` shape): its description is
      already text and it carries the meal-time slot it fills. */
  datatype Meal = Meal(name: string, description: string, nutrients: Nutrients, mealTime: string)

  /** The planner form's input. */
  datatype UserInput = UserInput(
    age: int,
    weight: int,
    height: int,
    activityLevel: string,
    goal: string,
    dietaryPreference: string,
    ingredients: string,
    mealsPerDay: int)

  /** A generated plan: meals, their total, and a tip. */
  datatype MealPlan = MealPlan(meals: seq<Meal>, totalNutrients: Nutrients, tip: string)

  /** A plan kept in the history list: the plan plus an id, a creation time
      stamp, the input it was generated from, and a display name. */
  datatype SavedPlan = SavedPlan(
    meals: seq<Meal>,
    totalNutrients: Nutrients,
    tip: string,
    id: string,
    createdAt: string,
    userInput: UserInput,
    name: string)

  /** `meals.reduce((acc, meal) => acc + meal.nutrients, zero)`: a left fold. */
  function TotalNutrients(meals: seq<Meal>): Nutrients {
    if meals == [] then NoNutrients
    else Add(TotalNutrients(meals[..|meals| - 1]), meals[|meals| - 1].nutrients)
  }

  /** The four numeric fields of a profile. */
  datatype Field = Calories | Protein | Carbs | Fat

  function FieldOf(n: Nutrients, f: Field): int {
    match f
    case Calories => n.calories
    case Protein => n.protein
    case Carbs => n.carbs
    case Fat => n.fat
  }

  /** Reference definition: the sum of one numeric field over the meals. */
  function SumOf(meals: seq<Meal>, f: Field): int {
    if meals == [] then 0 else FieldOf(meals[0].nutrients, f) + SumOf(meals[1..], f)
  }

  lemma {:induction false} SumOfAppendOne(meals: seq<Meal>, m: Meal, field: Field)
    ensures SumOf(meals + [m], field) == SumOf(meals, field) + FieldOf(m.nutrients, field)
  {
    if meals != [] {
      assert (meals + [m])[1..] == meals[1..] + [m];
      SumOfAppendOne(meals[1..], m, field);
    } else {
      assert meals + [m] == [m];
    }
  }

  /** The total is, field by field, the sum over all meals; it is all zeros
      for no meals. */
  lemma {:induction false} TotalIsFieldwiseSum(meals: seq<Meal>)
    ensures TotalNutrients(meals) == Nutrients(
      SumOf(meals, Calories), SumOf(meals, Protein), SumOf(meals, Carbs), SumOf(meals, Fat))
  {
    if meals != [] {
      var p := meals[..|meals| - 1];
      var m := meals[|meals| - 1];
      TotalIsFieldwiseSum(p);
      assert meals == p + [m];
      SumOfAppendOne(p, m, Calories);
      SumOfAppendOne(p, m, Protein);
      SumOfAppendOne(p, m, Carbs);
      SumOfAppendOne(p, m, Fat);
    }
  }

  /** The total of two lists of meals is the sum of their totals. */
  lemma {:induction false} TotalAppend(a: seq<Meal>, b: seq<Meal>)
    ensures TotalNutrients(a + b) == Add(TotalNutrients(a), TotalNutrients(b))
  {
    if b == [] {
      assert a + b == a;
    } else {
      var bp := b[..|b| - 1];
      assert (a + b)[..|a + b| - 1] == a + bp;
      TotalAppend(a, bp);
    }
  }

  /** Non-negative meals give a non-negative total. */
  lemma {:induction false} TotalNonNegative(meals: seq<Meal>)
    requires forall i :: 0 <= i < |meals| ==> NonNegative(meals[i].nutrients)
    ensures NonNegative(TotalNutrients(meals))
  {
    if meals != [] {
      TotalNonNegative(meals[..|meals| - 1]);
    }
  }
}

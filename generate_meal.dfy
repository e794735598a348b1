/** The meal-generation endpoint (app/api/generate-meal/route.ts): choose
    the meal-time slots, take the first suggestion for each, top the list up
    from a fixed per-slot table, total the nutrients and pick a tip. The
    suggestion service is a parameter `suggest` from slot to suggestions,
    and the random tip choice is an index parameter. */
module GenerateMeal {
  import opened Text
  import opened MealTypes
  import opened Numbers

  /** The ten tips the endpoint picks from. */
  const Tips: seq<string> := [
    "Stay hydrated by drinking at least 8 glasses of water daily.",
    "Include a variety of colorful vegetables for optimal nutrition.",
    "Don't skip breakfast - it kickstarts your metabolism for the day.",
    "Plan your meals ahead to avoid unhealthy last-minute choices.",
    "Listen to your body's hunger and fullness cues.",
    "Include healthy fats like avocado and nuts in your diet.",
    "Meal prep on weekends to save time during busy weekdays.",
    "Balance your plate with protein, carbs, and healthy fats.",
    "Choose whole grains over refined carbohydrates when possible.",
    "Enjoy your favorite foods in moderation - no food is off limits!"
  ]

  const AllMealTimes: seq<string> := ["breakfast", "lunch", "dinner", "snack"]

  /** Where JavaScript's `slice(0, e)` stops on an array of length `len`:
      a negative `e` counts back from the end, and the stop is clamped to
      `[0, len]`. */
  function SliceEnd(e: int, len: nat): (k: nat)
    ensures k <= len
    ensures e >= 0 ==> k == Min(e, len)
    ensures e < 0 ==> k + Min(-e, len) == len
  {
    if e >= 0 then Min(e, len) else if len + e >= 0 then len + e else 0
  }

  /** `getMealTimes(n)`: the slots in day order up to `slice(0, min(n, 4))`,
      so the first `min(n, 4)` of them for `n >= 0`, and all but the last
      `-n` of them for negative `n`. */
  function MealTimes(n: int): (r: seq<string>)
    ensures |r| == SliceEnd(n, 4)
    ensures n >= 0 ==> |r| == Min(n, 4)
    ensures forall i :: 0 <= i < |r| ==> r[i] == AllMealTimes[i] && IsMealTime(r[i])
  {
    AllMealTimes[..SliceEnd(Min(n, |AllMealTimes|), |AllMealTimes|)]
  }

  /** More meals per day never drops a slot: for `0 <= n <= m` the slots
      for `n` lead those for `m`. */
  lemma MealTimesMonotone(n: int, m: int)
    requires 0 <= n <= m
    ensures MealTimes(m)[..|MealTimes(n)|] == MealTimes(n)
  {
  }

  /** The fixed meal of each slot in the top-up table. */
  function EnhancedMeal(pref: string, t: string): (m: Meal)
    requires IsMealTime(t)
    ensures m.mealTime == t && NonNegative(m.nutrients)
    ensures Includes(m.description, pref)
  {
    if t == "breakfast" then
      IncludesMiddle("Nutritious ", pref, " breakfast to start your day");
      Meal("Energy Breakfast", "Nutritious " + pref + " breakfast to start your day",
        Nutrients(350, 15, 55, 8), t)
    else if t == "lunch" then
      IncludesMiddle("Satisfying ", pref, " lunch for sustained energy");
      Meal("Balanced Lunch", "Satisfying " + pref + " lunch for sustained energy",
        Nutrients(420, 20, 45, 12), t)
    else if t == "dinner" then
      IncludesMiddle("Complete ", pref, " dinner with all essential nutrients");
      Meal("Hearty Dinner", "Complete " + pref + " dinner with all essential nutrients",
        Nutrients(480, 30, 40, 15), t)
    else
      IncludesMiddle("Light ", pref, " snack to keep you going");
      Meal("Healthy Snack", "Light " + pref + " snack to keep you going",
        Nutrients(180, 8, 22, 6), t)
  }

  /** The table meal of every slot of `times`, in order. */
  function TableMeals(pref: string, times: seq<string>): (r: seq<Meal>)
    requires forall i :: 0 <= i < |times| ==> IsMealTime(times[i])
    ensures |r| == |times|
    ensures forall i :: 0 <= i < |r| ==> r[i] == EnhancedMeal(pref, times[i])
  {
    if times == [] then [] else [EnhancedMeal(pref, times[0])] + TableMeals(pref, times[1..])
  }

  /** `getEnhancedFallbackMeals(count, pref, times)`: the table meals of the
      slots of `times.slice(0, count)`. */
  function EnhancedFallbackMeals(count: int, pref: string, times: seq<string>): (r: seq<Meal>)
    requires forall i :: 0 <= i < |times| ==> IsMealTime(times[i])
    ensures |r| == SliceEnd(count, |times|)
    ensures count >= 0 ==> |r| == Min(count, |times|)
    ensures forall i :: 0 <= i < |r| ==> r[i] == EnhancedMeal(pref, times[i])
  {
    TableMeals(pref, times[..SliceEnd(count, |times|)])
  }

  /** The first suggestion of each slot that has any, in slot order: what
      the collection loop of `POST` gathers. */
  function FirstSuggestions(times: seq<string>, suggest: string -> seq<Meal>): (r: seq<Meal>)
    ensures |r| <= |times|
  {
    if times == [] then []
    else
      var s := suggest(times[0]);
      (if |s| > 0 then [s[0]] else []) + FirstSuggestions(times[1..], suggest)
  }

  /** Each gathered meal is the first suggestion of one of the slots, and
      slots that get a suggestion keep their order. */
  lemma {:induction false} FirstSuggestionsFromSlots(times: seq<string>, suggest: string -> seq<Meal>, i: nat)
    requires i < |FirstSuggestions(times, suggest)|
    ensures exists j :: 0 <= j < |times| && |suggest(times[j])| > 0 && FirstSuggestions(times, suggest)[i] == suggest(times[j])[0]
  {
    var s := suggest(times[0]);
    var rest := FirstSuggestions(times[1..], suggest);
    if |s| > 0 {
      if i > 0 {
        FirstSuggestionsFromSlots(times[1..], suggest, i - 1);
        var j :| 0 <= j < |times[1..]| && |suggest(times[1..][j])| > 0 && rest[i - 1] == suggest(times[1..][j])[0];
        assert times[1..][j] == times[j + 1];
      } else {
        assert |suggest(times[0])| > 0;
      }
    } else {
      FirstSuggestionsFromSlots(times[1..], suggest, i);
      var j :| 0 <= j < |times[1..]| && |suggest(times[1..][j])| > 0 && rest[i] == suggest(times[1..][j])[0];
      assert times[1..][j] == times[j + 1];
    }
  }

  /** When every slot has a suggestion, one meal is gathered per slot. */
  lemma {:induction false} FirstSuggestionsAll(times: seq<string>, suggest: string -> seq<Meal>)
    requires forall i :: 0 <= i < |times| ==> |suggest(times[i])| > 0
    ensures FirstSuggestions(times, suggest) == seq(|times|, i requires 0 <= i < |times| => suggest(times[i])[0])
  {
    if times != [] {
      FirstSuggestionsAll(times[1..], suggest);
    }
  }

  /** When no slot has a suggestion, nothing is gathered. */
  lemma {:induction false} FirstSuggestionsNone(times: seq<string>, suggest: string -> seq<Meal>)
    requires forall i :: 0 <= i < |times| ==> suggest(times[i]) == []
    ensures FirstSuggestions(times, suggest) == []
  {
    if times != [] {
      FirstSuggestionsNone(times[1..], suggest);
    }
  }

  /** The meals of the plan `POST` answers with: the gathered first
      suggestions, then, while fewer than `n`, table meals for the slots
      from position `k` on, `k` being the number gathered. */
  function PlanMeals(n: int, pref: string, suggest: string -> seq<Meal>): seq<Meal> {
    var times := MealTimes(n);
    var picked := FirstSuggestions(times, suggest);
    if |picked| < n then picked + EnhancedFallbackMeals(n - |picked|, pref, times[|picked|..])
    else picked
  }

  /** The plan holds exactly `min(n, 4)` meals for `n >= 0`; for negative
      `n` nothing is topped up and the plan is what was gathered. */
  lemma PlanMealsCount(n: int, pref: string, suggest: string -> seq<Meal>)
    ensures n >= 0 ==> |PlanMeals(n, pref, suggest)| == Min(n, 4)
    ensures n < 0 ==> PlanMeals(n, pref, suggest) == FirstSuggestions(MealTimes(n), suggest)
  {
  }

  /** The gathered meals come first, unchanged, and the top-up meal at
      position `i >= k` is the table meal of slot `i`: top-up meals take the
      trailing slots, not necessarily the ones that got no suggestion. */
  lemma PlanMealsShape(n: int, pref: string, suggest: string -> seq<Meal>)
    ensures var times := MealTimes(n);
      var picked := FirstSuggestions(times, suggest);
      var meals := PlanMeals(n, pref, suggest);
      meals[..|picked|] == picked
      && forall i :: |picked| <= i < |meals| ==> meals[i] == EnhancedMeal(pref, times[i])
  {
    var times := MealTimes(n);
    var picked := FirstSuggestions(times, suggest);
    var meals := PlanMeals(n, pref, suggest);
    if |picked| < n {
      var extra := EnhancedFallbackMeals(n - |picked|, pref, times[|picked|..]);
      assert meals == picked + extra;
      forall i | |picked| <= i < |meals|
        ensures meals[i] == EnhancedMeal(pref, times[i])
      {
        assert meals[i] == extra[i - |picked|];
        assert times[|picked|..][i - |picked|] == times[i];
      }
    }
  }

  /** A breakfast with no suggestion and a lunch with one give, for two
      meals a day, two lunches and no breakfast. */
  lemma TopUpRepeatsSlot(pref: string, lunch: Meal)
    requires lunch.mealTime == "lunch"
    ensures var meals := PlanMeals(2, pref, t => if t == "lunch" then [lunch] else []);
      |meals| == 2 && meals[0].mealTime == "lunch" && meals[1].mealTime == "lunch"
  {
    var suggest: string -> seq<Meal> := t => if t == "lunch" then [lunch] else [];
    var times := MealTimes(2);
    assert times == ["breakfast", "lunch"];
    assert suggest("breakfast") == [] by {
      assert "breakfast" != "lunch" by { assert |"breakfast"| != |"lunch"|; }
    }
    assert FirstSuggestions(times, suggest) == [lunch] by {
      assert times[1..] == ["lunch"];
      assert FirstSuggestions(times[1..][1..], suggest) == [];
    }
    PlanMealsShape(2, pref, suggest);
  }

  /** The plan `POST` answers with. */
  function Plan(input: UserInput, suggest: string -> seq<Meal>, tipIndex: nat): MealPlan
    requires tipIndex < |Tips|
  {
    var meals := PlanMeals(input.mealsPerDay, input.dietaryPreference, suggest);
    MealPlan(meals, TotalNutrients(meals), Tips[tipIndex])
  }

  /** The collection loop of `POST`: one pass over the slots, keeping the
      first suggestion of each slot that has any. */
  method GatherFirstSuggestions(mealTimes: seq<string>, suggest: string -> seq<Meal>) returns (allMeals: seq<Meal>)
    ensures allMeals == FirstSuggestions(mealTimes, suggest)
  {
    allMeals := [];
    var i := 0;
    while i < |mealTimes|
      invariant 0 <= i <= |mealTimes|
      invariant allMeals + FirstSuggestions(mealTimes[i..], suggest) == FirstSuggestions(mealTimes, suggest)
    {
      var mealSuggestions := suggest(mealTimes[i]);
      assert mealTimes[i..][1..] == mealTimes[i + 1..];
      if |mealSuggestions| > 0 {
        allMeals := allMeals + [mealSuggestions[0]];
      }
      i := i + 1;
    }
    assert mealTimes[i..] == [];
  }

  /** `POST`: the collection loop, the top-up and the totals. */
  method Post(input: UserInput, suggest: string -> seq<Meal>, tipIndex: nat) returns (plan: MealPlan)
    requires tipIndex < |Tips|
    ensures plan == Plan(input, suggest, tipIndex)
    ensures input.mealsPerDay >= 0 ==> |plan.meals| == Min(input.mealsPerDay, 4)
    ensures input.mealsPerDay < 0 ==> plan.meals == FirstSuggestions(MealTimes(input.mealsPerDay), suggest)
    ensures plan.tip in Tips
  {
    var n := input.mealsPerDay;
    var mealTimes := MealTimes(n);
    var allMeals := GatherFirstSuggestions(mealTimes, suggest);
    if |allMeals| < n {
      var additionalMeals := EnhancedFallbackMeals(n - |allMeals|, input.dietaryPreference, mealTimes[|allMeals|..]);
      allMeals := allMeals + additionalMeals;
    }
    assert allMeals == PlanMeals(n, input.dietaryPreference, suggest);
    PlanMealsCount(n, input.dietaryPreference, suggest);
    plan := MealPlan(allMeals, TotalNutrients(allMeals), Tips[tipIndex]);
  }

  /** `generateEnhancedFallbackPlan`: the table meals of the slots of
      `MealTimes(n).slice(0, n)`, their total, and a tip. For negative `n`
      the slice counts back from the end twice: -1 gives two meals. */
  function FallbackPlan(n: int, pref: string, tipIndex: nat): (p: MealPlan)
    requires tipIndex < |Tips|
    ensures n >= 0 ==> |p.meals| == Min(n, 4)
    ensures n < 0 ==> |p.meals| == if n >= -2 then 4 + 2 * n else 0
    ensures forall i :: 0 <= i < |p.meals| ==> p.meals[i] == EnhancedMeal(pref, AllMealTimes[i])
    ensures p.tip in Tips
  {
    var meals := EnhancedFallbackMeals(n, pref, MealTimes(n));
    MealPlan(meals, TotalNutrients(meals), Tips[tipIndex])
  }

  /** The fallback plan's total is the field-wise sum of its meals, all
      zeros for no meals, and never negative. */
  lemma FallbackPlanTotal(n: int, pref: string, tipIndex: nat)
    requires tipIndex < |Tips|
    ensures var p := FallbackPlan(n, pref, tipIndex);
      p.totalNutrients == Nutrients(SumOf(p.meals, Calories), SumOf(p.meals, Protein),
                                    SumOf(p.meals, Carbs), SumOf(p.meals, Fat))
      && NonNegative(p.totalNutrients)
      && ((n == 0 || n <= -2) ==> p.totalNutrients == NoNutrients)
  {
    var p := FallbackPlan(n, pref, tipIndex);
    TotalIsFieldwiseSum(p.meals);
    TotalNonNegative(p.meals);
  }

  /** With no suggestions at all, `POST` answers with the fallback plan's
      meals. */
  lemma NoSuggestionsGivesFallback(n: int, pref: string, suggest: string -> seq<Meal>, tipIndex: nat)
    requires tipIndex < |Tips|
    requires forall t :: IsMealTime(t) ==> suggest(t) == []
    ensures n >= 0 ==> PlanMeals(n, pref, suggest) == FallbackPlan(n, pref, tipIndex).meals
    ensures n < 0 ==> PlanMeals(n, pref, suggest) == []
  {
    var times := MealTimes(n);
    FirstSuggestionsNone(times, suggest);
    if n == 0 {
      assert times == [];
    } else {
      assert times[0..] == times;
    }
  }
}

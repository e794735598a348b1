/** Tip selection of the AI tip helpers (lib/gemini.ts): the table of tips
    by goal and dietary preference used when the AI service gives no
    answer, the per-context lists of canned tips, and the prompt chosen per
    context. The AI answer is a parameter (`None` when the request fails or
    the answer has no candidate text); the random pick is an index. */
module Gemini {
  import opened Wrappers
  import opened Text

  const DefaultTip := "Eat a balanced diet with a variety of nutrients."

  /** The goals the tip table has a row for. */
  predicate IsTipGoal(goal: string) {
    goal == "weight_loss" || goal == "muscle_gain" || goal == "maintain"
  }

  /** The dietary preferences the tip table has a column for. */
  predicate IsTipPreference(pref: string) {
    pref == "vegan" || pref == "vegetarian" || pref == "pescatarian"
  }

  /** `tips[goal] || tips.maintain`: the row used for a goal. */
  function TipRow(goal: string): (r: string)
    ensures IsTipGoal(r)
    ensures IsTipGoal(goal) ==> r == goal
    ensures !IsTipGoal(goal) ==> r == "maintain"
  {
    if IsTipGoal(goal) then goal else "maintain"
  }

  /** One cell of the tip table; `None` for a preference with no column. */
  function TableTip(row: string, pref: string, mealsPerDay: int): Option<string>
    requires IsTipGoal(row)
  {
    if row == "weight_loss" then
      if pref == "vegan" then Some("Focus on high-fiber veggies at your " + IntToString(mealsPerDay) + " meals to stay full.")
      else if pref == "vegetarian" then Some("Include protein like Greek yogurt to stay satisfied between meals.")
      else if pref == "pescatarian" then Some("Choose grilled fish for lean protein and metabolism support.")
      else None
    else if row == "muscle_gain" then
      if pref == "vegan" then Some("Combine legumes with grains for complete protein at every meal.")
      else if pref == "vegetarian" then Some("Have protein within 2 hours after workouts for muscle recovery.")
      else if pref == "pescatarian" then Some("Eat fish post-workout - the protein helps build muscle tissue.")
      else None
    else
      if pref == "vegan" then Some("Balance each meal with plants, proteins, and healthy fats.")
      else if pref == "vegetarian" then Some("Rotate between different protein sources for diverse nutrients.")
      else if pref == "pescatarian" then Some("Include fatty fish weekly for omega-3s and overall health.")
      else None
  }

  /** `generateSmartFallbackTip` */
  function SmartFallbackTip(pref: string, goal: string, mealsPerDay: int): (r: string)
    ensures !IsTipPreference(pref) ==> r == DefaultTip
    ensures IsTipPreference(pref) ==> r != DefaultTip
  {
    match TableTip(TipRow(goal), pref, mealsPerDay)
    case Some(tip) => tip
    case None => DefaultTip
  }

  /** An unrecognised goal gets the tips of the `maintain` row. */
  lemma UnknownGoalUsesMaintain(pref: string, goal: string, mealsPerDay: int)
    requires !IsTipGoal(goal)
    ensures SmartFallbackTip(pref, goal, mealsPerDay) == SmartFallbackTip(pref, "maintain", mealsPerDay)
  {
  }

  /** Every tip but the weight-loss vegan one ignores the number of meals. */
  lemma TipIgnoresMeals(pref: string, goal: string, a: int, b: int)
    requires !(goal == "weight_loss" && pref == "vegan")
    ensures SmartFallbackTip(pref, goal, a) == SmartFallbackTip(pref, goal, b)
  {
  }

  /** The weight-loss vegan tip states the number of meals, so different
      numbers give different tips. */
  lemma WeightLossVeganStatesMeals(a: int, b: int)
    ensures Includes(SmartFallbackTip("vegan", "weight_loss", a), IntToString(a))
    ensures a != b ==> SmartFallbackTip("vegan", "weight_loss", a) != SmartFallbackTip("vegan", "weight_loss", b)
  {
    var lead, tail := "Focus on high-fiber veggies at your ", " meals to stay full.";
    assert SmartFallbackTip("vegan", "weight_loss", a) == lead + IntToString(a) + tail;
    assert SmartFallbackTip("vegan", "weight_loss", b) == lead + IntToString(b) + tail;
    IncludesMiddle(lead, IntToString(a), tail);
    if a != b {
      IntToStringInjective(a, b);
      MiddleDiffers(lead, IntToString(a), IntToString(b), tail);
    }
  }

  /** `generateMealPlanWithAI`: the trimmed AI answer, or the table tip when
      there is none. */
  function AiTip(pref: string, goal: string, mealsPerDay: int, answer: Option<string>): (r: string)
    ensures answer.None? ==> r == SmartFallbackTip(pref, goal, mealsPerDay)
    ensures answer.Some? ==> r == Trim(answer.value) && Includes(answer.value, r)
  {
    match answer
    case Some(text) => Trim(text)
    case None => SmartFallbackTip(pref, goal, mealsPerDay)
  }

  /** The contexts that have their own prompt and their own canned tips. */
  predicate IsTipContext(c: string) {
    c == "general" || c == "breakfast" || c == "lunch" || c == "dinner"
    || c == "snacks" || c == "hydration" || c == "fitness" || c == "weightloss"
  }

  const BreakfastTips: seq<string> := [
    "Include protein in breakfast to prevent mid-morning cravings.",
    "Add berries to your breakfast for antioxidants and fiber.",
    "Choose whole grains for sustained morning energy.",
    "Don't skip breakfast - it kickstarts your metabolism.",
    "Add nuts or seeds for healthy fats and crunch."]

  const LunchTips: seq<string> := [
    "Build lunch around vegetables first, then add protein.",
    "Include a source of healthy fats like avocado or olive oil.",
    "Choose lean proteins to stay full without feeling heavy.",
    "Add fermented foods like yogurt for gut health.",
    "Pack your lunch to control ingredients and save money."]

  const DinnerTips: seq<string> := [
    "Eat dinner at least 2-3 hours before bedtime for better sleep.",
    "Make half your dinner plate non-starchy vegetables.",
    "Choose lighter proteins in the evening for better digestion.",
    "Include fiber-rich foods to keep you full through the night.",
    "Experiment with herbs and spices instead of salt."]

  const SnackTips: seq<string> := [
    "Pair carbs with protein for satisfying, balanced snacks.",
    "Keep healthy snacks visible and accessible.",
    "Choose whole fruit over juice for more fiber.",
    "Pre-portion snacks to avoid mindless eating.",
    "Include nuts or seeds for sustained energy between meals."]

  const HydrationTips: seq<string> := [
    "Start your day with a glass of water to rehydrate.",
    "Keep a water bottle nearby as a visual reminder to drink.",
    "Add lemon or cucumber slices to water for natural flavor.",
    "Drink water before you feel thirsty - thirst means you're already dehydrated.",
    "Eat water-rich foods like watermelon and cucumber."]

  const FitnessTips: seq<string> := [
    "Fuel workouts with easily digestible carbs 1-2 hours before.",
    "Replenish with protein and carbs within 30 minutes after exercise.",
    "Stay hydrated before, during, and after your workouts.",
    "Listen to your body - eat more on active days, less on rest days.",
    "Include electrolytes during intense or long workouts."]

  const WeightLossTips: seq<string> := [
    "Focus on nutrient density rather than just calorie counting.",
    "Eat slowly and mindfully to recognize fullness cues.",
    "Include fiber at every meal to promote satiety.",
    "Don't eliminate food groups - practice moderation instead.",
    "Get enough sleep - tiredness increases hunger hormones."]

  const GeneralTips: seq<string> := [
    "Drink water before meals to help control appetite naturally.",
    "Add colorful vegetables to every meal for diverse nutrients.",
    "Chew your food slowly to improve digestion and satisfaction.",
    "Include protein in each meal to maintain steady energy levels.",
    "Plan your meals weekly to make healthy choices easier."]

  /** The canned tips of a known context. */
  function ContextTips(c: string): seq<string>
    requires IsTipContext(c)
  {
    if c == "breakfast" then BreakfastTips
    else if c == "lunch" then LunchTips
    else if c == "dinner" then DinnerTips
    else if c == "snacks" then SnackTips
    else if c == "hydration" then HydrationTips
    else if c == "fitness" then FitnessTips
    else if c == "weightloss" then WeightLossTips
    else GeneralTips
  }

  /** `fallbackTips[context] || fallbackTips.general` */
  function TipList(c: string): (r: seq<string>)
    ensures |r| == 5
    ensures IsTipContext(c) ==> r == ContextTips(c)
    ensures !IsTipContext(c) ==> r == ContextTips("general")
  {
    if IsTipContext(c) then ContextTips(c) else ContextTips("general")
  }

  /** `generateRandomFallbackTip(c)` with the random position as `index`. */
  function RandomFallbackTip(c: string, index: nat): (r: string)
    requires index < 5
    ensures r in TipList(c)
    ensures !IsTipContext(c) ==> r in ContextTips("general")
  {
    TipList(c)[index]
  }

  /** Every tip of the list can be drawn. */
  lemma EveryTipCanBeDrawn(c: string, tip: string)
    requires tip in TipList(c)
    ensures exists index :: 0 <= index < 5 && RandomFallbackTip(c, index) == tip
  {
    var index :| 0 <= index < |TipList(c)| && TipList(c)[index] == tip;
    assert RandomFallbackTip(c, index) == tip;
  }

  /** The prompt sent for a known context. */
  function ContextPrompt(c: string): string
    requires IsTipContext(c)
  {
    if c == "breakfast" then
    "Give me a unique breakfast nutrition tip that's actionable and under 80 characters. Return only the tip text."
    else if c == "lunch" then
    "Give me a creative lunch nutrition tip that's practical and under 80 characters. Return only the tip text."
    else if c == "dinner" then
    "Give me an insightful dinner nutrition tip that's helpful and under 80 characters. Return only the tip text."
    else if c == "snacks" then
    "Give me a smart snacking tip that's healthy and under 80 characters. Return only the tip text."
    else if c == "hydration" then
    "Give me an interesting hydration tip that's useful and under 80 characters. Return only the tip text."
    else if c == "fitness" then
    "Give me a nutrition tip for active people that's under 80 characters. Return only the tip text."
    else if c == "weightloss" then
    "Give me a weight management nutrition tip that's under 80 characters. Return only the tip text."
    else
    "Give me a random, interesting nutrition tip that's practical and under 80 characters. Make it something people might not know. Return only the tip text."
  }

  /** `prompts[context] || prompts.general` */
  function Prompt(c: string): (r: string)
    ensures IsTipContext(c) ==> r == ContextPrompt(c)
    ensures !IsTipContext(c) ==> r == ContextPrompt("general")
  {
    if IsTipContext(c) then ContextPrompt(c) else ContextPrompt("general")
  }

  /** `generateRandomNutritionTip(c)`: the trimmed AI answer to `Prompt(c)`,
      or a canned tip of the context when there is none. */
  function RandomNutritionTip(c: string, answer: Option<string>, index: nat): (r: string)
    requires index < 5
    ensures answer.None? ==> r in TipList(c)
    ensures answer.Some? ==> r == Trim(answer.value) && Includes(answer.value, r)
  {
    match answer
    case Some(text) => Trim(text)
    case None => RandomFallbackTip(c, index)
  }
}

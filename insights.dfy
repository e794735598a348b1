/** The insights page (app/insights/page.tsx): statistics over the stored
    plans, goals and favorites, the most common goal, the two histograms,
    and the achievement level and message derived from them. */
module Insights {
  import opened Wrappers
  import opened Lists
  import opened Numbers
  import opened MealTypes
  import opened Storage
  import opened Tallies
  import Goals

  /** The reduce step for `mostCommonGoal`: a key that is missing compares
      as `undefined`, which is never greater, so the later key wins ties. */
  function Pick(count: map<string, nat>, a: string, b: string): (r: string)
    requires b in count
    ensures r == a || r == b
    ensures r in count && count[r] >= count[b]
    ensures r != b ==> a in count && count[a] > count[b]
  {
    if a in count && count[a] > count[b] then a else b
  }

  /** `Object.keys(counts).reduce(Pick, 'weight_loss')` */
  function MostCommonFold(keys: seq<string>, count: map<string, nat>): string
    requires forall k :: k in keys ==> k in count
  {
    if keys == [] then "weight_loss"
    else Pick(count, MostCommonFold(keys[..|keys| - 1], count), keys[|keys| - 1])
  }

  /** After folding over a non-empty run of distinct keys, the result is a
      counted key whose count is maximal over the run and strictly greater
      than that of every key after it in the run. */
  lemma {:induction false} MostCommonFoldSpec(keys: seq<string>, count: map<string, nat>)
    requires forall k :: k in keys ==> k in count
    requires NoDuplicates(keys)
    ensures keys == [] ==> MostCommonFold(keys, count) == "weight_loss"
    ensures keys != [] ==> MostCommonFold(keys, count) in count
    ensures forall j :: 0 <= j < |keys| ==> count[keys[j]] <= count[MostCommonFold(keys, count)]
    ensures forall i, j :: 0 <= i < j < |keys| && keys[i] == MostCommonFold(keys, count) ==>
      count[keys[j]] < count[MostCommonFold(keys, count)]
  {
    if keys != [] {
      var p, b := keys[..|keys| - 1], keys[|keys| - 1];
      MostCommonFoldSpec(p, count);
      var acc := MostCommonFold(p, count);
      var r := MostCommonFold(keys, count);
      assert r == Pick(count, acc, b);
      forall j | 0 <= j < |keys|
        ensures count[keys[j]] <= count[r]
      {
        if j < |p| {
          assert keys[j] == p[j];
        }
      }
      forall i, j | 0 <= i < j < |keys| && keys[i] == r
        ensures count[keys[j]] < count[r]
      {
        assert keys[i] == p[i];
        if j < |p| {
          assert keys[j] == p[j];
        } else if r == b {
          assert false;
        }
      }
    }
  }

  /** The goal of each plan, in plan order. */
  function GoalsOf(plans: seq<SavedPlan>): seq<string> {
    Map(plans, (p: SavedPlan) => p.userInput.goal)
  }

  /** The dietary preference of each plan, in plan order. */
  function PreferencesOf(plans: seq<SavedPlan>): seq<string> {
    Map(plans, (p: SavedPlan) => p.userInput.dietaryPreference)
  }

  /** The meal-time slot of each meal. */
  function SlotsOf(meals: seq<Meal>): seq<string> {
    Map(meals, (m: Meal) => m.mealTime)
  }

  /** The slot of every meal of every plan, plan by plan. */
  function MealTimesOf(plans: seq<SavedPlan>): seq<string> {
    if plans == [] then [] else MealTimesOf(plans[..|plans| - 1]) + SlotsOf(plans[|plans| - 1].meals)
  }

  lemma MealTimesPrefixSnoc(plans: seq<SavedPlan>, i: nat)
    requires i < |plans|
    ensures MealTimesOf(plans[..i + 1]) == MealTimesOf(plans[..i]) + SlotsOf(plans[i].meals)
  {
    assert plans[..i + 1][..i] == plans[..i];
  }

  /** `totalMeals`: the meal counts of the plans added up. */
  function TotalMeals(plans: seq<SavedPlan>): nat {
    if plans == [] then 0 else TotalMeals(plans[..|plans| - 1]) + |plans[|plans| - 1].meals|
  }

  /** Every meal of every plan has one slot entry. */
  lemma {:induction false} MealTimesCount(plans: seq<SavedPlan>)
    ensures |MealTimesOf(plans)| == TotalMeals(plans)
  {
    if plans != [] {
      MealTimesCount(plans[..|plans| - 1]);
    }
  }

  /** `totalCalories`: the plans' calorie totals added up. */
  function TotalCalories(plans: seq<SavedPlan>): int {
    if plans == [] then 0 else TotalCalories(plans[..|plans| - 1]) + plans[|plans| - 1].totalNutrients.calories
  }

  lemma {:induction false} TotalCaloriesBounds(plans: seq<SavedPlan>, lo: int, hi: int)
    requires forall i :: 0 <= i < |plans| ==> lo <= plans[i].totalNutrients.calories <= hi
    ensures |plans| * lo <= TotalCalories(plans) <= |plans| * hi
  {
    if plans != [] {
      var n := |plans|;
      TotalCaloriesBounds(plans[..n - 1], lo, hi);
      assert n * lo == (n - 1) * lo + lo && n * hi == (n - 1) * hi + hi;
    }
  }

  /** `averageCalories`: 0 without plans, else the rounded mean. */
  function AverageCalories(plans: seq<SavedPlan>): (r: int)
    ensures plans == [] ==> r == 0
    ensures plans != [] ==> |plans| * (2 * r - 1) <= 2 * TotalCalories(plans) < |plans| * (2 * r + 1)
  {
    if |plans| > 0 then RoundDiv(TotalCalories(plans), |plans|) else 0
  }

  /** The mean lies between the smallest and the largest plan total. */
  lemma AverageWithinBounds(plans: seq<SavedPlan>, lo: int, hi: int)
    requires plans != []
    requires forall i :: 0 <= i < |plans| ==> lo <= plans[i].totalNutrients.calories <= hi
    ensures lo <= AverageCalories(plans) <= hi
  {
    TotalCaloriesBounds(plans, lo, hi);
    assert lo * |plans| == |plans| * lo && hi * |plans| == |plans| * hi;
    RoundDivAtLeast(TotalCalories(plans), |plans|, lo);
    RoundDivAtMost(TotalCalories(plans), |plans|, hi);
  }

  /** `weeklyProgress`: `min(100, round(plans / 4 * 100))`. */
  function WeeklyProgress(totalPlans: nat): int {
    Min(100, RoundDiv(100 * totalPlans, 4))
  }

  /** Weekly progress moves in steps of 25 per plan and stops at 100. */
  lemma WeeklyProgressSteps(totalPlans: nat)
    ensures WeeklyProgress(totalPlans) == Min(100, 25 * totalPlans)
  {
    RoundDivExact(25 * totalPlans, 4);
  }

  /** `mostCommonGoal` over the plans. */
  function MostCommonGoal(plans: seq<SavedPlan>): string {
    var t := TallyOf(GoalsOf(plans));
    MostCommonFold(t.keys, t.count)
  }

  /** With no plans the most common goal is "weight_loss"; otherwise it is
      the goal of some plan. */
  lemma MostCommonGoalIsAGoal(plans: seq<SavedPlan>)
    ensures plans == [] ==> MostCommonGoal(plans) == "weight_loss"
    ensures plans != [] ==> MostCommonGoal(plans) in GoalsOf(plans)
  {
    var goals := GoalsOf(plans);
    var t := TallyOf(goals);
    MostCommonFoldSpec(t.keys, t.count);
    if plans != [] {
      assert goals[0] in goals;
      TallyCount(goals, goals[0]);
      TallyKeys(goals);
      DistinctMembers(goals);
    }
  }

  /** No goal occurs in more plans than the most common one. */
  lemma MostCommonGoalIsMaximal(plans: seq<SavedPlan>, g: string)
    requires g in GoalsOf(plans)
    ensures Count(GoalsOf(plans), g) <= Count(GoalsOf(plans), MostCommonGoal(plans))
  {
    var goals := GoalsOf(plans);
    var t := TallyOf(goals);
    var r := MostCommonGoal(plans);
    MostCommonFoldSpec(t.keys, t.count);
    TallyKeys(goals);
    DistinctMembers(goals);
    TallyCount(goals, g);
    TallyCount(goals, r);
    var j :| 0 <= j < |t.keys| && t.keys[j] == g;
  }

  /** Among goals of maximal count the most common goal is the one that
      first appears last: every goal first appearing after it occurs in
      strictly fewer plans. */
  lemma MostCommonGoalIsLatest(plans: seq<SavedPlan>, g: string)
    requires g in GoalsOf(plans) && MostCommonGoal(plans) in GoalsOf(plans)
    requires IndexOf(GoalsOf(plans), MostCommonGoal(plans)) < IndexOf(GoalsOf(plans), g)
    ensures Count(GoalsOf(plans), g) < Count(GoalsOf(plans), MostCommonGoal(plans))
  {
    var goals := GoalsOf(plans);
    var t := TallyOf(goals);
    var r := MostCommonGoal(plans);
    MostCommonFoldSpec(t.keys, t.count);
    TallyKeys(goals);
    DistinctMembers(goals);
    TallyCount(goals, g);
    TallyCount(goals, r);
    var i :| 0 <= i < |t.keys| && t.keys[i] == r;
    var j :| 0 <= j < |t.keys| && t.keys[j] == g;
    if j < i {
      DistinctOrderAt(goals, j, i);
      assert false;
    } else if j == i {
      assert false;
    }
    assert t.count[g] < t.count[r];
  }

  /** `InsightData` */
  datatype InsightData = InsightData(
    totalPlans: nat,
    totalMeals: nat,
    favoriteMeals: nat,
    completedGoals: nat,
    activeGoals: nat,
    averageCalories: int,
    mostCommonGoal: string,
    dietaryPreferences: Tally,
    mealTimeDistribution: Tally,
    weeklyProgress: int,
    streak: int)

  /** Reference definition of the statistics over the stored lists. */
  function InsightsOf(plans: seq<SavedPlan>, goals: seq<Goal>, favorites: seq<Favorite>): InsightData {
    InsightData(
      |plans|,
      TotalMeals(plans),
      |favorites|,
      |Goals.CompletedGoals(goals)|,
      |Goals.ActiveGoals(goals)|,
      AverageCalories(plans),
      MostCommonGoal(plans),
      TallyOf(PreferencesOf(plans)),
      TallyOf(MealTimesOf(plans)),
      WeeklyProgress(|plans|),
      Min(7, |plans|))
  }

  /** The counts of the statistics agree with each other: completed and
      active goals make up all goals, the preference histogram adds up to
      the plans, the meal-time histogram to the meals, and the progress and
      streak are capped linear in the plans. */
  lemma InsightsConsistent(plans: seq<SavedPlan>, goals: seq<Goal>, favorites: seq<Favorite>)
    ensures InsightsOf(plans, goals, favorites).completedGoals + InsightsOf(plans, goals, favorites).activeGoals == |goals|
    ensures SumCounts(InsightsOf(plans, goals, favorites).dietaryPreferences.keys,
      InsightsOf(plans, goals, favorites).dietaryPreferences.count) == InsightsOf(plans, goals, favorites).totalPlans
    ensures SumCounts(InsightsOf(plans, goals, favorites).mealTimeDistribution.keys,
      InsightsOf(plans, goals, favorites).mealTimeDistribution.count) == InsightsOf(plans, goals, favorites).totalMeals
    ensures InsightsOf(plans, goals, favorites).weeklyProgress == Min(100, 25 * |plans|)
    ensures InsightsOf(plans, goals, favorites).streak == Min(7, |plans|)
  {
    if goals != [] {
      Goals.CompletedActivePartition(goals, goals[0]);
    } else {
      assert Goals.CompletedGoals(goals) == [] && Goals.ActiveGoals(goals) == [];
    }
    TallySum(PreferencesOf(plans));
    TallySum(MealTimesOf(plans));
    MealTimesCount(plans);
    WeeklyProgressSteps(|plans|);
  }

  /** A histogram filled by one `forEach` over the plans, counting one key
      per plan. */
  method CountBy(plans: seq<SavedPlan>, key: SavedPlan -> string) returns (counts: Tally)
    ensures counts == TallyOf(Map(plans, key))
  {
    counts := EmptyTally;
    var i := 0;
    while i < |plans|
      invariant 0 <= i <= |plans|
      invariant counts == TallyOf(Map(plans[..i], key))
    {
      var k := key(plans[i]);
      MapPrefixSnoc(plans, i, key);
      TallySnoc(Map(plans[..i], key), k);
      counts := Bump(counts, k);
      i := i + 1;
    }
    assert plans[..i] == plans;
  }

  lemma SlotStep(before: seq<string>, meals: seq<Meal>, j: nat)
    requires j < |meals|
    ensures TallyOf(before + SlotsOf(meals[..j + 1])) == Bump(TallyOf(before + SlotsOf(meals[..j])), meals[j].mealTime)
  {
    MapPrefixSnoc(meals, j, (m: Meal) => m.mealTime);
    assert before + SlotsOf(meals[..j + 1]) == (before + SlotsOf(meals[..j])) + [meals[j].mealTime];
    TallySnoc(before + SlotsOf(meals[..j]), meals[j].mealTime);
  }

  /** `mealTimeDistribution`: a `forEach` over the meals of a `forEach` over
      the plans. */
  method CountMealTimes(plans: seq<SavedPlan>) returns (distribution: Tally)
    ensures distribution == TallyOf(MealTimesOf(plans))
  {
    distribution := EmptyTally;
    var i := 0;
    while i < |plans|
      invariant 0 <= i <= |plans|
      invariant distribution == TallyOf(MealTimesOf(plans[..i]))
    {
      var meals := plans[i].meals;
      ghost var before := MealTimesOf(plans[..i]);
      var j := 0;
      assert before + SlotsOf(meals[..0]) == before;
      while j < |meals|
        invariant 0 <= j <= |meals|
        invariant distribution == TallyOf(before + SlotsOf(meals[..j]))
      {
        var slot := meals[j].mealTime;
        SlotStep(before, meals, j);
        distribution := Bump(distribution, slot);
        j := j + 1;
      }
      assert meals[..j] == meals;
      MealTimesPrefixSnoc(plans, i);
      i := i + 1;
    }
    assert plans[..i] == plans;
  }

  /** The score behind the level: a plan counts once, a completed goal twice. */
  function Score(d: InsightData): nat {
    d.totalPlans + d.completedGoals * 2
  }

  /** `getAchievementLevel`: Expert from a score of 10, Beginner below 5 or
      without data, Intermediate in between. */
  function AchievementLevel(data: Option<InsightData>): (r: string)
    ensures r == "Beginner" || r == "Intermediate" || r == "Expert"
    ensures data.None? ==> r == "Beginner"
    ensures data.Some? ==> (r == "Expert" <==> Score(data.value) >= 10)
    ensures data.Some? ==> (r == "Beginner" <==> Score(data.value) < 5)
  {
    if data.None? then "Beginner"
    else
      var score := data.value.totalPlans + data.value.completedGoals * 2;
      if score >= 10 then "Expert" else if score >= 5 then "Intermediate" else "Beginner"
  }

  /** The level never drops when plans are added or goals completed. */
  lemma AchievementMonotone(a: InsightData, b: InsightData)
    requires a.totalPlans <= b.totalPlans && a.completedGoals <= b.completedGoals
    ensures AchievementLevel(Some(a)) == "Expert" ==> AchievementLevel(Some(b)) == "Expert"
    ensures AchievementLevel(Some(a)) == "Intermediate" ==> AchievementLevel(Some(b)) != "Beginner"
  {
  }

  const NoDataMessage := "Start your journey to better health!"
  const FirstPlanMessage := "Ready to start your health journey? Generate your first meal plan!"
  const GreatStartMessage := "Great start! Keep going to build healthy habits."
  const AchievingMessage := "Amazing progress! You're achieving your goals."
  const ConsistencyMessage := "Consistency is key! You're building great habits."

  /** `getMotivationalMessage` */
  function MotivationalMessage(data: Option<InsightData>): string {
    if data.None? then NoDataMessage
    else if data.value.totalPlans == 0 then FirstPlanMessage
    else if data.value.totalPlans < 3 then GreatStartMessage
    else if data.value.completedGoals > 0 then AchievingMessage
    else ConsistencyMessage
  }

  /** The five messages are five different texts (their lengths differ). */
  lemma MessagesDistinct()
    ensures NoDataMessage != FirstPlanMessage && NoDataMessage != GreatStartMessage
    ensures NoDataMessage != AchievingMessage && NoDataMessage != ConsistencyMessage
    ensures FirstPlanMessage != GreatStartMessage && FirstPlanMessage != AchievingMessage
    ensures FirstPlanMessage != ConsistencyMessage && GreatStartMessage != AchievingMessage
    ensures GreatStartMessage != ConsistencyMessage && AchievingMessage != ConsistencyMessage
  {
    assert |NoDataMessage| == 36 && |FirstPlanMessage| == 66 && |GreatStartMessage| == 48;
    assert |AchievingMessage| == 46 && |ConsistencyMessage| == 49;
  }

  /** The message tests the plan count before the goals: below three plans
      completed goals make no difference; no plans, one or two plans, and
      three or more plans get different messages; from three plans on,
      whether any goal is completed always does. Without data it differs
      from every message shown with data. */
  lemma MotivationalMessageOrder(a: InsightData, b: InsightData)
    ensures a.totalPlans == b.totalPlans < 3 ==> MotivationalMessage(Some(a)) == MotivationalMessage(Some(b))
    ensures a.totalPlans == 0 < b.totalPlans < 3 ==> MotivationalMessage(Some(a)) != MotivationalMessage(Some(b))
    ensures a.totalPlans < 3 <= b.totalPlans ==> MotivationalMessage(Some(a)) != MotivationalMessage(Some(b))
    ensures a.totalPlans >= 3 && b.totalPlans >= 3 && (a.completedGoals > 0) != (b.completedGoals > 0) ==>
      MotivationalMessage(Some(a)) != MotivationalMessage(Some(b))
    ensures MotivationalMessage(None) != MotivationalMessage(Some(a))
  {
    MessagesDistinct();
  }

  /** The insights page: the computed statistics (none until loaded), the
      loading flag, and the store it reads. */
  class InsightsPage {
    var insightData: Option<InsightData>
    var loading: bool
    const store: LocalStore

    constructor(store: LocalStore)
      ensures this.store == store && insightData == None && loading
    {
      this.store := store;
      insightData := None;
      loading := true;
    }

    /** `loadInsightData`: without a session nothing is computed; otherwise
        the statistics of the stored lists are. */
    method LoadInsightData(signedIn: bool)
      modifies this
      ensures !loading
      ensures !signedIn ==> insightData == old(insightData)
      ensures signedIn ==> insightData == Some(InsightsOf(store.history, store.goals, store.favorites))
    {
      loading := true;
      if !signedIn {
        loading := false;
        return;
      }
      var plans, goals, favorites := store.history, store.goals, store.favorites;
      var goalCounts := CountBy(plans, (p: SavedPlan) => p.userInput.goal);
      var mostCommonGoal := MostCommonFold(goalCounts.keys, goalCounts.count);
      var dietaryPreferences := CountBy(plans, (p: SavedPlan) => p.userInput.dietaryPreference);
      var mealTimeDistribution := CountMealTimes(plans);
      insightData := Some(InsightData(
        |plans|,
        TotalMeals(plans),
        |favorites|,
        |Goals.CompletedGoals(goals)|,
        |Goals.ActiveGoals(goals)|,
        AverageCalories(plans),
        mostCommonGoal,
        dietaryPreferences,
        mealTimeDistribution,
        Min(100, RoundDiv(100 * |plans|, 4)),
        Min(7, |plans|)));
      loading := false;
    }
  }
}

/** The goals page (components/planner/Goals.tsx): the goal list held by the
    page and mirrored to the `userGoals` storage key, with add, delete,
    complete-toggle and the automatic goals made from the latest saved plan.
    Ids and dates, which the page takes from the clock, are parameters. */
module Goals {
  import opened Text
  import opened Lists
  import opened Numbers
  import opened MealTypes
  import opened Storage

  /** The add-goal form. Absent text fields are `""` and absent numbers 0,
      which is how the page's `||` defaults treat them. */
  datatype GoalForm = GoalForm(
    title: string,
    description: string,
    goalType: string,
    targetValue: int,
    currentValue: int,
    unit: string,
    deadline: string)

  /** The form as the page resets it. */
  const EmptyForm := GoalForm("", "", "weight_loss", 0, 0, "kg", "")

  /** `Math.min(100, Math.round(current / target * 100))` when both values
      are non-zero, else 0. */
  function Progress(current: int, target: int): (r: int)
    ensures current == 0 || target == 0 ==> r == 0
    ensures r <= 100
  {
    if current != 0 && target != 0 then Min(100, RoundDiv(100 * current, target)) else 0
  }

  /** A reached target shows 100 percent, and progress towards a positive
      target is never negative. */
  lemma ProgressBounds(current: int, target: int)
    ensures target > 0 && current >= target ==> Progress(current, target) == 100
    ensures target > 0 && current >= 0 ==> 0 <= Progress(current, target) <= 100
  {
    if target > 0 && current >= target {
      RoundDivAtLeast(100 * current, target, 100);
    }
    if target > 0 && current >= 0 {
      RoundDivAtLeast(100 * current, target, 0);
    }
  }

  /** The goal `handleAddGoal` builds from the form. */
  function NewGoal(form: GoalForm, id: string, today: string): (g: Goal)
    ensures g.id == id && g.title == form.title && g.targetValue == form.targetValue
    ensures !g.completed && g.createdAt == today
    ensures g.unit == (if form.unit != "" then form.unit else "kg")
    ensures g.progress == Progress(form.currentValue, form.targetValue)
  {
    Goal(id, form.title, form.description, form.goalType, form.targetValue, form.currentValue,
      if form.unit != "" then form.unit else "kg", form.deadline,
      Progress(form.currentValue, form.targetValue), today, false)
  }

  /** The form is complete enough to add a goal: a title and a non-zero
      target. */
  predicate CanAdd(form: GoalForm) {
    form.title != "" && form.targetValue != 0
  }

  /** `goals.filter(goal => goal.id !== id)` */
  function WithoutGoal(goals: seq<Goal>, id: string): seq<Goal> {
    Filter(goals, (g: Goal) => g.id != id)
  }

  /** Deleting removes every goal with the id and keeps all others, in
      order. */
  lemma WithoutGoalSpec(goals: seq<Goal>, id: string, g: Goal)
    ensures g in WithoutGoal(goals, id) <==> g in goals && g.id != id
    ensures forall i :: 0 <= i < |WithoutGoal(goals, id)| ==> WithoutGoal(goals, id)[i].id != id
    ensures (forall i :: 0 <= i < |goals| ==> goals[i].id != id) ==> WithoutGoal(goals, id) == goals
  {
    FilterMembers(goals, (g: Goal) => g.id != id, g);
    if forall i :: 0 <= i < |goals| ==> goals[i].id != id {
      FilterAll(goals, (g: Goal) => g.id != id);
    }
  }

  /** What completing does to one goal. */
  function Toggled(g: Goal, id: string): (t: Goal)
    ensures g.id == id ==> t == g.(completed := !g.completed, progress := 100)
    ensures g.id != id ==> t == g
  {
    if g.id == id then g.(completed := !g.completed, progress := 100) else g
  }

  /** `goals.map(goal => goal.id === id ? {...} : goal)` */
  function ToggleGoal(goals: seq<Goal>, id: string): (r: seq<Goal>)
    ensures |r| == |goals|
    ensures forall i :: 0 <= i < |goals| ==> r[i] == Toggled(goals[i], id)
  {
    Map(goals, (g: Goal) => Toggled(g, id))
  }

  /** Completing twice restores each matching goal's `completed` flag, but
      its progress stays at 100; other goals are untouched. */
  lemma ToggleTwice(goals: seq<Goal>, id: string)
    ensures var r := ToggleGoal(ToggleGoal(goals, id), id);
      |r| == |goals|
      && forall i :: 0 <= i < |goals| ==>
        r[i] == (if goals[i].id == id then goals[i].(progress := 100) else goals[i])
  {
  }

  function CompletedGoals(goals: seq<Goal>): seq<Goal> {
    Filter(goals, (g: Goal) => g.completed)
  }

  function ActiveGoals(goals: seq<Goal>): seq<Goal> {
    Filter(goals, (g: Goal) => !g.completed)
  }

  /** The completed and the active goals partition the list. */
  lemma CompletedActivePartition(goals: seq<Goal>, g: Goal)
    ensures |CompletedGoals(goals)| + |ActiveGoals(goals)| == |goals|
    ensures g in CompletedGoals(goals) <==> g in goals && g.completed
    ensures g in ActiveGoals(goals) <==> g in goals && !g.completed
  {
    FilterPartition(goals, (g: Goal) => g.completed, (g: Goal) => !g.completed);
    FilterMembers(goals, (g: Goal) => g.completed, g);
    FilterMembers(goals, (g: Goal) => !g.completed, g);
  }

  /** The weight target of the automatic goal: five kilos less to lose
      weight, five more to gain muscle, the current weight otherwise. */
  function TargetWeight(goal: string, weight: int): (t: int)
    ensures goal == "weight_loss" ==> t == weight - 5
    ensures goal == "muscle_gain" ==> t == weight + 5
    ensures goal != "weight_loss" && goal != "muscle_gain" ==> t == weight
  {
    if goal == "weight_loss" then weight - 5
    else if goal == "muscle_gain" then weight + 5
    else weight
  }

  /** The two goals `createGoalsFromHistory` makes from a plan's input:
      the weight goal and the meals-per-day goal. */
  function AutoGoals(input: UserInput, now: string, deadline: string, today: string): (r: seq<Goal>)
    ensures |r| == 2
    ensures forall i :: 0 <= i < 2 ==> !r[i].completed && r[i].progress == 0 && r[i].createdAt == today
    ensures r[0].targetValue == TargetWeight(input.goal, input.weight) && r[0].currentValue == input.weight
    ensures r[0].goalType == input.goal && r[1].goalType == "nutrition"
    ensures r[1].targetValue == 30 && r[1].currentValue == 0
    ensures r[0].id == "auto-" + now + "-1" && r[1].id == "auto-" + now + "-2" && r[0].id != r[1].id
    ensures r[0].title == FormatGoalName(input.goal) + " Goal"
    ensures r[0].description ==
      "Achieve your " + ReplaceFirst(input.goal, '_', ' ') + " goal through personalized meal planning and exercise"
    ensures r[1].title == "Follow " + IntToString(input.mealsPerDay) + " Meals Daily"
    ensures r[1].description == "Maintain a consistent " + IntToString(input.mealsPerDay) + "-meal daily eating schedule"
    ensures r[0].unit == "kg" && r[1].unit == "days"
    ensures r[0].deadline == deadline && r[1].deadline == deadline
  {
    var mealsText := IntToString(input.mealsPerDay);
    var r := [
      Goal("auto-" + now + "-1", FormatGoalName(input.goal) + " Goal",
        "Achieve your " + ReplaceFirst(input.goal, '_', ' ') + " goal through personalized meal planning and exercise",
        input.goal, TargetWeight(input.goal, input.weight), input.weight, "kg", deadline, 0, today, false),
      Goal("auto-" + now + "-2", "Follow " + mealsText + " Meals Daily",
        "Maintain a consistent " + mealsText + "-meal daily eating schedule",
        "nutrition", 30, 0, "days", deadline, 0, today, false)
    ];
    assert r[0].id[|r[0].id| - 1] != r[1].id[|r[1].id| - 1];
    r
  }

  /** The meals-per-day goal's title names the count, so inputs with
      different counts get different titles. */
  lemma AutoGoalTitleNamesMeals(a: UserInput, b: UserInput, now: string, deadline: string, today: string)
    ensures Includes(AutoGoals(a, now, deadline, today)[1].title, IntToString(a.mealsPerDay))
    ensures a.mealsPerDay != b.mealsPerDay ==>
      AutoGoals(a, now, deadline, today)[1].title != AutoGoals(b, now, deadline, today)[1].title
  {
    IncludesMiddle("Follow ", IntToString(a.mealsPerDay), " Meals Daily");
    if a.mealsPerDay != b.mealsPerDay {
      IntToStringInjective(a.mealsPerDay, b.mealsPerDay);
      MiddleDiffers("Follow ", IntToString(a.mealsPerDay), IntToString(b.mealsPerDay), " Meals Daily");
    }
  }

  /** `'weight_loss'.replace('_', ' ')` reads "weight loss". */
  lemma WeightLossReadsAsWords()
    ensures ReplaceFirst("weight_loss", '_', ' ') == "weight loss"
  {
    var p, q := "weight", "loss";
    var g := p + ['_'] + q;
    assert g[..|p|] == p && g[|p| + 1..] == q;
    ReplaceFirstAt(g, '_', ' ', |p|);
    assert g == "weight_loss";
    assert p + [' '] + q == "weight loss";
  }


  /** The goals page: its goal list, the add-goal form, and the store it
      mirrors the list to. */
  class GoalsPage {
    var goals: seq<Goal>
    var newGoal: GoalForm
    var isAdding: bool
    const store: LocalStore

    constructor(store: LocalStore)
      ensures this.store == store && goals == [] && newGoal == EmptyForm && !isAdding
    {
      this.store := store;
      goals := [];
      newGoal := EmptyForm;
      isAdding := false;
    }

    /** `loadGoals`: the page shows what is stored. */
    method LoadGoals()
      modifies this
      ensures goals == store.goals
      ensures newGoal == old(newGoal) && isAdding == old(isAdding)
    {
      goals := store.goals;
    }

    /** `handleAddGoal`: without a title or a target nothing changes;
        otherwise the new goal goes in front, the list is stored, and the
        form is reset and closed. */
    method AddGoal(id: string, today: string)
      modifies this, store
      ensures !CanAdd(old(newGoal)) ==>
        goals == old(goals) && newGoal == old(newGoal) && isAdding == old(isAdding)
        && store.goals == old(store.goals)
      ensures CanAdd(old(newGoal)) ==>
        goals == [NewGoal(old(newGoal), id, today)] + old(goals)
        && store.goals == goals && newGoal == EmptyForm && !isAdding
      ensures store.history == old(store.history) && store.favorites == old(store.favorites)
    {
      if newGoal.title == "" || newGoal.targetValue == 0 {
        return;
      }
      var goal := NewGoal(newGoal, id, today);
      var updatedGoals := [goal] + goals;
      goals := updatedGoals;
      store.goals := updatedGoals;
      newGoal := EmptyForm;
      isAdding := false;
    }

    /** `handleDeleteGoal(id)` */
    method DeleteGoal(id: string)
      modifies this, store
      ensures goals == WithoutGoal(old(goals), id) && store.goals == goals
      ensures newGoal == old(newGoal) && isAdding == old(isAdding)
      ensures store.history == old(store.history) && store.favorites == old(store.favorites)
    {
      var updatedGoals := Filter(goals, (g: Goal) => g.id != id);
      goals := updatedGoals;
      store.goals := updatedGoals;
    }

    /** `handleCompleteGoal(id)` */
    method CompleteGoal(id: string)
      modifies this, store
      ensures goals == ToggleGoal(old(goals), id) && store.goals == goals
      ensures newGoal == old(newGoal) && isAdding == old(isAdding)
      ensures store.history == old(store.history) && store.favorites == old(store.favorites)
    {
      var updatedGoals := Map(goals, (g: Goal) => Toggled(g, id));
      goals := updatedGoals;
      store.goals := updatedGoals;
    }

    /** `createGoalsFromHistory`: with a stored history, the two automatic
        goals of the most recent plan replace the list and are stored;
        with none, nothing changes. */
    method CreateGoalsFromHistory(now: string, deadline: string, today: string)
      modifies this, store
      ensures old(store.history) == [] ==> goals == old(goals) && store.goals == old(store.goals)
      ensures old(store.history) != [] ==>
        goals == AutoGoals(old(store.history)[0].userInput, now, deadline, today) && store.goals == goals
      ensures newGoal == old(newGoal) && isAdding == old(isAdding)
      ensures store.history == old(store.history) && store.favorites == old(store.favorites)
    {
      var savedPlans := store.history;
      if |savedPlans| > 0 {
        var autoGoals := AutoGoals(savedPlans[0].userInput, now, deadline, today);
        goals := autoGoals;
        store.goals := autoGoals;
      }
    }
  }
}

/** The history page (components/planner/History.tsx): the saved plans, the
    search box and goal filter over them, deleting a plan, and the badge
    shown for a goal. */
module History {
  import opened Wrappers
  import opened Text
  import opened Lists
  import opened MealTypes
  import opened Storage

  /** The search term occurs, ignoring case, in the plan's name or goal, and
      the goal filter is "all" or the plan's goal. */
  predicate PlanMatches(plan: SavedPlan, searchTerm: string, filterGoal: string) {
    (IncludesIgnoringCase(plan.name, searchTerm) || IncludesIgnoringCase(plan.userInput.goal, searchTerm))
    && (filterGoal == "all" || plan.userInput.goal == filterGoal)
  }

  /** `filteredPlans` */
  function FilteredPlans(plans: seq<SavedPlan>, searchTerm: string, filterGoal: string): seq<SavedPlan> {
    Filter(plans, (p: SavedPlan) => PlanMatches(p, searchTerm, filterGoal))
  }

  /** A plan is shown exactly when it matches; shown plans keep their order. */
  lemma FilteredPlansSpec(a: seq<SavedPlan>, b: seq<SavedPlan>, searchTerm: string, filterGoal: string, p: SavedPlan)
    ensures p in FilteredPlans(a, searchTerm, filterGoal) <==> p in a && PlanMatches(p, searchTerm, filterGoal)
    ensures FilteredPlans(a + b, searchTerm, filterGoal)
      == FilteredPlans(a, searchTerm, filterGoal) + FilteredPlans(b, searchTerm, filterGoal)
  {
    FilterMembers(a, (p: SavedPlan) => PlanMatches(p, searchTerm, filterGoal), p);
    FilterAppend(a, b, (p: SavedPlan) => PlanMatches(p, searchTerm, filterGoal));
  }

  /** With an empty search and the "all" filter every plan is shown. */
  lemma EmptySearchShowsAll(plans: seq<SavedPlan>)
    ensures FilteredPlans(plans, "", "all") == plans
  {
    forall i | 0 <= i < |plans|
      ensures PlanMatches(plans[i], "", "all")
    {
      IncludesEmpty(ToLower(plans[i].name));
    }
    FilterAll(plans, (p: SavedPlan) => PlanMatches(p, "", "all"));
  }

  /** `getGoalBadgeVariant` */
  function GoalBadgeVariant(goal: string): (r: string)
    ensures goal == "weight_loss" ==> r == "destructive"
    ensures goal == "muscle_gain" ==> r == "default"
    ensures goal == "maintain" ==> r == "secondary"
    ensures goal != "weight_loss" && goal != "muscle_gain" && goal != "maintain" ==> r == "outline"
  {
    match goal
    case "weight_loss" => "destructive"
    case "muscle_gain" => "default"
    case "maintain" => "secondary"
    case _ => "outline"
  }

  /** The history page: its plan list, the plan opened for viewing, the
      search and filter fields, and the store it mirrors the list to. */
  class HistoryPage {
    var savedPlans: seq<SavedPlan>
    var selectedPlan: Option<SavedPlan>
    var searchTerm: string
    var filterGoal: string
    const store: LocalStore

    constructor(store: LocalStore)
      ensures this.store == store && savedPlans == [] && selectedPlan == None
      ensures searchTerm == "" && filterGoal == "all"
    {
      this.store := store;
      savedPlans := [];
      selectedPlan := None;
      searchTerm := "";
      filterGoal := "all";
    }

    /** The plans the page lists for its current search and filter. */
    function Shown(): seq<SavedPlan>
      reads this
    {
      FilteredPlans(savedPlans, searchTerm, filterGoal)
    }

    /** `loadSavedPlans` */
    method LoadSavedPlans()
      modifies this
      ensures savedPlans == store.history
      ensures selectedPlan == old(selectedPlan) && searchTerm == old(searchTerm) && filterGoal == old(filterGoal)
    {
      savedPlans := store.history;
    }

    /** `handleDelete(id)`: the plans with that id go, the rest stay in
        order and are stored; the opened plan is closed exactly when it has
        that id. */
    method Delete(id: string)
      modifies this, store
      ensures savedPlans == Filter(old(savedPlans), (p: SavedPlan) => p.id != id)
      ensures store.history == savedPlans
      ensures old(selectedPlan).Some? && old(selectedPlan).value.id == id ==> selectedPlan == None
      ensures !(old(selectedPlan).Some? && old(selectedPlan).value.id == id) ==> selectedPlan == old(selectedPlan)
      ensures searchTerm == old(searchTerm) && filterGoal == old(filterGoal)
      ensures store.goals == old(store.goals) && store.favorites == old(store.favorites)
    {
      var updatedPlans := Filter(savedPlans, (p: SavedPlan) => p.id != id);
      savedPlans := updatedPlans;
      store.history := updatedPlans;
      if selectedPlan.Some? && selectedPlan.value.id == id {
        selectedPlan := None;
      }
    }
  }

  /** Deleting keeps exactly the plans with another id. */
  lemma DeleteSpec(plans: seq<SavedPlan>, id: string, p: SavedPlan)
    ensures p in Filter(plans, (q: SavedPlan) => q.id != id) <==> p in plans && p.id != id
  {
    FilterMembers(plans, (q: SavedPlan) => q.id != id, p);
  }
}

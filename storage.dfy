/** The records the planner pages keep in the browser's local storage and
    the store itself. JSON encoding is taken to give back exactly what was
    stored, so each storage key is a sequence field. */
module Storage {
  import opened Wrappers
  import opened MealTypes

  /** A user goal (components/planner/Goals.tsx). */
  datatype Goal = Goal(
    id: string,
    title: string,
    description: string,
    goalType: string,
    targetValue: int,
    currentValue: int,
    unit: string,
    deadline: string,
    progress: int,
    createdAt: string,
    completed: bool)

  /** A favorite meal (components/planner/Favorites.tsx): a meal plus its id,
      dates and a usage counter. The description is `None` when the stored
      record has no string description. */
  datatype Favorite = Favorite(
    name: string,
    description: Option<string>,
    nutrients: Nutrients,
    mealTime: string,
    id: string,
    addedDate: string,
    lastUsed: string,
    usageCount: int)

  /** The three storage keys: `mealPlanHistory`, `userGoals` and
      `favoriteMeals`. */
  class LocalStore {
    var history: seq<SavedPlan>
    var goals: seq<Goal>
    var favorites: seq<Favorite>

    /** A browser with nothing stored: every key reads as `[]`. */
    constructor()
      ensures history == [] && goals == [] && favorites == []
    {
      history := [];
      goals := [];
      favorites := [];
    }
  }
}

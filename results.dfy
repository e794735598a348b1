/** The results page (components/planner/Results.tsx): saving the shown
    plan to the history list and saving one of its meals to the favorites,
    at most once per meal name. */
module Results {
  import opened Wrappers
  import opened Text
  import opened Lists
  import opened MealTypes
  import opened Storage

  /** The history entry for a plan: the plan's fields plus an id, a time
      stamp, the input, and a name made of the goal and the date. */
  function HistoryEntry(plan: MealPlan, input: UserInput, id: string, createdAt: string, dateText: string): (e: SavedPlan)
    ensures e.meals == plan.meals && e.totalNutrients == plan.totalNutrients && e.tip == plan.tip
    ensures e.id == id && e.createdAt == createdAt && e.userInput == input
    ensures e.name == FormatGoalName(input.goal) + " Plan - " + dateText
  {
    SavedPlan(plan.meals, plan.totalNutrients, plan.tip, id, createdAt, input,
      FormatGoalName(input.goal) + " Plan - " + dateText)
  }

  /** A meal as a new favorite: the meal's fields, an id made of the clock
      reading and the name, today's date twice, and one use. */
  function NewFavorite(meal: Meal, now: string, today: string): (f: Favorite)
    ensures f.name == meal.name && f.description == Some(meal.description)
    ensures f.nutrients == meal.nutrients && f.mealTime == meal.mealTime
    ensures f.id == "fav-" + now + "-" + meal.name
    ensures f.addedDate == today && f.lastUsed == today && f.usageCount == 1
  {
    Favorite(meal.name, Some(meal.description), meal.nutrients, meal.mealTime,
      "fav-" + now + "-" + meal.name, today, today, 1)
  }

  /** Some stored favorite already has this name. */
  predicate HasName(favorites: seq<Favorite>, name: string) {
    exists i :: 0 <= i < |favorites| && favorites[i].name == name
  }

  /** Number of stored favorites with this name. */
  function NamedCount(favorites: seq<Favorite>, name: string): nat {
    |Filter(favorites, (f: Favorite) => f.name == name)|
  }

  lemma {:induction false} NamedCountZero(favorites: seq<Favorite>, name: string)
    ensures NamedCount(favorites, name) == 0 <==> !HasName(favorites, name)
  {
    if favorites != [] {
      NamedCountZero(favorites[1..], name);
      if favorites[0].name != name {
        forall i | 1 <= i < |favorites| && favorites[i].name == name
          ensures HasName(favorites[1..], name)
        {
          assert favorites[1..][i - 1] == favorites[i];
        }
      }
    }
  }

  /** The stored favorites after saving `meal`: the new favorite in front
      when no favorite has its name yet, otherwise the list as it was. */
  function SavedFavorites(favorites: seq<Favorite>, meal: Meal, now: string, today: string): (r: seq<Favorite>)
    ensures HasName(favorites, meal.name) ==> r == favorites
    ensures !HasName(favorites, meal.name) ==> r == [NewFavorite(meal, now, today)] + favorites
  {
    if HasName(favorites, meal.name) then favorites else [NewFavorite(meal, now, today)] + favorites
  }

  /** After a save exactly one favorite has the meal's name when none had
      it before, and the count is unchanged otherwise. */
  lemma SaveLeavesOneByName(favorites: seq<Favorite>, meal: Meal, now: string, today: string)
    ensures !HasName(favorites, meal.name) ==> NamedCount(SavedFavorites(favorites, meal, now, today), meal.name) == 1
    ensures HasName(favorites, meal.name) ==>
      NamedCount(SavedFavorites(favorites, meal, now, today), meal.name) == NamedCount(favorites, meal.name)
  {
    NamedCountZero(favorites, meal.name);
    var f := NewFavorite(meal, now, today);
    FilterAppend([f], favorites, (g: Favorite) => g.name == meal.name);
  }

  /** Saving the same meal again, at any time, changes nothing. */
  lemma SaveIdempotent(favorites: seq<Favorite>, meal: Meal, now: string, today: string, later: string, laterDay: string)
    ensures SavedFavorites(SavedFavorites(favorites, meal, now, today), meal, later, laterDay)
      == SavedFavorites(favorites, meal, now, today)
  {
    var r := SavedFavorites(favorites, meal, now, today);
    if !HasName(favorites, meal.name) {
      assert r[0].name == meal.name;
    }
  }

  /** The results page: the plan shown, the form input it came from (if
      any), the "saved" flag, the per-meal "favorited" flags and the store. */
  class ResultsPage {
    const mealPlan: MealPlan
    const userInput: Option<UserInput>
    var saved: bool
    var favoriteStatus: map<string, bool>
    const store: LocalStore

    constructor(mealPlan: MealPlan, userInput: Option<UserInput>, store: LocalStore)
      ensures this.mealPlan == mealPlan && this.userInput == userInput && this.store == store
      ensures !saved && favoriteStatus == map[]
    {
      this.mealPlan := mealPlan;
      this.userInput := userInput;
      this.store := store;
      saved := false;
      favoriteStatus := map[];
    }

    /** `handleSaveToHistory`: without form input nothing happens; otherwise
        the plan goes in front of the stored history and the page shows it
        as saved. */
    method SaveToHistory(id: string, createdAt: string, dateText: string)
      modifies this, store
      ensures userInput.None? ==> saved == old(saved) && store.history == old(store.history)
      ensures userInput.Some? ==> saved
      ensures userInput.Some? ==>
        store.history == [HistoryEntry(mealPlan, userInput.value, id, createdAt, dateText)] + old(store.history)
      ensures favoriteStatus == old(favoriteStatus)
      ensures store.goals == old(store.goals) && store.favorites == old(store.favorites)
    {
      if userInput.None? {
        return;
      }
      var savedPlan := HistoryEntry(mealPlan, userInput.value, id, createdAt, dateText);
      store.history := [savedPlan] + store.history;
      saved := true;
    }

    /** `handleSaveToFavorites(meal)`: the meal is stored as a favorite
        unless one with its name exists; either way it is flagged as
        favorited. */
    method SaveToFavorites(meal: Meal, now: string, today: string)
      modifies this, store
      ensures store.favorites == SavedFavorites(old(store.favorites), meal, now, today)
      ensures favoriteStatus == old(favoriteStatus)[meal.name := true]
      ensures saved == old(saved)
      ensures store.history == old(store.history) && store.goals == old(store.goals)
    {
      var favoriteMeal := NewFavorite(meal, now, today);
      var existing := store.favorites;
      var alreadyExists := HasName(existing, meal.name);
      if !alreadyExists {
        store.favorites := [favoriteMeal] + existing;
      }
      favoriteStatus := favoriteStatus[meal.name := true];
    }
  }
}

/** The favorites page (components/planner/Favorites.tsx): the stored
    favorite meals, the search box and meal-time filter over them, removing
    a favorite, counting a use, the per-slot counts and the slot colours. */
module Favorites {
  import opened Wrappers
  import opened Text
  import opened Lists
  import opened Storage

  /** The search term occurs, ignoring case, in the name or in the
      description when the description is a string; and the meal-time
      filter is "all" or the favorite's slot. */
  predicate FavoriteMatches(f: Favorite, searchTerm: string, filterMealTime: string) {
    (IncludesIgnoringCase(f.name, searchTerm)
     || (f.description.Some? && IncludesIgnoringCase(f.description.value, searchTerm)))
    && (filterMealTime == "all" || f.mealTime == filterMealTime)
  }

  /** `filteredFavorites` */
  function FilteredFavorites(favorites: seq<Favorite>, searchTerm: string, filterMealTime: string): seq<Favorite> {
    Filter(favorites, (f: Favorite) => FavoriteMatches(f, searchTerm, filterMealTime))
  }

  /** A favorite is shown exactly when it matches; shown favorites keep
      their order. */
  lemma FilteredFavoritesSpec(a: seq<Favorite>, b: seq<Favorite>, searchTerm: string, filterMealTime: string, f: Favorite)
    ensures f in FilteredFavorites(a, searchTerm, filterMealTime) <==> f in a && FavoriteMatches(f, searchTerm, filterMealTime)
    ensures FilteredFavorites(a + b, searchTerm, filterMealTime)
      == FilteredFavorites(a, searchTerm, filterMealTime) + FilteredFavorites(b, searchTerm, filterMealTime)
  {
    FilterMembers(a, (f: Favorite) => FavoriteMatches(f, searchTerm, filterMealTime), f);
    FilterAppend(a, b, (f: Favorite) => FavoriteMatches(f, searchTerm, filterMealTime));
  }

  /** With an empty search and the "all" filter every favorite is shown,
      whatever its description. */
  lemma EmptySearchShowsAllFavorites(favorites: seq<Favorite>)
    ensures FilteredFavorites(favorites, "", "all") == favorites
  {
    forall i | 0 <= i < |favorites|
      ensures FavoriteMatches(favorites[i], "", "all")
    {
      IncludesEmpty(ToLower(favorites[i].name));
    }
    FilterAll(favorites, (f: Favorite) => FavoriteMatches(f, "", "all"));
  }

  /** The favorites after one is used: the length and every other
      favorite are unchanged, and each favorite with that id counts one more
      use and records the day, its other fields unchanged. */
  function Used(favorites: seq<Favorite>, id: string, today: string): (r: seq<Favorite>)
    ensures |r| == |favorites|
    ensures forall i :: 0 <= i < |favorites| && favorites[i].id != id ==> r[i] == favorites[i]
    ensures forall i :: 0 <= i < |favorites| && favorites[i].id == id ==>
      r[i] == favorites[i].(usageCount := favorites[i].usageCount + 1, lastUsed := today)
  {
    Map(favorites, (f: Favorite) =>
      if f.id == id then f.(usageCount := f.usageCount + 1, lastUsed := today) else f)
  }

  /** Number of favorites in one meal-time slot (a stats card). */
  function MealTimeCount(favorites: seq<Favorite>, mealTime: string): nat {
    |Filter(favorites, (f: Favorite) => f.mealTime == mealTime)|
  }

  /** The breakfast, lunch and dinner cards together never count more than
      the total card. */
  lemma {:induction false} CardCountsBounded(favorites: seq<Favorite>)
    ensures MealTimeCount(favorites, "breakfast") + MealTimeCount(favorites, "lunch")
      + MealTimeCount(favorites, "dinner") <= |favorites|
  {
    if favorites != [] {
      CardCountsBounded(favorites[1..]);
    }
  }

  /** `getMealTimeColor` */
  function MealTimeColor(mealTime: string): (r: string)
    ensures mealTime == "breakfast" ==> r == "bg-orange-100 text-orange-800 border-orange-200"
    ensures mealTime == "lunch" ==> r == "bg-yellow-100 text-yellow-800 border-yellow-200"
    ensures mealTime == "dinner" ==> r == "bg-blue-100 text-blue-800 border-blue-200"
    ensures mealTime == "snack" ==> r == "bg-green-100 text-green-800 border-green-200"
    ensures mealTime != "breakfast" && mealTime != "lunch" && mealTime != "dinner" && mealTime != "snack"
      ==> r == "bg-gray-100 text-gray-800 border-gray-200"
  {
    match mealTime
    case "breakfast" => "bg-orange-100 text-orange-800 border-orange-200"
    case "lunch" => "bg-yellow-100 text-yellow-800 border-yellow-200"
    case "dinner" => "bg-blue-100 text-blue-800 border-blue-200"
    case "snack" => "bg-green-100 text-green-800 border-green-200"
    case _ => "bg-gray-100 text-gray-800 border-gray-200"
  }

  /** The favorites page: its list, the search and filter fields, and the
      store it mirrors the list to. */
  class FavoritesPage {
    var favorites: seq<Favorite>
    var searchTerm: string
    var filterMealTime: string
    const store: LocalStore

    constructor(store: LocalStore)
      ensures this.store == store && favorites == [] && searchTerm == "" && filterMealTime == "all"
    {
      this.store := store;
      favorites := [];
      searchTerm := "";
      filterMealTime := "all";
    }

    /** The favorites the page lists for its current search and filter. */
    function Shown(): seq<Favorite>
      reads this
    {
      FilteredFavorites(favorites, searchTerm, filterMealTime)
    }

    /** `loadFavorites` */
    method LoadFavorites()
      modifies this
      ensures favorites == store.favorites
      ensures searchTerm == old(searchTerm) && filterMealTime == old(filterMealTime)
    {
      favorites := store.favorites;
    }

    /** `handleRemoveFavorite(id)`: the favorites with that id go, the rest
        stay in order and are stored. */
    method RemoveFavorite(id: string)
      modifies this, store
      ensures favorites == Filter(old(favorites), (f: Favorite) => f.id != id)
      ensures store.favorites == favorites
      ensures searchTerm == old(searchTerm) && filterMealTime == old(filterMealTime)
      ensures store.history == old(store.history) && store.goals == old(store.goals)
    {
      var updated := Filter(favorites, (f: Favorite) => f.id != id);
      favorites := updated;
      store.favorites := updated;
    }

    /** `handleAddToCurrentPlan`: the favorite with that id counts one more
        use on `today`; the list is stored. */
    method AddToCurrentPlan(id: string, today: string)
      modifies this, store
      ensures favorites == Used(old(favorites), id, today)
      ensures store.favorites == favorites
      ensures searchTerm == old(searchTerm) && filterMealTime == old(filterMealTime)
      ensures store.history == old(store.history) && store.goals == old(store.goals)
    {
      var updated := Used(favorites, id, today);
      favorites := updated;
      store.favorites := updated;
    }
  }

  /** Removing keeps exactly the favorites with another id. */
  lemma RemoveSpec(favorites: seq<Favorite>, id: string, f: Favorite)
    ensures f in Filter(favorites, (g: Favorite) => g.id != id) <==> f in favorites && f.id != id
  {
    FilterMembers(favorites, (g: Favorite) => g.id != id, f);
  }
}

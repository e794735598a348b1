/** The food-database suggestion service (lib/edamam.ts): string and table
    helpers, the request counter that gates searching, and the loop that
    turns search hits into meal suggestions. The HTTP exchange is a
    parameter `network` that maps a query to the reply it gets. */
module Edamam {
  import opened Text
  import opened Lists
  import opened MealTypes

  /** The first hit of a search: its label (`name`) and its nutrients, already
      rounded to whole numbers. */
  datatype Food = Food(name: string, calories: int, protein: int, carbs: int, fat: int)

  /** What a `fetch` of one query yields: no reply at all (the request
      rejected), or a status code with the parsed hits. */
  datatype Reply = NoReply | Reply(status: int, hints: seq<Food>)

  /** The hits `searchFoods` returns for a reply once a request was sent:
      nothing on a rate-limit answer or any other non-2xx status. */
  function SearchResult(reply: Reply): (r: seq<Food>)
    ensures reply.NoReply? ==> r == []
    ensures reply.Reply? && reply.status == 429 ==> r == []
    ensures reply.Reply? && !(200 <= reply.status <= 299) ==> r == []
    ensures reply.Reply? && 200 <= reply.status <= 299 ==> r == reply.hints
  {
    match reply
    case NoReply => []
    case Reply(status, hints) =>
      if status == 429 then []
      else if !(200 <= status <= 299) then []
      else hints
  }

  /** Whether a request counts towards `requestCount`: the credentials are
      configured and `fetch` produced a reply, whatever its status. */
  predicate Sent(configured: bool, reply: Reply) {
    configured && reply.Reply?
  }

  /** `getFallbackMeals`: one canned meal for each known slot, `[]` for any
      other slot name. */
  function FallbackMeals(pref: string, t: string): (r: seq<Meal>)
    ensures IsMealTime(t) ==> |r| == 1 && r[0].mealTime == t && NonNegative(r[0].nutrients)
    ensures !IsMealTime(t) ==> r == []
  {
    if t == "breakfast" then
      [Meal("Oatmeal Bowl", "Healthy " + pref + " oatmeal with fruits", Nutrients(350, 12, 60, 6), "breakfast")]
    else if t == "lunch" then
      [Meal("Power Salad", "Fresh " + pref + " salad with mixed greens", Nutrients(380, 15, 35, 10), "lunch")]
    else if t == "dinner" then
      [Meal("Balanced Dinner", "Nutritious " + pref + " dinner with vegetables", Nutrients(420, 25, 40, 12), "dinner")]
    else if t == "snack" then
      [Meal("Healthy Snack", "Light " + pref + " snack", Nutrients(150, 8, 20, 5), "snack")]
    else []
  }

  /** Each canned meal names the dietary preference in its description. */
  lemma FallbackMentionsPreference(pref: string, t: string)
    requires IsMealTime(t)
    ensures Includes(FallbackMeals(pref, t)[0].description, pref)
  {
    if t == "breakfast" {
      IncludesMiddle("Healthy ", pref, " oatmeal with fruits");
    } else if t == "lunch" {
      IncludesMiddle("Fresh ", pref, " salad with mixed greens");
    } else if t == "dinner" {
      IncludesMiddle("Nutritious ", pref, " dinner with vegetables");
    } else {
      IncludesMiddle("Light ", pref, " snack");
    }
  }

  /** `getMealTimeModifier` */
  function MealTimeModifier(t: string): (r: string)
    ensures IsMealTime(t) ==> r == t
    ensures !IsMealTime(t) ==> r == ""
  {
    if t == "breakfast" then "breakfast"
    else if t == "lunch" then "lunch"
    else if t == "dinner" then "dinner"
    else if t == "snack" then "snack"
    else ""
  }

  /** `getFallbackQueries`: one fixed query per known slot, none otherwise.
      The dietary preference is accepted and not used. */
  function FallbackQueries(pref: string, t: string): (r: seq<string>)
    ensures |r| <= 1
    ensures |r| == 1 <==> IsMealTime(t)
  {
    if t == "breakfast" then ["oatmeal"]
    else if t == "lunch" then ["salad"]
    else if t == "dinner" then ["chicken"]
    else if t == "snack" then ["apple"]
    else []
  }

  /** The text `${fallbackQueries[0]}` carries when there is no fallback
      query: reading index 0 of an empty array gives `undefined`. */
  const Undefined := "undefined"

  /** `getBaseQueries`: the trimmed first ingredient followed by the slot
      modifier when ingredients are given, else the slot's fallback query. */
  function BaseQueries(pref: string, t: string, ingredients: string): (r: seq<string>)
    ensures |r| == 1
  {
    if ingredients != "" then [Trim(FirstField(ingredients, ',')) + " " + MealTimeModifier(t)]
    else
      var fallback := FallbackQueries(pref, t);
      [if fallback != [] then fallback[0] else Undefined]
  }

  /** With ingredients, the single query is the first comma field, trimmed,
      a space and the slot; without, it is the slot's fixed query. */
  lemma BaseQueriesValue(pref: string, t: string, ingredients: string)
    ensures ingredients != "" && IsMealTime(t) ==>
      BaseQueries(pref, t, ingredients) == [Trim(FirstField(ingredients, ',')) + " " + t]
    ensures ingredients != "" && !IsMealTime(t) ==>
      BaseQueries(pref, t, ingredients) == [Trim(FirstField(ingredients, ',')) + " "]
    ensures ingredients == "" ==>
      BaseQueries(pref, t, ingredients) == [
        if t == "breakfast" then "oatmeal" else if t == "lunch" then "salad"
        else if t == "dinner" then "chicken" else if t == "snack" then "apple" else Undefined]
  {
    if ingredients != "" && !IsMealTime(t) {
      assert MealTimeModifier(t) == "";
      assert Trim(FirstField(ingredients, ',')) + " " + "" == Trim(FirstField(ingredients, ',')) + " ";
    }
  }

  /** `formatMealName`: the food label, a space, and the slot name with its
      first character upper-cased. */
  function FormatMealName(food: string, t: string): (r: string)
    ensures |r| == |food| + 1 + |t|
    ensures r[..|food|] == food && r[|food|] == ' '
    ensures t != "" ==> r[|food| + 1] == UpperChar(t[0]) && r[|food| + 2..] == t[1..]
  {
    food + " " + Capitalize(t)
  }

  /** The part of every generated description before the ingredient clause. */
  function BaseDescription(food: string, pref: string): string {
    "A delicious " + pref + " " + food
  }

  /** `generateMealDescription` */
  function MealDescription(food: string, pref: string, ingredients: string): (r: string)
    ensures |r| > |BaseDescription(food, pref)| && r[..|BaseDescription(food, pref)|] == BaseDescription(food, pref)
    ensures r[|r| - 1] == '.'
  {
    var base := BaseDescription(food, pref);
    if ingredients != "" then base + " featuring fresh " + Trim(FirstField(ingredients, ',')) + "."
    else base + ". Perfectly balanced for your nutritional needs."
  }

  /** With ingredients the description names the trimmed first ingredient;
      without, it ends with the fixed balanced-needs sentence. */
  lemma MealDescriptionClause(food: string, pref: string, ingredients: string)
    ensures var r := MealDescription(food, pref, ingredients);
      var base := BaseDescription(food, pref);
      (ingredients != "" ==> Includes(r, Trim(FirstField(ingredients, ','))))
      && (ingredients == "" ==> r[|base|..] == ". Perfectly balanced for your nutritional needs.")
  {
    var base := BaseDescription(food, pref);
    if ingredients != "" {
      IncludesMiddle(base + " featuring fresh ", Trim(FirstField(ingredients, ',')), ".");
    }
  }

  /** What one search hit becomes: named after the food and the slot, with
      the generated description and the food's nutrients. */
  function Suggestion(food: Food, pref: string, t: string, ingredients: string): (m: Meal)
    ensures m.mealTime == t
    ensures m.nutrients == Nutrients(food.calories, food.protein, food.carbs, food.fat)
  {
    Meal(FormatMealName(food.name, t), MealDescription(food.name, pref, ingredients),
      Nutrients(food.calories, food.protein, food.carbs, food.fat), t)
  }

  /** `Suggestion` for one request's preference, slot and ingredients. */
  function ToSuggestion(pref: string, t: string, ingredients: string): Food -> Meal {
    (food: Food) => Suggestion(food, pref, t, ingredients)
  }

  /** The first hits gathered so far and the number of requests sent. */
  datatype Outcome = Outcome(hits: seq<Food>, sent: nat)

  /** One pass of the `generateMealSuggestions` loop: the query is searched,
      the request counted if one was sent, and the first hit, if any, kept. */
  function Step(query: string, configured: bool, network: string -> Reply, hits: seq<Food>, sent: nat): (o: Outcome)
    ensures |hits| <= |o.hits| <= |hits| + 1 && o.hits[..|hits|] == hits
    ensures sent <= o.sent <= sent + 1
    ensures !configured ==> o == Outcome(hits, sent)
  {
    var reply := network(query);
    var foods := if configured then SearchResult(reply) else [];
    Outcome(if foods != [] then hits + [foods[0]] else hits, sent + if Sent(configured, reply) then 1 else 0)
  }

  /** Reference definition of the `generateMealSuggestions` loop from query
      `i` on: one step per query, stopping once two hits are held. */
  function Collect(queries: seq<string>, i: nat, configured: bool, network: string -> Reply,
                   hits: seq<Food>, sent: nat): Outcome
    decreases |queries| - i
  {
    if i >= |queries| then Outcome(hits, sent)
    else
      var o := Step(queries[i], configured, network, hits, sent);
      if |o.hits| >= 2 then o else Collect(queries, i + 1, configured, network, o.hits, o.sent)
  }

  /** From query `i` the loop keeps at most one hit per remaining query,
      keeps what it held, and never holds more than two hits (starting from
      fewer). */
  lemma {:induction false} CollectHits(queries: seq<string>, i: nat, configured: bool, network: string -> Reply,
                                       hits: seq<Food>, sent: nat)
    requires i <= |queries| && |hits| < 2
    ensures var o := Collect(queries, i, configured, network, hits, sent);
      |hits| <= |o.hits| <= 2 && |o.hits| <= |hits| + (|queries| - i) && o.hits[..|hits|] == hits
    decreases |queries| - i
  {
    if i < |queries| {
      var s := Step(queries[i], configured, network, hits, sent);
      if |s.hits| < 2 {
        CollectHits(queries, i + 1, configured, network, s.hits, s.sent);
        var o := Collect(queries, i + 1, configured, network, s.hits, s.sent);
        assert o.hits[..|hits|] == o.hits[..|s.hits|][..|hits|];
      }
    }
  }

  /** The loop sends at most one request per remaining query, and without
      credentials it sends none and finds nothing. */
  lemma {:induction false} CollectSent(queries: seq<string>, i: nat, configured: bool, network: string -> Reply,
                                       hits: seq<Food>, sent: nat)
    requires i <= |queries| && |hits| < 2
    ensures var o := Collect(queries, i, configured, network, hits, sent);
      sent <= o.sent <= sent + (|queries| - i) && (!configured ==> o.hits == hits && o.sent == sent)
    decreases |queries| - i
  {
    if i < |queries| {
      var s := Step(queries[i], configured, network, hits, sent);
      if |s.hits| < 2 {
        CollectSent(queries, i + 1, configured, network, s.hits, s.sent);
      }
    }
  }

  /** The service: three credentials read once from the environment, and the
      count of requests sent so far. */
  class EdamamService {
    const appId: string
    const appKey: string
    const baseUrl: string
    var requestCount: int

    constructor(appId: string, appKey: string, baseUrl: string)
      ensures this.appId == appId && this.appKey == appKey && this.baseUrl == baseUrl
      ensures requestCount == 0
    {
      this.appId := appId;
      this.appKey := appKey;
      this.baseUrl := baseUrl;
      requestCount := 0;
    }

    /** All three credentials are set: `searchFoods` only then sends. */
    predicate Configured() {
      appId != "" && appKey != "" && baseUrl != ""
    }

    /** The guard of `generateMealSuggestions`: id and key set (the base URL
        is not checked there) and at most 50 requests sent. */
    predicate GateOpen()
      reads this
    {
      appId != "" && appKey != "" && requestCount <= 50
    }

    /** `searchFoods(query)`: nothing and no request without credentials;
        otherwise the request goes out, is counted once it has a reply, and
        the hits of a successful reply are returned. */
    method SearchFoods(query: string, network: string -> Reply) returns (foods: seq<Food>)
      modifies this
      ensures foods == if Configured() then SearchResult(network(query)) else []
      ensures requestCount == old(requestCount) + if Sent(Configured(), network(query)) then 1 else 0
    {
      if !Configured() {
        return [];
      }
      var reply := network(query);
      match reply
      case NoReply =>
        foods := [];
      case Reply(status, hints) =>
        requestCount := requestCount + 1;
        if status == 429 {
          foods := [];
        } else if !(200 <= status <= 299) {
          foods := [];
        } else {
          foods := hints;
        }
    }

    /** `generateMealSuggestions`: the canned meals when the gate is shut;
        otherwise the loop over the base queries, falling back to the canned
        meals when it found nothing. */
    method GenerateMealSuggestions(pref: string, t: string, ingredients: string, network: string -> Reply)
      returns (r: seq<Meal>)
      modifies this
      ensures !old(GateOpen()) ==> r == FallbackMeals(pref, t) && requestCount == old(requestCount)
      ensures old(GateOpen()) ==>
        var o := Collect(BaseQueries(pref, t, ingredients), 0, Configured(), network, [], 0);
        r == (if o.hits == [] then FallbackMeals(pref, t) else Map(o.hits, ToSuggestion(pref, t, ingredients)))
        && requestCount == old(requestCount) + o.sent
      ensures |r| <= 2
      ensures IsMealTime(t) ==> r != []
      ensures forall i :: 0 <= i < |r| ==> r[i].mealTime == t
      ensures old(requestCount) <= requestCount <= old(requestCount) + 1
    {
      if appId == "" || appKey == "" || requestCount > 50 {
        return FallbackMeals(pref, t);
      }
      var queries := BaseQueries(pref, t, ingredients);
      CollectHits(queries, 0, Configured(), network, [], 0);
      CollectSent(queries, 0, Configured(), network, [], 0);
      var suggestions := SearchEach(queries, network, ToSuggestion(pref, t, ingredients));
      if |suggestions| == 0 {
        return FallbackMeals(pref, t);
      }
      return suggestions;
    }

    /** The loop of `generateMealSuggestions`: each query is searched in
        turn, `make` turns its first hit into a suggestion, and the loop
        stops as soon as two suggestions are held. */
    method SearchEach(queries: seq<string>, network: string -> Reply, make: Food -> Meal)
      returns (suggestions: seq<Meal>)
      modifies this
      ensures var o := Collect(queries, 0, Configured(), network, [], 0);
        suggestions == Map(o.hits, make) && requestCount == old(requestCount) + o.sent
    {
      ghost var target := Collect(queries, 0, Configured(), network, [], 0);
      ghost var hits: seq<Food> := [];
      ghost var sent: nat := 0;
      suggestions := [];
      var i := 0;
      while i < |queries|
        invariant 0 <= i <= |queries|
        invariant |hits| < 2
        invariant suggestions == Map(hits, make)
        invariant requestCount == old(requestCount) + sent
        invariant target == Collect(queries, i, Configured(), network, hits, sent)
      {
        var foods := SearchFoods(queries[i], network);
        if |foods| > 0 {
          MapAppend(hits, [foods[0]], make);
          hits := hits + [foods[0]];
          suggestions := suggestions + [make(foods[0])];
        }
        sent := requestCount - old(requestCount);
        if |suggestions| >= 2 {
          return;
        }
        i := i + 1;
      }
    }
  }
}

# pure-plate meal planner — a Dafny model

This project models the core of the pure-plate meal planner, a Next.js app.
The planner builds a day of meals from a food-search service, falls back to
fixed meal tables when the service gives nothing, offers nutrition tips, and
keeps a history of plans, user goals and favourite meals in the browser's
local storage. The model covers:

- **The meal-generation endpoint** (`GenerateMeal`, `app/api/generate-meal/route.ts`):
  - choose the meal-time slots;
  - take the first suggestion of each slot;
  - top the plan up from the per-slot table;
  - total the nutrients and pick a tip;
  - the fallback plan of the error path.
- **The food-search service** (`Edamam`, `lib/edamam.ts`):
  - a class holding the credentials and the request counter;
  - `searchFoods` with its status handling;
  - the query, name and description helpers;
  - the canned meals;
  - the `generateMealSuggestions` loop with its stop at two suggestions and its gate at 50 requests.
- **The meal catalog** (`MealCatalog`, `data/meals.ts`):
  - the nine templates and their description resolvers;
  - `getMealsByTime`;
  - `getAvailableMealTimes`.
- **Tips** (`Gemini`, `lib/gemini.ts`):
  - the goal × preference fallback table;
  - the per-context tip lists and prompts;
  - the choice between the model's answer and the fallback.
- **The insights page** (`Insights`, `app/insights/page.tsx`):
  - every statistic of `loadInsightData`;
  - the achievement level;
  - the motivational message.
- **The planner pages** (`Goals`, `History`, `Favorites`, `Results`): each is a class whose fields are the page's state. Each handler updates those fields and the shared `Storage.LocalStore`.
- **Shared helpers**: `Text` (split, trim, case, number formatting), `Lists` (filter, map, first-occurrence dedup), `Tallies` (JavaScript object counters with key order), `Numbers` (`Math.round` of a quotient), `MealTypes` (the shared records and the nutrient fold).

Outside inputs become parameters:

- The food service's network is a function `network: string -> Reply` from query to reply. `NoReply` stands for a failed `fetch`.
- The route's suggestion source is a function `suggest: string -> seq<Meal>` from slot to suggestions.
- The language model's answer is an `Option<string>`.
- `Math.random()` picks become an index parameter.
- `Date.now()` and dates become string parameters.
- Whether a user is signed in becomes a boolean parameter.

JavaScript truthiness of a string is `s != ""`. An absent `ingredients` is `""`.

## Model

| member | source | states |
|---|---|---|
| GenerateMeal.MealTimes | app/api/generate-meal/route.ts:70-73 | The slots are breakfast, lunch, dinner, snack in that order, cut where `slice(0, min(n, 4))` stops: `min(n, 4)` slots for `n >= 0`, and all but the last `-n` for negative `n`. |
| GenerateMeal.MealTimesMonotone | app/api/generate-meal/route.ts:70-73 | For `0 <= n <= m` the slots for `n` are a prefix of the slots for `m`. |
| GenerateMeal.EnhancedMeal | app/api/generate-meal/route.ts:76-97 | The table meal of a slot is in that slot, has non-negative nutrients, and its description contains the dietary preference. |
| GenerateMeal.EnhancedFallbackMeals | app/api/generate-meal/route.ts:99-102 | Gives one table meal per slot of `times.slice(0, count)`, in slot order. Negative counts follow JavaScript's slice. |
| GenerateMeal.FirstSuggestionsFromSlots | app/api/generate-meal/route.ts:28-38 | Every gathered meal is the first suggestion of some slot that had suggestions. |
| GenerateMeal.FirstSuggestionsAll | app/api/generate-meal/route.ts:28-38 | When every slot has a suggestion, exactly one meal per slot is gathered, in slot order. |
| GenerateMeal.FirstSuggestionsNone | app/api/generate-meal/route.ts:28-38 | When no slot has a suggestion, nothing is gathered. |
| GenerateMeal.GatherFirstSuggestions | app/api/generate-meal/route.ts:25-38 | The collection loop gathers exactly the first suggestion of each slot that has any, in slot order. |
| GenerateMeal.PlanMealsCount | app/api/generate-meal/route.ts:24-44 | For `mealsPerDay >= 0` the plan has exactly `min(mealsPerDay, 4)` meals. For a negative value nothing is topped up and the plan is what was gathered. |
| GenerateMeal.PlanMealsShape | app/api/generate-meal/route.ts:41-43 | The gathered meals come first, unchanged. The top-up meal at position `i` is the table meal of slot `i`, so top-up meals fill the trailing slots. |
| GenerateMeal.TopUpRepeatsSlot | app/api/generate-meal/route.ts:41-43 | Example: two meals a day, a lunch suggestion and no breakfast suggestion give two lunch meals and no breakfast. |
| GenerateMeal.Post | app/api/generate-meal/route.ts:18-60 | The response plan is the gathered-and-topped-up meals, their nutrient total, and one of the ten tips. It has `min(mealsPerDay, 4)` meals when `mealsPerDay >= 0`. |
| GenerateMeal.FallbackPlan | app/api/generate-meal/route.ts:105-124 | The fallback plan holds the table meals of the leading slots, plus a tip from the list. It has `min(n, 4)` meals for `n >= 0`. For negative `n` it has `4 + 2n` meals, down to none, because the slice is applied twice. |
| GenerateMeal.FallbackPlanTotal | app/api/generate-meal/route.ts:110-115 | The fallback total is the field-wise sum of the meals. It is non-negative, and zero when there are no meals. |
| GenerateMeal.NoSuggestionsGivesFallback | app/api/generate-meal/route.ts:41-44 | With no suggestions for any slot, the endpoint's meals equal the fallback plan's meals for `n >= 0`, and are empty for negative `n`. |
| MealTypes.TotalIsFieldwiseSum | app/api/generate-meal/route.ts:47-52 | The `reduce` total has, in each of calories, protein, carbs and fat, the sum of that field over the meals. |
| MealTypes.TotalAppend | app/api/generate-meal/route.ts:47-52 | The total of a concatenation of meal lists is the sum of their totals. |
| MealTypes.TotalNonNegative | app/api/generate-meal/route.ts:47-52 | Meals with non-negative nutrients have a non-negative total. |
| Edamam.SearchResult | lib/edamam.ts:68-81 | A reply yields its hits only with a 2xx status. A 429, any other status, or no reply yields nothing. |
| Edamam.EdamamService.constructor | lib/edamam.ts:32-38 | Stores the credentials and starts the request count at zero. |
| Edamam.EdamamService.SearchFoods | lib/edamam.ts:40-83 | Without all three credentials: no hits and no request counted. Otherwise: the reply's hits, and the request is counted exactly when a reply came back. |
| Edamam.FallbackMeals | lib/edamam.ts:127-164 | A known slot gets exactly one canned meal, in that slot, with non-negative nutrients. Any other slot gets none. |
| Edamam.FallbackMentionsPreference | lib/edamam.ts:127-164 | The canned meal's description contains the dietary preference. |
| Edamam.MealTimeModifier | lib/edamam.ts:186-194 | The modifier is the slot itself for the four slots, and empty otherwise. |
| Edamam.FallbackQueries | lib/edamam.ts:196-215 | There is a fallback query exactly for the four known slots, and never more than one. |
| Edamam.BaseQueries | lib/edamam.ts:166-184 | Exactly one query is built. |
| Edamam.BaseQueriesValue | lib/edamam.ts:166-184 | With ingredients, the query is the trimmed first comma field, a space, and the slot modifier. Without, it is the slot's fixed query (`"undefined"` for an unknown slot). |
| Edamam.FormatMealName | lib/edamam.ts:217-219 | The name is the food, a space, and the slot with its first letter upper-cased. |
| Edamam.MealDescription | lib/edamam.ts:221-230 | The description extends the base sentence and ends with a full stop. |
| Edamam.MealDescriptionClause | lib/edamam.ts:221-230 | With ingredients, the description contains the trimmed first ingredient. Without, it ends with the fixed "balanced" sentence. |
| Edamam.Suggestion | lib/edamam.ts:101-113 | A suggestion is in the requested slot and carries the hit's nutrients. |
| Edamam.Step | lib/edamam.ts:98-116 | One query adds at most one hit, the first search result, and at most one request. Without credentials it changes nothing. |
| Edamam.CollectHits | lib/edamam.ts:98-117 | The loop keeps the hits gathered so far, stops at two, and adds at most one hit per query. |
| Edamam.CollectSent | lib/edamam.ts:98-117 | The loop sends at most one request per query, and none without credentials. |
| Edamam.EdamamService.SearchEach | lib/edamam.ts:95-117 | The loop returns the suggestions built from the hits of the reference collection, and the count rises by the requests it sent. |
| Edamam.EdamamService.GenerateMealSuggestions | lib/edamam.ts:85-125 | When the gate is shut: the canned meals, and the count is unchanged. Otherwise: the suggestions from the hits, or the canned meals if there are none. Always at most two meals, never none for a known slot, all in the requested slot, and the count rises by at most one. |
| MealCatalog.MealsByTimeSpec | data/meals.ts:71-73 | A template is returned for `t` exactly when it is in the catalog with slot `t`. The filter distributes over concatenation. |
| MealCatalog.MealsByTimeBlocks | data/meals.ts:4-73 | `getMealsByTime(t)` is the catalog block of slot `t`, and empty for any other string. |
| MealCatalog.MealsByTimeValues | data/meals.ts:4-73 | There are two breakfast, two lunch, two dinner and three snack templates, each slot's run of the catalog in order. |
| MealCatalog.MealsByTimeUnknown | data/meals.ts:71-73 | Any string other than the four slots yields no templates. |
| MealCatalog.AvailableMealTimesValue | data/meals.ts:76-78 | The available meal times are exactly breakfast, lunch, dinner and snack, in that order. |
| MealCatalog.CatalogNutrientsNonNegative | data/meals.ts:4-68 | Every catalog template has non-negative nutrients. |
| MealCatalog.IngredientSplice | data/meals.ts:4-68 | Given ingredients, seven descriptions append their lead-in and the untrimmed first comma field to the ingredient-free text. Protein Power Breakfast and Quinoa Power Lunch ignore the ingredients. |
| MealCatalog.VeganUsesPlantOption | data/meals.ts:4-68 | For a vegan, every template's description names the recipe's plant-based option. |
| MealCatalog.VegetarianSubstitution | data/meals.ts:26-46 | A vegetarian and an omnivore get different descriptions exactly when the recipe has a vegetarian option. |
| MealCatalog.VegetarianDiffers | data/meals.ts:26-46 | A recipe with a vegetarian option gives a vegetarian a different description than an omnivore. |
| MealCatalog.VegetarianSame | data/meals.ts:4-68 | A recipe without a vegetarian option gives a vegetarian the same description as an omnivore. |
| Lists.DistinctMembers | data/meals.ts:77 | `Array.from(new Set(xs))` has exactly the elements of `xs`. |
| Lists.DistinctNoDuplicates | data/meals.ts:77 | `Array.from(new Set(xs))` has no repeated element. |
| Lists.DistinctOrderAt | data/meals.ts:77 | `Array.from(new Set(xs))` lists elements in the order of their first occurrence in `xs`. |
| Gemini.TipRow | lib/gemini.ts:155 | The table row is the goal's own row for the three known goals, and `maintain` otherwise. |
| Gemini.SmartFallbackTip | lib/gemini.ts:134-160 | The tip is the default sentence exactly when the preference is not vegan, vegetarian or pescatarian. |
| Gemini.UnknownGoalUsesMaintain | lib/gemini.ts:155 | An unknown goal gives the same tip as `maintain`. |
| Gemini.TipIgnoresMeals | lib/gemini.ts:137-153 | Only the weight-loss vegan tip depends on the number of meals per day. |
| Gemini.WeightLossVeganStatesMeals | lib/gemini.ts:139 | The weight-loss vegan tip contains the meals-per-day count in decimal, and different counts give different tips. |
| Gemini.AiTip | lib/gemini.ts:1-67 | Without an answer: the table fallback. With one: exactly the answer with its leading and trailing white space trimmed. |
| Gemini.TipList | lib/gemini.ts:162-223 | Every context has five tips: its own list for the eight known contexts, the general list otherwise. |
| Gemini.RandomFallbackTip | lib/gemini.ts:162-225 | The drawn tip comes from the context's list, or from the general list for an unknown context. |
| Gemini.EveryTipCanBeDrawn | lib/gemini.ts:222-224 | Every tip of a context's list is drawn by some random index. |
| Gemini.Prompt | lib/gemini.ts:73-92 | The prompt is the context's own for the eight known contexts, and the general one otherwise. |
| Gemini.RandomNutritionTip | lib/gemini.ts:69-132 | Without an answer: a tip from the context's fallback list. With one: exactly the answer with its leading and trailing white space trimmed. |
| Insights.Pick | app/insights/page.tsx:75-77 | The reducer keeps `b` unless `a`'s count is strictly larger. |
| Insights.MostCommonFoldSpec | app/insights/page.tsx:75-77 | On distinct keys the fold gives `weight_loss` for no keys, and otherwise a key with the largest count. Any key listed after it has a strictly smaller count. |
| Insights.MostCommonGoalIsAGoal | app/insights/page.tsx:69-77 | The most common goal is `weight_loss` with no plans, and otherwise one of the plans' goals. |
| Insights.MostCommonGoalIsMaximal | app/insights/page.tsx:69-77 | No goal occurs in more plans than the most common goal. |
| Insights.MostCommonGoalIsLatest | app/insights/page.tsx:69-77 | A goal first seen after the most common goal occurs strictly less often, so ties go to the goal whose first occurrence is latest. |
| Insights.CountBy | app/insights/page.tsx:70-84 | The counting loop builds the tally of the key over the plans, keys in first-occurrence order. |
| Insights.CountMealTimes | app/insights/page.tsx:86-92 | The nested loop builds the tally of the meal times of all meals of all plans. |
| Insights.MealTimesCount | app/insights/page.tsx:60 | The meal times list holds one entry per meal: its length is `totalMeals`. |
| Insights.TotalCaloriesBounds | app/insights/page.tsx:66 | If every plan's calories lie in `[lo, hi]`, the total lies in `[n·lo, n·hi]`. |
| Insights.AverageCalories | app/insights/page.tsx:67 | The average is 0 with no plans, and otherwise the total divided by the plan count, rounded half up. |
| Insights.AverageWithinBounds | app/insights/page.tsx:66-67 | The rounded average stays within the range of the plans' calories. |
| Insights.WeeklyProgressSteps | app/insights/page.tsx:95 | Weekly progress is `min(100, 25 · plans)`. |
| Insights.InsightsConsistent | app/insights/page.tsx:58-110 | Completed plus active goals give all goals. The preference counts add up to the plans and the meal-time counts to the meals. Streak is `min(7, plans)`. |
| Insights.AchievementLevel | app/insights/page.tsx:120-126 | With no data: Beginner. Otherwise Expert exactly when `plans + 2·completed >= 10`, and Beginner exactly when it is below 5. |
| Insights.AchievementMonotone | app/insights/page.tsx:120-126 | More plans and more completed goals never lower the level. |
| Insights.MessagesDistinct | app/insights/page.tsx:128-140 | The five motivational messages are pairwise different (all ten pairs). |
| Insights.MotivationalMessageOrder | app/insights/page.tsx:128-140 | Below three plans the message depends only on the plan count. Zero plans and one or two plans get different messages, and so do fewer than three and three or more. From three plans on it tells apart users with and without completed goals. No data gets its own message. |
| Insights.InsightsPage.constructor | app/insights/page.tsx:28-31 | The page starts with no data and loading. |
| Insights.InsightsPage.LoadInsightData | app/insights/page.tsx:45-114 | Signed out: only loading ends. Signed in: the data is exactly the reference statistics of the stored plans, goals and favourites. |
| Tallies.Bump | app/insights/page.tsx:73 | Bumping a key adds one to its count, or sets it to 1 if new. Other keys are unchanged. |
| Tallies.TallySnoc | app/insights/page.tsx:71-74 | Counting one more value is one bump. |
| Tallies.TallyKeys | app/insights/page.tsx:75 | The keys come in first-occurrence order without repeats, as `Object.keys` lists keys that are not integer-like. |
| Tallies.TallyCount | app/insights/page.tsx:70-74 | Each key's count is its number of occurrences, and absent values occur zero times. |
| Tallies.TallySum | app/insights/page.tsx:80-92 | The counts add up to the number of values counted. |
| Goals.Progress | components/planner/Goals.tsx:160-161 | Progress is 0 when either value is 0 (falsy), and never above 100. |
| Goals.ProgressBounds | components/planner/Goals.tsx:160-161 | Progress is 100 once the current value reaches a positive target, and within 0..100 for a non-negative current value. |
| Goals.NewGoal | components/planner/Goals.tsx:151-164 | The new goal has the form's title and target, the unit defaulting to `kg`, and the computed progress. It is not completed and is created today. |
| Goals.WithoutGoalSpec | components/planner/Goals.tsx:184 | A goal remains exactly when it was there and has another id. No goal with the id remains, and a missing id changes nothing. |
| Goals.Toggled | components/planner/Goals.tsx:190-192 | The goal with the id flips `completed` and gets progress 100. Others are unchanged. |
| Goals.ToggleGoal | components/planner/Goals.tsx:190-192 | Every goal is toggled in place, and the length is kept. |
| Goals.ToggleTwice | components/planner/Goals.tsx:189-195 | Completing twice restores `completed` but leaves progress at 100. |
| Goals.CompletedActivePartition | components/planner/Goals.tsx:211-212 | Completed and active goals split the list. |
| Goals.TargetWeight | components/planner/Goals.tsx:118-119 | The target is weight − 5 for weight loss, + 5 for muscle gain, and the weight otherwise. |
| Goals.AutoGoals | components/planner/Goals.tsx:105-146 | Creates two open goals at progress 0: the weight goal from the profile, and the 30-day nutrition goal. Their ids are `auto-<now>-1` and `auto-<now>-2`. The first is titled after the formatted goal name and described with the goal's first `_` replaced by a space, in kg. The second is titled and described with the meals per day, in days. Both share the 30-day deadline, the clock being read once. |
| Goals.AutoGoalTitleNamesMeals | components/planner/Goals.tsx:128-129 | The meals goal's title contains the meals-per-day count, and different counts give different titles. |
| Goals.WeightLossReadsAsWords | components/planner/Goals.tsx:116 | The goal `weight_loss` is described as "weight loss". |
| Goals.GoalsPage.constructor | components/planner/Goals.tsx:47-60 | The page starts with no goals, the empty form, and the form closed. |
| Goals.GoalsPage.LoadGoals | components/planner/Goals.tsx:67-82 | The page shows the stored goals. |
| Goals.GoalsPage.AddGoal | components/planner/Goals.tsx:148-181 | Without a title or target nothing changes. Otherwise the new goal goes in front, is stored, and the form is reset and closed. |
| Goals.GoalsPage.DeleteGoal | components/planner/Goals.tsx:183-187 | The goal is removed from the page and the store. Nothing else changes. |
| Goals.GoalsPage.CompleteGoal | components/planner/Goals.tsx:189-195 | The matching goal is toggled on the page and in the store. |
| Goals.GoalsPage.CreateGoalsFromHistory | components/planner/Goals.tsx:105-146 | With saved plans, the latest plan's automatic goals replace the list and are stored. With none, nothing changes. |
| History.FilteredPlansSpec | components/planner/History.tsx:83-88 | A plan is listed exactly when the search term matches its name or goal, ignoring case, and the goal filter matches. Listed plans keep their order. |
| History.EmptySearchShowsAll | components/planner/History.tsx:83-88 | An empty search with the `all` filter lists every plan. |
| History.GoalBadgeVariant | components/planner/History.tsx:137-144 | Maps the three goals to destructive, default and secondary, and anything else to outline. |
| History.HistoryPage.constructor | components/planner/History.tsx:41-45 | The page starts with no plans, no selection, an empty search and the `all` filter. |
| History.HistoryPage.LoadSavedPlans | components/planner/History.tsx:52-67 | The page shows the stored history. |
| History.HistoryPage.Delete | components/planner/History.tsx:128-135 | The plan is removed from the page and the store. The selection is cleared only if it was that plan. |
| History.DeleteSpec | components/planner/History.tsx:129 | A plan survives deletion exactly when its id differs. |
| Favorites.FilteredFavoritesSpec | components/planner/Favorites.tsx:79-86 | A favourite is shown exactly when the search term matches its name or its string description, ignoring case, and the meal-time filter matches. Order is kept. |
| Favorites.EmptySearchShowsAllFavorites | components/planner/Favorites.tsx:79-86 | An empty search with the `all` filter shows every favourite. |
| Favorites.Used | components/planner/Favorites.tsx:96-100 | The matching favourite's usage count rises by one and its last-used date is today. Others are unchanged. |
| Favorites.CardCountsBounded | components/planner/Favorites.tsx:145-179 | The breakfast, lunch and dinner cards never sum to more than the total card. |
| Favorites.MealTimeColor | components/planner/Favorites.tsx:107-115 | Each slot gets its colour classes, and anything else gets grey. |
| Favorites.FavoritesPage.constructor | components/planner/Favorites.tsx:38-41 | The page starts with no favourites, an empty search and the `all` filter. |
| Favorites.FavoritesPage.LoadFavorites | components/planner/Favorites.tsx:48-63 | The page shows the stored favourites. |
| Favorites.FavoritesPage.RemoveFavorite | components/planner/Favorites.tsx:88-92 | The favourite is removed from the page and the store. |
| Favorites.FavoritesPage.AddToCurrentPlan | components/planner/Favorites.tsx:94-105 | The favourite is marked as used on the page and in the store. |
| Favorites.RemoveSpec | components/planner/Favorites.tsx:89 | A favourite survives removal exactly when its id differs. |
| Results.HistoryEntry | components/planner/Results.tsx:41-49 | The history entry is the plan plus the id, the time and the input. It is named "<formatted goal> Plan - <date>". |
| Results.NewFavorite | components/planner/Results.tsx:64-70 | The favourite is the meal plus the id `fav-<now>-<name>`, today's dates, and a usage count of 1. |
| Results.NamedCountZero | components/planner/Results.tsx:77-79 | No favourite has the name exactly when `some` finds none. |
| Results.SavedFavorites | components/planner/Results.tsx:76-84 | A meal whose name is already saved leaves the list unchanged. Otherwise it is put in front. |
| Results.SaveLeavesOneByName | components/planner/Results.tsx:76-84 | After saving a new name exactly one favourite has it. A known name keeps its count. |
| Results.SaveIdempotent | components/planner/Results.tsx:76-84 | Saving the same meal again, at any time, changes nothing. |
| Results.ResultsPage.constructor | components/planner/Results.tsx:27-35 | The page starts unsaved, with no favourite flags. |
| Results.ResultsPage.SaveToHistory | components/planner/Results.tsx:38-60 | Without form input nothing happens. Otherwise the entry goes in front of the stored history and the page is marked saved. |
| Results.ResultsPage.SaveToFavorites | components/planner/Results.tsx:63-110 | The store gets the saved-favourites list and the meal's flag is set, whether it was new or not. |
| Text.Split | lib/edamam.ts:171 | `split` gives at least one field, and no field contains the separator. |
| Text.JoinSplit | lib/edamam.ts:171 | Joining the fields with the separator gives back the string. |
| Text.FirstFieldIsPrefix | lib/edamam.ts:225 | `split(sep)[0]` is the longest separator-free prefix. |
| Text.Trim | lib/edamam.ts:173 | The trimmed string occurs in the original and neither starts nor ends with white space. An already-trimmed string is unchanged. |
| Text.TrimDecomposes | lib/edamam.ts:173 | The original is the trimmed string between a prefix and a suffix made only of white space. |
| Text.ToLower | components/planner/History.tsx:84-85 | Lower-casing keeps the length and lower-cases each ASCII letter. |
| Text.Capitalize | components/planner/Goals.tsx:44 | The first character is upper-cased and the rest is kept. |
| Text.FormatAgreesWithTitleWords | components/planner/Goals.tsx:43-45 | The split/capitalize/join pipeline equals the character-wise definition: underscores become spaces, and word-initial letters are upper-cased. |
| Text.FormatGoalNameAt | components/planner/Goals.tsx:43-45 | `formatGoalName` keeps the length. Each character becomes a space, an upper-cased word start, or itself. |
| Text.ReplaceFirst | components/planner/Goals.tsx:116 | `replace` keeps the length and leaves a string without the character unchanged. |
| Text.ReplaceFirstAt | components/planner/Goals.tsx:116 | `replace` with a one-character pattern changes only its first occurrence: everything before and after it stays as it was. |
| Text.IntToStringRoundTrip | components/planner/Goals.tsx:128 | Reading back the decimal rendering of an integer gives the integer, so a template that interpolates a count (the meals goal's title) determines that count. |
| Text.IntToStringInjective | lib/gemini.ts:139 | Different integers render differently. |
| Numbers.RoundDiv | app/insights/page.tsx:67 | `Math.round(p / q)` is the integer within one half of `p / q`, with halves rounded up. |
| Numbers.RoundDivExact | app/insights/page.tsx:67 | An exact quotient rounds to itself. |
| Numbers.RoundDivAtLeast | app/insights/page.tsx:67 | A quotient of at least `k` rounds to at least `k`. |
| Numbers.RoundDivAtMost | app/insights/page.tsx:67 | A quotient of at most `k` rounds to at most `k`. |

## Left out

- Network, clock and randomness:
  - HTTP requests to the food database and to the language model are left out. Each becomes the reply or answer it produced, taken as a parameter.
  - The 1-second rate-limit wait (`lastRequestTime`, `delay`) is left out. It only delays a request and changes no result.
  - `Math.random()` is left out. Each draw is an index parameter in range.
  - Dates and `Date.now()` are left out. They are string parameters.
  - Session lookup is left out; signing in is a boolean parameter.
- Encoding and browser:
  - JSON parsing and its errors are left out. The store is taken to hand back exactly what was written, so a corrupt `localStorage` entry, which the pages reset to `[]`, is not modelled.
  - Rendering, alerts, timers that clear the "saved" flags, downloads and visibility listeners are left out.
  - The header, URL encoding and request body are left out.
- Floating point:
  - Numbers are integers. The food service's `Math.round` of nutrient values is taken as already applied to the hits.
  - Goal progress and the average use exact rational rounding (half up), so float error is not modelled.
- Text:
  - Case mapping and white space cover ASCII only. There is no Unicode case folding or Unicode white space.
- Types:
  - Request fields have their declared types. A non-numeric `mealsPerDay`, or a missing field in the request body, is not modelled.
- Error path of the endpoint:
  - The catch branch reads the request body a second time (`await req.json()` on a body already consumed). The model gives the fallback plan the input the first read produced; the second read's own failure is not modelled.
  - What makes the main path throw is not modelled. The fallback plan is its own function.
- Unused entry points:
  - `GeneratePlanForm`, the navigation, the sign-in route and other context files are not part of this model.
  - Page helpers that only format for display (`getGoalTypeColor`, `formatGoalType`, `getDaysRemaining`, `formatDate`, icon pickers) are not part of this model.
- Contracts stated by a partner:
  - `Insights.MotivationalMessageOrder`: the message function is stated by which inputs get equal or different messages, not by its texts.
  - `Tallies.TallyKeys`, `Tallies.Bump`: `Object.keys` lists integer-like keys first, in numeric order, while the model keeps first-occurrence order for every key. A key named after an `Object.prototype` property is not modelled either: `counts['constructor'] || 0` finds the inherited function, so its tally becomes a string, and `__proto__` never becomes a key. The tallied keys are goal and preference names from fixed select values, so none of these cases arises in the app.
- Inherited object keys:
  - `Gemini.TipRow`, `Gemini.SmartFallbackTip`, `Gemini.UnknownGoalUsesMaintain`, `Gemini.TipList`, `Gemini.Prompt`, `Edamam.FallbackMeals`: lookups written `table[key] || default` also find keys inherited from `Object.prototype` (`constructor`, `toString`, `__proto__`, …), and the model treats those keys as unknown. For example, goal `constructor` makes the tip table yield its default sentence instead of the `maintain` row's tip, preference `toString` yields a function, and context `toString` or `constructor` yields a function for the tip list or the prompt. The model's "otherwise" and "unknown" cases therefore hold only for strings that are not `Object.prototype` property names. The forms send goals, preferences, contexts and meal times from fixed select values, so these keys reach the code only through a hand-made request.
- Clock reads:
  - `Goals.AutoGoals`, `Results.NewFavorite`: the clock reads within one handler are taken as one reading. `Goals.tsx` reads `Date.now()` or `new Date()` separately for each id, deadline and creation date, and `Results.tsx` does so for `addedDate` and `lastUsed`. Across a millisecond or a UTC midnight these can differ, so the model's equal ids' timestamps, shared deadline and equal dates are not promised by the source.
  - `Edamam.BaseQueries`: its own contract states only the single query. Its value is stated by `Edamam.BaseQueriesValue`.

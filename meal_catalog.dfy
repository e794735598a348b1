/** The static catalog of meal templates (data/meals.ts): nine templates,
    each tagged with a meal-time slot, whose descriptions are resolvers of
    (user input, ingredient text); plus the two read-only queries over it. */
module MealCatalog {
  import opened Text
  import opened Lists
  import opened MealTypes

  /** The nine description resolvers of the catalog, one per template. */
  datatype Recipe =
    | BreakfastBowl | ProteinPowerBreakfast | GrilledChickenBowl | QuinoaPowerLunch
    | SalmonWithQuinoa | VegetableStirFry | GreekYogurtSnack | ProteinSmoothie | EnergyBars

  /** A template description: literal text, or a resolver run at read time. */
  datatype Description = Literal(text: string) | Resolver(recipe: Recipe)

  datatype MealTemplate = MealTemplate(
    name: string, description: Description, nutrients: Nutrients, mealTime: string)

  /** `${ingredients ? `<lead>${ingredients.split(',')[0]}` : ''}`: the
      first comma-separated field, untrimmed, after a lead-in. */
  function Splice(lead: string, ingredients: string): string {
    if ingredients != "" then lead + FirstField(ingredients, ',') else ""
  }

  /** The body of each template's resolver. Only the dietary preference of
      the input is read. */
  function Resolve(r: Recipe, input: UserInput, ingredients: string): string {
    var vegan := input.dietaryPreference == "vegan";
    var vegetarian := input.dietaryPreference == "vegetarian";
    match r
    case BreakfastBowl =>
      "Oatmeal with " + (if vegan then "almond milk" else "milk") + " and fresh fruits"
        + Splice(" with ", ingredients)
    case ProteinPowerBreakfast =>
      "Scrambled " + (if vegan then "tofu" else "eggs") + " with whole grain toast and avocado"
    case GrilledChickenBowl =>
      "Grilled " + (if vegan then "tofu" else "chicken") + " breast with brown rice and steamed broccoli"
        + Splice(", featuring ", ingredients)
    case QuinoaPowerLunch =>
      "Quinoa salad with "
        + (if vegan then "chickpeas" else if vegetarian then "feta cheese" else "grilled chicken")
        + " and mixed vegetables"
    case SalmonWithQuinoa =>
      "Baked "
        + (if vegan then "tofu steak" else if vegetarian then "portobello mushroom" else "salmon")
        + " served with quinoa and asparagus" + Splice(" and ", ingredients)
    case VegetableStirFry =>
      "Mixed vegetable stir fry with "
        + (if vegan then "tofu" else if vegetarian then "tofu" else "chicken")
        + " in light soy sauce" + Splice(", including ", ingredients)
    case GreekYogurtSnack =>
      (if vegan then "Coconut" else "Greek") + " yogurt with berries and a drizzle of honey"
        + Splice(", topped with ", ingredients)
    case ProteinSmoothie =>
      "Protein smoothie with " + (if vegan then "plant-based protein" else "whey protein")
        + ", banana, and spinach" + Splice(", blended with ", ingredients)
    case EnergyBars =>
      "Homemade energy bars with oats, nuts, and " + (if vegan then "maple syrup" else "honey")
        + Splice(", including ", ingredients)
  }

  /** Reads a description: literal text as it is, a resolver applied. */
  function RenderDescription(d: Description, input: UserInput, ingredients: string): string {
    match d
    case Literal(text) => text
    case Resolver(r) => Resolve(r, input, ingredients)
  }

  const BreakfastTemplates: seq<MealTemplate> := [
    MealTemplate("Breakfast Bowl", Resolver(BreakfastBowl), Nutrients(350, 15, 60, 8), "breakfast"),
    MealTemplate("Protein Power Breakfast", Resolver(ProteinPowerBreakfast), Nutrients(420, 25, 30, 22), "breakfast")
  ]

  const LunchTemplates: seq<MealTemplate> := [
    MealTemplate("Grilled Chicken Bowl", Resolver(GrilledChickenBowl), Nutrients(450, 40, 35, 10), "lunch"),
    MealTemplate("Quinoa Power Lunch", Resolver(QuinoaPowerLunch), Nutrients(480, 28, 55, 18), "lunch")
  ]

  const DinnerTemplates: seq<MealTemplate> := [
    MealTemplate("Salmon with Quinoa", Resolver(SalmonWithQuinoa), Nutrients(520, 42, 30, 15), "dinner"),
    MealTemplate("Vegetable Stir Fry", Resolver(VegetableStirFry), Nutrients(380, 22, 45, 12), "dinner")
  ]

  const SnackTemplates: seq<MealTemplate> := [
    MealTemplate("Greek Yogurt Snack", Resolver(GreekYogurtSnack), Nutrients(180, 12, 22, 5), "snack"),
    MealTemplate("Protein Smoothie", Resolver(ProteinSmoothie), Nutrients(220, 20, 25, 4), "snack"),
    MealTemplate("Energy Bars", Resolver(EnergyBars), Nutrients(150, 8, 20, 6), "snack")
  ]

  /** `MEAL_DATABASE`: the nine templates in declaration order, which lists
      each slot's templates together, breakfast first and snacks last. */
  const MealDatabase: seq<MealTemplate> := BreakfastTemplates + LunchTemplates + DinnerTemplates + SnackTemplates

  /** The filter test of `getMealsByTime(t)`. */
  function InSlot(t: string): MealTemplate -> bool {
    (m: MealTemplate) => m.mealTime == t
  }

  function SlotOf(m: MealTemplate): string {
    m.mealTime
  }

  /** `getMealsByTime(t)` */
  function MealsByTime(t: string): seq<MealTemplate> {
    Filter(MealDatabase, InSlot(t))
  }

  /** `getAvailableMealTimes()`: the distinct slots in first-occurrence order. */
  function AvailableMealTimes(): seq<string> {
    Distinct(Map(MealDatabase, SlotOf))
  }

  /** `getMealsByTime(t)` holds exactly the templates of slot `t`, in
      catalog order. */
  lemma MealsByTimeSpec(t: string, m: MealTemplate, a: seq<MealTemplate>, b: seq<MealTemplate>)
    ensures m in MealsByTime(t) <==> m in MealDatabase && m.mealTime == t
    ensures Filter(a + b, InSlot(t)) == Filter(a, InSlot(t)) + Filter(b, InSlot(t))
  {
    FilterMembers(MealDatabase, InSlot(t), m);
    FilterAppend(a, b, InSlot(t));
  }

  /** A block whose templates all have slot `slot` is kept whole when
      filtering for `slot` and dropped for any other slot. */
  lemma BlockFilter(block: seq<MealTemplate>, slot: string, t: string)
    requires forall i :: 0 <= i < |block| ==> block[i].mealTime == slot
    ensures Filter(block, InSlot(t)) == if slot == t then block else []
  {
    if slot == t {
      FilterAll(block, InSlot(t));
    } else {
      FilterNone(block, InSlot(t));
    }
  }

  /** `getMealsByTime(t)` is the block of slot `t`, and empty for any
      other string. */
  lemma MealsByTimeBlocks(t: string)
    ensures MealsByTime(t)
      == (if t == "breakfast" then BreakfastTemplates else [])
       + (if t == "lunch" then LunchTemplates else [])
       + (if t == "dinner" then DinnerTemplates else [])
       + (if t == "snack" then SnackTemplates else [])
  {
    FilterOfBlocks(BreakfastTemplates, LunchTemplates, DinnerTemplates, SnackTemplates, t);
  }

  /** Filtering four single-slot blocks for `t` keeps the block of slot `t`. */
  lemma FilterOfBlocks(b: seq<MealTemplate>, l: seq<MealTemplate>, d: seq<MealTemplate>,
                       n: seq<MealTemplate>, t: string)
    requires forall i :: 0 <= i < |b| ==> b[i].mealTime == "breakfast"
    requires forall i :: 0 <= i < |l| ==> l[i].mealTime == "lunch"
    requires forall i :: 0 <= i < |d| ==> d[i].mealTime == "dinner"
    requires forall i :: 0 <= i < |n| ==> n[i].mealTime == "snack"
    ensures Filter(b + l + d + n, InSlot(t))
      == (if t == "breakfast" then b else []) + (if t == "lunch" then l else [])
       + (if t == "dinner" then d else []) + (if t == "snack" then n else [])
  {
    var p := InSlot(t);
    FilterAppend(b + l + d, n, p);
    FilterAppend(b + l, d, p);
    FilterAppend(b, l, p);
    BlockFilter(b, "breakfast", t);
    BlockFilter(l, "lunch", t);
    BlockFilter(d, "dinner", t);
    BlockFilter(n, "snack", t);
  }

  /** The four slot names are pairwise different strings. */
  lemma SlotNamesDistinct()
    ensures "breakfast" != "lunch" && "breakfast" != "dinner" && "breakfast" != "snack"
    ensures "lunch" != "dinner" && "lunch" != "snack" && "dinner" != "snack"
  {
    assert "lunch"[0] != "snack"[0];
  }

  /** The catalog holds two breakfast, two lunch, two dinner and three snack
      templates, in declaration order. */
  lemma MealsByTimeValues()
    ensures MealsByTime("breakfast") == MealDatabase[0..2] && |MealsByTime("breakfast")| == 2
    ensures MealsByTime("lunch") == MealDatabase[2..4] && |MealsByTime("lunch")| == 2
    ensures MealsByTime("dinner") == MealDatabase[4..6] && |MealsByTime("dinner")| == 2
    ensures MealsByTime("snack") == MealDatabase[6..9] && |MealsByTime("snack")| == 3
  {
    SlotNamesDistinct();
    MealsByTimeBlocks("breakfast");
    MealsByTimeBlocks("lunch");
    MealsByTimeBlocks("dinner");
    MealsByTimeBlocks("snack");
    assert MealDatabase[0..2] == BreakfastTemplates;
    assert MealDatabase[2..4] == LunchTemplates;
    assert MealDatabase[4..6] == DinnerTemplates;
    assert MealDatabase[6..9] == SnackTemplates;
  }

  /** Any other slot name selects nothing. */
  lemma MealsByTimeUnknown(t: string)
    requires t != "breakfast" && t != "lunch" && t != "dinner" && t != "snack"
    ensures MealsByTime(t) == []
  {
    MealsByTimeBlocks(t);
  }

  /** The slots of a block of one slot are a run of that slot. */
  lemma BlockSlots(block: seq<MealTemplate>, slot: string)
    requires block != [] && forall i :: 0 <= i < |block| ==> block[i].mealTime == slot
    ensures Map(block, SlotOf) != [] && forall i :: 0 <= i < |Map(block, SlotOf)| ==> Map(block, SlotOf)[i] == slot
  {
  }

  /** For this catalog the available slots are exactly the four meal times,
      in the order breakfast, lunch, dinner, snack. */
  lemma AvailableMealTimesValue()
    ensures AvailableMealTimes() == ["breakfast", "lunch", "dinner", "snack"]
  {
    var b, l := Map(BreakfastTemplates, SlotOf), Map(LunchTemplates, SlotOf);
    var d, n := Map(DinnerTemplates, SlotOf), Map(SnackTemplates, SlotOf);
    CatalogSlotRuns();
    BlockSlots(BreakfastTemplates, "breakfast");
    BlockSlots(LunchTemplates, "lunch");
    BlockSlots(DinnerTemplates, "dinner");
    BlockSlots(SnackTemplates, "snack");
    SlotNamesDistinct();
    DistinctOfRuns(b, l, d, n, "breakfast", "lunch", "dinner", "snack");
  }

  /** The slots of the catalog are the slots of its four blocks in turn. */
  lemma CatalogSlotRuns()
    ensures Map(MealDatabase, SlotOf) == Map(BreakfastTemplates, SlotOf) + Map(LunchTemplates, SlotOf)
      + Map(DinnerTemplates, SlotOf) + Map(SnackTemplates, SlotOf)
  {
    MapAppend(BreakfastTemplates + LunchTemplates + DinnerTemplates, SnackTemplates, SlotOf);
    MapAppend(BreakfastTemplates + LunchTemplates, DinnerTemplates, SlotOf);
    MapAppend(BreakfastTemplates, LunchTemplates, SlotOf);
  }

  /** De-duplicating four runs of pairwise different values keeps one of
      each, in run order. */
  lemma DistinctOfRuns<T>(b: seq<T>, l: seq<T>, d: seq<T>, n: seq<T>, xb: T, xl: T, xd: T, xn: T)
    requires b != [] && forall i :: 0 <= i < |b| ==> b[i] == xb
    requires l != [] && forall i :: 0 <= i < |l| ==> l[i] == xl
    requires d != [] && forall i :: 0 <= i < |d| ==> d[i] == xd
    requires n != [] && forall i :: 0 <= i < |n| ==> n[i] == xn
    requires xb != xl && xb != xd && xb != xn && xl != xd && xl != xn && xd != xn
    ensures Distinct(b + l + d + n) == [xb, xl, xd, xn]
  {
    assert Distinct(b) == [xb] by {
      assert [] + b == b;
      DistinctRun([], b, xb);
    }
    assert Distinct(b + l) == [xb, xl] by {
      DistinctRun(b, l, xl);
    }
    assert Distinct(b + l + d) == [xb, xl, xd] by {
      DistinctRun(b + l, d, xd);
    }
    DistinctRun(b + l + d, n, xn);
  }

  /** Every template carries a non-negative nutrient profile. */
  lemma CatalogNutrientsNonNegative()
    ensures forall i :: 0 <= i < |MealDatabase| ==> NonNegative(MealDatabase[i].nutrients)
  {
  }

  predicate IgnoresIngredients(r: Recipe) {
    r == ProteinPowerBreakfast || r == QuinoaPowerLunch
  }

  /** The words each splicing resolver puts before the ingredient. */
  function SpliceLead(r: Recipe): string {
    match r
    case BreakfastBowl => " with "
    case GrilledChickenBowl => ", featuring "
    case SalmonWithQuinoa => " and "
    case VegetableStirFry => ", including "
    case GreekYogurtSnack => ", topped with "
    case ProteinSmoothie => ", blended with "
    case EnergyBars => ", including "
    case _ => ""
  }

  lemma SpliceParts(text: string, lead: string, ingredients: string)
    ensures text + Splice(lead, "") == text
    ensures ingredients != "" ==>
      text + Splice(lead, ingredients) == text + Splice(lead, "") + lead + FirstField(ingredients, ',')
  {
    assert text + "" == text;
  }

  /** With non-empty ingredients, seven resolvers append their lead-in and
      the first comma field, untrimmed, to the ingredient-free text; the
      Protein Power Breakfast and Quinoa Power Lunch ignore the ingredients. */
  lemma IngredientSplice(r: Recipe, input: UserInput, ingredients: string)
    ensures IgnoresIngredients(r) ==> Resolve(r, input, ingredients) == Resolve(r, input, "")
    ensures !IgnoresIngredients(r) && ingredients != "" ==>
      Resolve(r, input, ingredients)
        == Resolve(r, input, "") + SpliceLead(r) + FirstField(ingredients, ',')
  {
    if r == BreakfastBowl || r == ProteinPowerBreakfast || r == GrilledChickenBowl || r == QuinoaPowerLunch {
      DaytimeSplice(r, input, ingredients);
    } else if r == SalmonWithQuinoa || r == VegetableStirFry {
      DinnerSplice(r, input, ingredients);
    } else {
      SnackSplice(r, input, ingredients);
    }
  }

  /** IngredientSplice for the breakfast and lunch resolvers. */
  lemma DaytimeSplice(r: Recipe, input: UserInput, ingredients: string)
    requires r == BreakfastBowl || r == ProteinPowerBreakfast || r == GrilledChickenBowl || r == QuinoaPowerLunch
    ensures IgnoresIngredients(r) ==> Resolve(r, input, ingredients) == Resolve(r, input, "")
    ensures !IgnoresIngredients(r) && ingredients != "" ==>
      Resolve(r, input, ingredients)
        == Resolve(r, input, "") + SpliceLead(r) + FirstField(ingredients, ',')
  {
    var vegan := input.dietaryPreference == "vegan";
    if r == BreakfastBowl {
      SpliceParts("Oatmeal with " + (if vegan then "almond milk" else "milk") + " and fresh fruits",
        " with ", ingredients);
    } else if r == GrilledChickenBowl {
      SpliceParts("Grilled " + (if vegan then "tofu" else "chicken")
        + " breast with brown rice and steamed broccoli", ", featuring ", ingredients);
    }
  }

  /** IngredientSplice for the dinner resolvers. */
  lemma DinnerSplice(r: Recipe, input: UserInput, ingredients: string)
    requires r == SalmonWithQuinoa || r == VegetableStirFry
    ensures ingredients != "" ==>
      Resolve(r, input, ingredients)
        == Resolve(r, input, "") + SpliceLead(r) + FirstField(ingredients, ',')
  {
    var vegan := input.dietaryPreference == "vegan";
    var vegetarian := input.dietaryPreference == "vegetarian";
    if r == SalmonWithQuinoa {
      SpliceParts("Baked "
        + (if vegan then "tofu steak" else if vegetarian then "portobello mushroom" else "salmon")
        + " served with quinoa and asparagus", " and ", ingredients);
    } else {
      SpliceParts("Mixed vegetable stir fry with "
        + (if vegan then "tofu" else if vegetarian then "tofu" else "chicken")
        + " in light soy sauce", ", including ", ingredients);
    }
  }

  /** IngredientSplice for the snack resolvers. */
  lemma SnackSplice(r: Recipe, input: UserInput, ingredients: string)
    requires r == GreekYogurtSnack || r == ProteinSmoothie || r == EnergyBars
    ensures ingredients != "" ==>
      Resolve(r, input, ingredients)
        == Resolve(r, input, "") + SpliceLead(r) + FirstField(ingredients, ',')
  {
    var vegan := input.dietaryPreference == "vegan";
    if r == GreekYogurtSnack {
      SpliceParts((if vegan then "Coconut" else "Greek") + " yogurt with berries and a drizzle of honey",
        ", topped with ", ingredients);
    } else if r == ProteinSmoothie {
      SpliceParts("Protein smoothie with " + (if vegan then "plant-based protein" else "whey protein")
        + ", banana, and spinach", ", blended with ", ingredients);
    } else {
      SpliceParts("Homemade energy bars with oats, nuts, and " + (if vegan then "maple syrup" else "honey"),
        ", including ", ingredients);
    }
  }

  /** The plant-based option each resolver uses for a vegan. */
  function PlantOption(r: Recipe): string {
    match r
    case BreakfastBowl => "almond milk"
    case ProteinPowerBreakfast => "tofu"
    case GrilledChickenBowl => "tofu"
    case QuinoaPowerLunch => "chickpeas"
    case SalmonWithQuinoa => "tofu steak"
    case VegetableStirFry => "tofu"
    case GreekYogurtSnack => "Coconut"
    case ProteinSmoothie => "plant-based protein"
    case EnergyBars => "maple syrup"
  }

  /** For a vegan every resolver emits its plant option. */
  lemma VeganUsesPlantOption(r: Recipe, input: UserInput, ingredients: string)
    requires input.dietaryPreference == "vegan"
    ensures Includes(Resolve(r, input, ingredients), PlantOption(r))
  {
    match r
    case BreakfastBowl =>
      IncludesSecondOfFour("Oatmeal with ", "almond milk", " and fresh fruits", Splice(" with ", ingredients));
    case ProteinPowerBreakfast =>
      IncludesMiddle("Scrambled ", "tofu", " with whole grain toast and avocado");
    case GrilledChickenBowl =>
      IncludesSecondOfFour("Grilled ", "tofu", " breast with brown rice and steamed broccoli",
        Splice(", featuring ", ingredients));
    case QuinoaPowerLunch =>
      IncludesMiddle("Quinoa salad with ", "chickpeas", " and mixed vegetables");
    case SalmonWithQuinoa =>
      IncludesSecondOfFour("Baked ", "tofu steak", " served with quinoa and asparagus",
        Splice(" and ", ingredients));
    case VegetableStirFry =>
      IncludesSecondOfFour("Mixed vegetable stir fry with ", "tofu", " in light soy sauce",
        Splice(", including ", ingredients));
    case GreekYogurtSnack =>
      IncludesFirstOfThree("Coconut", " yogurt with berries and a drizzle of honey",
        Splice(", topped with ", ingredients));
    case ProteinSmoothie =>
      IncludesSecondOfFour("Protein smoothie with ", "plant-based protein", ", banana, and spinach",
        Splice(", blended with ", ingredients));
    case EnergyBars =>
      IncludesMiddle("Homemade energy bars with oats, nuts, and ", "maple syrup", Splice(", including ", ingredients));
  }

  predicate HasVegetarianOption(r: Recipe) {
    r == QuinoaPowerLunch || r == SalmonWithQuinoa || r == VegetableStirFry
  }

  /** A vegetarian gets a text different from the default (no restriction)
      text exactly for the Quinoa, Salmon and Stir Fry resolvers. */
  lemma VegetarianSubstitution(r: Recipe, veg: UserInput, other: UserInput, ingredients: string)
    requires veg.dietaryPreference == "vegetarian"
    requires other.dietaryPreference != "vegan" && other.dietaryPreference != "vegetarian"
    ensures Resolve(r, veg, ingredients) != Resolve(r, other, ingredients) <==> HasVegetarianOption(r)
  {
    if HasVegetarianOption(r) {
      VegetarianDiffers(r, veg, other, ingredients);
    } else {
      VegetarianSame(r, veg, other, ingredients);
    }
  }

  lemma VegetarianDiffers(r: Recipe, veg: UserInput, other: UserInput, ingredients: string)
    requires veg.dietaryPreference == "vegetarian"
    requires other.dietaryPreference != "vegan" && other.dietaryPreference != "vegetarian"
    requires HasVegetarianOption(r)
    ensures Resolve(r, veg, ingredients) != Resolve(r, other, ingredients)
  {
    assert |Resolve(r, veg, ingredients)| != |Resolve(r, other, ingredients)|;
  }

  lemma VegetarianSame(r: Recipe, veg: UserInput, other: UserInput, ingredients: string)
    requires veg.dietaryPreference == "vegetarian"
    requires other.dietaryPreference != "vegan" && other.dietaryPreference != "vegetarian"
    requires !HasVegetarianOption(r)
    ensures Resolve(r, veg, ingredients) == Resolve(r, other, ingredients)
  {
  }
}

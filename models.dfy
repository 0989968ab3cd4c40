/**
 * The rows of the food database and the constraints the schema declares on them.
 * Parent rows (foods, recipes, meals) are keyed by their integer primary key; child rows
 * (units, ingredients, meal items, log entries) are kept in insertion order, which is the
 * order in which a parent's relationship list yields them.
 */
module Models {
  import opened Results

  /** A food, with its nutrient amounts per 100 g; the five micronutrient columns are nullable. */
  datatype Food = Food(
    name: string,
    category: string,
    isLiquid: bool,
    isActive: bool,
    calories100g: real,
    proteins100g: real,
    carbs100g: real,
    fats100g: real,
    saturatedFats100g: Option<real>,
    transFats100g: Option<real>,
    fiber100g: Option<real>,
    sodium100g: Option<real>,
    sugar100g: Option<real>)

  /** A named serving size of one food ("tablespoon" weighs 10 g). */
  datatype FoodUnit = FoodUnit(foodId: int, unitName: string, grams: real)

  /** A recipe and the number of portions one batch yields; `isActive` defaults to true. */
  datatype Recipe = Recipe(name: string, portionsYield: int, isActive: bool := true)

  /** One food in a recipe's batch, in some quantity of some unit. */
  datatype RecipeIngredient = RecipeIngredient(recipeId: int, foodId: int, quantity: real, unitName: string)

  /** A meal; `isActive` defaults to true. */
  datatype Meal = Meal(name: string, isActive: bool := true)

  /** One entry of a meal: either a food or a recipe, in some quantity of some unit. */
  datatype MealItem = MealItem(mealId: int, foodId: Option<int>, recipeId: Option<int>, quantity: real, unitName: string)
  {
    /** The CHECK constraint: exactly one of the two references is non-null. */
    predicate SingleSource() {
      (foodId.Some? && recipeId.None?) || (foodId.None? && recipeId.Some?)
    }
  }

  /** A calendar date. */
  datatype Date = Date(year: int, month: int, day: int)

  /** One consumption record with the grams it resolved to when it was logged. */
  datatype DailyLog = DailyLog(
    logDate: Date,
    foodId: Option<int>,
    recipeId: Option<int>,
    mealId: Option<int>,
    quantity: real,
    unitName: string,
    grams: real)
  {
    /** The CHECK constraint: exactly one of the three references is non-null. */
    predicate SingleLoggable() {
      (foodId.Some? && recipeId.None? && mealId.None?)
      || (foodId.None? && recipeId.Some? && mealId.None?)
      || (foodId.None? && recipeId.None? && mealId.Some?)
    }
  }

  /** The unique constraint on (food_id, unit_name): no two unit rows share both, compared exactly. */
  predicate UnitsUnique(units: seq<FoodUnit>) {
    forall i, j :: 0 <= i < j < |units| ==>
      units[i].foodId != units[j].foodId || units[i].unitName != units[j].unitName
  }

  /**
   * A snapshot of all seven tables. Foreign keys are declared but not enforced by the
   * database, so a child row may name a parent id that has no row.
   */
  datatype Db = Db(
    foods: map<int, Food>,
    foodUnits: seq<FoodUnit>,
    recipes: map<int, Recipe>,
    recipeIngredients: seq<RecipeIngredient>,
    meals: map<int, Meal>,
    mealItems: seq<MealItem>,
    dailyLogs: seq<DailyLog>)
  {
    /** The constraints the database itself enforces on every flush. */
    predicate Valid() {
      && UnitsUnique(foodUnits)
      && (forall i :: 0 <= i < |mealItems| ==> mealItems[i].SingleSource())
      && (forall i :: 0 <= i < |dailyLogs| ==> dailyLogs[i].SingleLoggable())
    }
  }

  /** `food.units`: the unit rows of one food, in insertion order. */
  function UnitsOf(units: seq<FoodUnit>, foodId: int): (r: seq<FoodUnit>)
    ensures forall u :: u in r <==> u in units && u.foodId == foodId
    ensures |r| <= |units|
  {
    if units == [] then []
    else
      var rest := UnitsOf(units[..|units| - 1], foodId);
      var last := units[|units| - 1];
      if last.foodId == foodId then rest + [last] else rest
  }

  /** `recipe.ingredients`: the ingredient rows of one recipe, in insertion order. */
  function IngredientsOf(ingredients: seq<RecipeIngredient>, recipeId: int): (r: seq<RecipeIngredient>)
    ensures forall g :: g in r <==> g in ingredients && g.recipeId == recipeId
    ensures |r| <= |ingredients|
  {
    if ingredients == [] then []
    else
      var rest := IngredientsOf(ingredients[..|ingredients| - 1], recipeId);
      var last := ingredients[|ingredients| - 1];
      if last.recipeId == recipeId then rest + [last] else rest
  }

  /** `meal.items`: the item rows of one meal, in insertion order. */
  function ItemsOf(items: seq<MealItem>, mealId: int): (r: seq<MealItem>)
    ensures forall m :: m in r <==> m in items && m.mealId == mealId
    ensures |r| <= |items|
  {
    if items == [] then []
    else
      var rest := ItemsOf(items[..|items| - 1], mealId);
      var last := items[|items| - 1];
      if last.mealId == mealId then rest + [last] else rest
  }

  /** Appending a row of another parent leaves a parent's unit list as it was; one of its own goes last. */
  lemma UnitsOfAppend(units: seq<FoodUnit>, u: FoodUnit, foodId: int)
    ensures UnitsOf(units + [u], foodId) == if u.foodId == foodId then UnitsOf(units, foodId) + [u] else UnitsOf(units, foodId)
  {
    assert (units + [u])[..|units|] == units;
  }

  /** The same for a recipe's ingredient list. */
  lemma IngredientsOfAppend(ingredients: seq<RecipeIngredient>, g: RecipeIngredient, recipeId: int)
    ensures IngredientsOf(ingredients + [g], recipeId)
         == if g.recipeId == recipeId then IngredientsOf(ingredients, recipeId) + [g] else IngredientsOf(ingredients, recipeId)
  {
    assert (ingredients + [g])[..|ingredients|] == ingredients;
  }

  /** The same for a meal's item list. */
  lemma ItemsOfAppend(items: seq<MealItem>, m: MealItem, mealId: int)
    ensures ItemsOf(items + [m], mealId) == if m.mealId == mealId then ItemsOf(items, mealId) + [m] else ItemsOf(items, mealId)
  {
    assert (items + [m])[..|items|] == items;
  }
}

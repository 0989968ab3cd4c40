/**
 * The database session the services share: one mutable table per entity, and the next
 * primary key each parent table will hand out. Every service method receives it as its
 * only channel to the data.
 */
module Store {
  import opened Models

  class Session {
    var foods: map<int, Food>
    var foodUnits: seq<FoodUnit>
    var recipes: map<int, Recipe>
    var recipeIngredients: seq<RecipeIngredient>
    var meals: map<int, Meal>
    var mealItems: seq<MealItem>
    var dailyLogs: seq<DailyLog>
    var nextFoodId: int
    var nextRecipeId: int
    var nextMealId: int

    /** The tables as one value, for the functions that read them. */
    function Tables(): (db: Db)
      reads this
      ensures db.foods == foods && db.foodUnits == foodUnits && db.recipes == recipes
      ensures db.recipeIngredients == recipeIngredients && db.meals == meals
      ensures db.mealItems == mealItems && db.dailyLogs == dailyLogs
    {
      Db(foods, foodUnits, recipes, recipeIngredients, meals, mealItems, dailyLogs)
    }

    /**
     * The schema's constraints hold, and every key handed out so far is positive and below
     * the next key of its table, so the next key is unused.
     */
    predicate Valid()
      reads this
    {
      && Tables().Valid()
      && 1 <= nextFoodId && 1 <= nextRecipeId && 1 <= nextMealId
      && (forall id :: id in foods ==> 1 <= id < nextFoodId)
      && (forall id :: id in recipes ==> 1 <= id < nextRecipeId)
      && (forall id :: id in meals ==> 1 <= id < nextMealId)
    }

    /** A session on an empty database. */
    constructor ()
      ensures Valid()
      ensures foods == map[] && foodUnits == [] && recipes == map[] && recipeIngredients == []
      ensures meals == map[] && mealItems == [] && dailyLogs == []
      ensures nextFoodId == 1 && nextRecipeId == 1 && nextMealId == 1
    {
      foods, foodUnits := map[], [];
      recipes, recipeIngredients := map[], [];
      meals, mealItems := map[], [];
      dailyLogs := [];
      nextFoodId, nextRecipeId, nextMealId := 1, 1, 1;
    }
  }
}

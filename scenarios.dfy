/**
 * Two end-to-end runs of the services on a fresh session: the custom-unit check of a ready
 * meal ("Marmita Frutifica") and the breakfast built from oats, a pancake recipe and a meal.
 */
module Scenarios {
  import opened Results
  import opened Text
  import opened Nutrition
  import opened Models
  import opened Store
  import FoodService
  import RecipeService
  import MealService
  import LogService

  /** A ready meal registered per 100 g (112 kcal) with a custom "unidade" of 350 g. */
  function Frutifica(): FoodService.FoodCreate {
    FoodService.FoodCreate("Marmita Frutifica", "Pratos Prontos", "g", 100.0, 112.0, 9.0, 14.0, 4.0)
  }

  /** Oats, registered per 100 g. */
  function Oats(): FoodService.FoodCreate {
    FoodService.FoodCreate("Oats", "Grains", "g", 100.0, 389.0, 16.9, 66.3, 6.9)
  }

  lemma GramsLabel()
    ensures Lower("g") == "g"
    ensures FoodService.IsGramUnit(Lower("g"))
  {
    assert Lower("g")[0] == 'g';
  }

  /** A food registered per 100 g keeps its label values as its per-100 g values. */
  lemma PerHundredKept(data: FoodService.FoodCreate)
    requires data.unitVal == 100.0
    ensures FoodService.NormalizeFood(data).Ok?
    ensures FoodService.NormalizeFood(data).value.calories100g == data.calories
  {
  }

  /**
   * One "unidade" of the ready meal is 392 kcal, and logging half of one stores 175 g
   * against the food.
   */
  method FrutificaScenario(today: Date) returns (kcal: real, logged: Result<DailyLog>)
    ensures kcal == 392.0
    ensures logged.Ok? && logged.value.grams == 175.0
    ensures logged.value.foodId == Some(1) && logged.value.recipeId.None? && logged.value.mealId.None?
  {
    var s := StockFrutifica();
    UnidadeResolves(s.Tables(), 1.0);
    UnidadeResolves(s.Tables(), 0.5);
    var n := FoodService.CalculateNutrition(s.Tables(), 1, 1.0, "unidade");
    kcal := n.calories;
    ghost var db := s.Tables();
    var entry := LogService.DailyLogCreate(today, "food", 1, 0.5, "unidade");
    assert LogService.ResolvedGrams(db, "food", 1, 0.5, "unidade") == Ok(175.0);
    assert LogService.KnownType(entry.loggableType);
    logged := LogService.LogConsumption(s, entry);
    assert logged == Ok(LogService.NewEntry(entry, 175.0));
  }

  /** The ready meal, labelled per 100 g, with its "unidade" of 350 g, in a new session. */
  method StockFrutifica() returns (s: Session)
    ensures fresh(s) && s.Valid()
    ensures 1 in s.foods && s.foods[1].calories100g == 112.0
    ensures s.foodUnits == [FoodUnit(1, "unidade", 350.0)]
  {
    s := new Session();
    GramsLabel();
    PerHundredKept(Frutifica());
    assert FoodService.LabelUnitRows(1, Frutifica()) == [];
    assert Frutifica().unitVal != 0.0;
    var created := FoodService.Create(s, Frutifica());
    var unit := FoodService.AddUnit(s, created.value, "unidade", 350.0);
    assert s.foodUnits == [unit];
  }

  lemma UnidadeResolves(db: Db, quantity: real)
    requires 1 in db.foods && db.foods[1].calories100g == 112.0
    requires db.foodUnits == [FoodUnit(1, "unidade", 350.0)]
    ensures FoodService.GramsForFood(db, 1, quantity, "unidade") == quantity * 350.0
    ensures FoodService.CalculateNutrition(db, 1, quantity, "unidade").calories == 112.0 * (quantity * 350.0 / 100.0)
  {
    assert UnitsOf(db.foodUnits, 1) == db.foodUnits by {
      assert db.foodUnits[..0] == [];
    }
    FoodService.RegisteredUnitResolves(db, 1, quantity, "unidade", 0);
  }

  /** Two tablespoons of oats, at 10 g each: 20 g and 389 kcal/100 g of them. */
  lemma OatSpoons(db: Db)
    requires 1 in db.foods && db.foods[1].calories100g == 389.0
    requires db.foodUnits == [FoodUnit(1, "tablespoon", 10.0)]
    ensures FoodService.CalculateNutrition(db, 1, 2.0, "tablespoon").weightGrams == 20.0
    ensures FoodService.CalculateNutrition(db, 1, 2.0, "tablespoon").calories == 77.8
  {
    assert UnitsOf(db.foodUnits, 1) == db.foodUnits by {
      assert db.foodUnits[..0] == [];
    }
    FoodService.RegisteredUnitResolves(db, 1, 2.0, "tablespoon", 0);
    FoodService.CalculateNutritionScales(db, 1, 2.0, "tablespoon");
  }

  /** One of the two portions of a pancake batch made with 40 g of oats. */
  lemma PancakePortion(db: Db)
    requires 1 in db.foods && db.foods[1].calories100g == 389.0
    requires 1 in db.recipes && db.recipes[1].portionsYield == 2
    requires db.recipeIngredients == [RecipeIngredient(1, 1, 40.0, "g")]
    ensures RecipeService.RecipeNutrition(db, 1, 1.0, "portion").Ok?
    ensures RecipeService.RecipeNutrition(db, 1, 1.0, "portion").value.weightGrams == 20.0
    ensures RecipeService.RecipeNutrition(db, 1, 1.0, "portion").value.calories == 77.8
  {
    assert IngredientsOf(db.recipeIngredients, 1) == db.recipeIngredients by {
      assert db.recipeIngredients[..0] == [];
    }
    GramsLabel();
    FoodService.GramUnitIsQuantity(db, 1, 40.0, "g");
    FoodService.CalculateNutritionScales(db, 1, 40.0, "g");
    var ings := db.recipeIngredients;
    var batch := RecipeService.BatchTotals(db, ings);
    assert ings[..|ings| - 1] == [];
    assert batch == Add(RecipeService.BatchTotals(db, []), FoodService.CalculateNutrition(db, 1, 40.0, "g"));
    assert batch.weightGrams == 40.0 && batch.calories == 155.6;
    RecipeService.PortionsClosedForm(batch, 2, 1.0);
  }

  /** The breakfast's items: two tablespoons of oats, then one portion of pancakes. */
  function BreakfastItems(): seq<MealItem> {
    [MealItem(1, Some(1), None, 2.0, "tablespoon"), MealItem(1, None, Some(1), 1.0, "portion")]
  }

  /** Both items belong to meal 1. */
  lemma AllBreakfastItems()
    ensures ItemsOf(BreakfastItems(), 1) == BreakfastItems()
  {
    var items := BreakfastItems();
    assert items[..1][..0] == [];
    assert items[..1] == [items[0]];
  }

  /** The totals after the first item, the oats. */
  lemma OatsItemTotals(db: Db)
    requires 1 in db.foods && db.foods[1].calories100g == 389.0
    requires db.foodUnits == [FoodUnit(1, "tablespoon", 10.0)]
    ensures MealService.MealTotals(db, BreakfastItems()[..1]).Ok?
    ensures MealService.MealTotals(db, BreakfastItems()[..1]).value.weightGrams == 20.0
    ensures MealService.MealTotals(db, BreakfastItems()[..1]).value.calories == 77.8
  {
    var items := BreakfastItems();
    OatSpoons(db);
    MealService.MealTotalsStep(db, items, 0);
    assert items[..0] == [];
    assert MealService.RouteOf(items[0]) == MealService.ViaFood(1);
  }

  /** The breakfast: two tablespoons of oats and one portion of pancakes. */
  lemma BreakfastTotals(db: Db)
    requires BreakfastTables(db)
    ensures MealService.MealNutrition(db, 1).Ok?
    ensures MealService.MealNutrition(db, 1).value.weightGrams == 40.0
    ensures MealService.MealNutrition(db, 1).value.calories == 155.6
  {
    var items := BreakfastItems();
    AllBreakfastItems();
    OatsItemTotals(db);
    PancakePortion(db);
    MealService.MealTotalsStep(db, items, 1);
    assert items[..2] == items;
    assert MealService.RouteOf(items[1]) == MealService.ViaRecipe(1);
  }

  /** The tables the breakfast run builds, as far as its nutrition depends on them. */
  predicate BreakfastTables(db: Db) {
    && 1 in db.foods && db.foods[1].calories100g == 389.0
    && db.foodUnits == [FoodUnit(1, "tablespoon", 10.0)]
    && 1 in db.recipes && db.recipes[1].portionsYield == 2
    && db.recipeIngredients == [RecipeIngredient(1, 1, 40.0, "g")]
    && 1 in db.meals
    && db.mealItems == BreakfastItems()
  }

  /** The oats, with their tablespoon of 10 g, in a new session. */
  method StockOats() returns (s: Session)
    ensures fresh(s) && s.Valid()
    ensures 1 in s.foods && s.foods[1].calories100g == 389.0
    ensures s.foodUnits == [FoodUnit(1, "tablespoon", 10.0)]
    ensures s.recipes == map[] && s.recipeIngredients == [] && s.nextRecipeId == 1
    ensures s.meals == map[] && s.mealItems == [] && s.nextMealId == 1
  {
    s := new Session();
    GramsLabel();
    PerHundredKept(Oats());
    assert FoodService.LabelUnitRows(1, Oats()) == [];
    var oats := FoodService.Create(s, Oats());
    var unit := FoodService.AddUnit(s, oats.value, "tablespoon", 10.0);
    assert s.foodUnits == [unit];
  }

  /** The oats, then pancakes of two portions from 40 g of them. */
  method StockPancakes() returns (s: Session)
    ensures fresh(s) && s.Valid()
    ensures 1 in s.foods && s.foods[1].calories100g == 389.0
    ensures s.foodUnits == [FoodUnit(1, "tablespoon", 10.0)]
    ensures 1 in s.recipes && s.recipes[1].portionsYield == 2
    ensures s.recipeIngredients == [RecipeIngredient(1, 1, 40.0, "g")]
    ensures s.meals == map[] && s.mealItems == [] && s.nextMealId == 1
  {
    s := StockOats();
    var pancakes := RecipeService.Create(s, "Pancakes", 2);
    assert pancakes == 1 && s.recipes[1].portionsYield == 2;
    var ing := RecipeService.AddIngredient(s, pancakes, 1, 40.0, "g");
  }

  /** The oats, the pancakes and an empty breakfast meal. */
  method StockBreakfastMeal() returns (s: Session)
    ensures fresh(s) && s.Valid()
    ensures 1 in s.foods && s.foods[1].calories100g == 389.0
    ensures s.foodUnits == [FoodUnit(1, "tablespoon", 10.0)]
    ensures 1 in s.recipes && s.recipes[1].portionsYield == 2
    ensures s.recipeIngredients == [RecipeIngredient(1, 1, 40.0, "g")]
    ensures 1 in s.meals && s.mealItems == []
  {
    s := StockPancakes();
    var breakfast := MealService.Create(s, "My Breakfast");
  }

  /** The breakfast set-up: a meal of two tablespoons of oats and one portion of pancakes. */
  method SetUpBreakfast() returns (s: Session)
    ensures fresh(s) && s.Valid()
    ensures 1 in s.foods && s.foods[1].calories100g == 389.0
    ensures s.foodUnits == [FoodUnit(1, "tablespoon", 10.0)]
    ensures 1 in s.recipes && s.recipes[1].portionsYield == 2
    ensures s.recipeIngredients == [RecipeIngredient(1, 1, 40.0, "g")]
    ensures 1 in s.meals && s.mealItems == BreakfastItems()
  {
    s := StockBreakfastMeal();
    AddBreakfastItems(s);
  }

  /** Two tablespoons of oats and one portion of pancakes, added to an empty meal 1. */
  method AddBreakfastItems(s: Session)
    requires s.Valid() && s.mealItems == []
    modifies s`mealItems
    ensures s.Valid() && s.mealItems == BreakfastItems()
  {
    var items := BreakfastItems();
    assert items[0].SingleSource() && items[1].SingleSource();
    var spoons := MealService.AddItem(s, 1, 2.0, "tablespoon", Some(1), None);
    assert s.mealItems == [items[0]];
    var portion := MealService.AddItem(s, 1, 1.0, "portion", None, Some(1));
    assert s.mealItems == [items[0]] + [items[1]];
  }

  /**
   * The breakfast run: the meal is 155.6 kcal and 40 g, and logging it stores those 40 g
   * against the meal whatever quantity and unit are given.
   */
  method BreakfastScenario(today: Date) returns (meal: Result<NutritionPerServing>, logged: Result<DailyLog>)
    ensures meal.Ok? && meal.value.calories == 155.6 && meal.value.weightGrams == 40.0
    ensures logged.Ok? && logged.value.grams == 40.0
    ensures logged.value.mealId == Some(1) && logged.value.foodId.None? && logged.value.recipeId.None?
  {
    var s := SetUpBreakfast();
    ghost var db := s.Tables();
    assert BreakfastTables(db);
    BreakfastTotals(db);
    meal := MealService.CalculateNutrition(s, 1);
    assert LogService.ResolvedGrams(db, "meal", 1, 1.0, "meal") == Ok(meal.value.weightGrams);
    var entry := LogService.DailyLogCreate(today, "meal", 1, 1.0, "meal");
    assert LogService.KnownType(entry.loggableType);
    logged := LogService.LogConsumption(s, entry);
  }
}

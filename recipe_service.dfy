/**
 * Recipes: a batch of ingredients is summed field by field, divided into the portions the
 * batch yields, and scaled to the number of portions asked for.
 */
module RecipeService {
  import opened Results
  import opened Nutrition
  import opened Models
  import opened Store
  import FoodService

  /** The mass of a list of ingredients: each resolves to its grams, one naming no food to 0 g. */
  function IngredientMass(db: Db, ingredients: seq<RecipeIngredient>): real {
    if ingredients == [] then 0.0
    else
      var last := ingredients[|ingredients| - 1];
      IngredientMass(db, ingredients[..|ingredients| - 1])
      + (if last.foodId in db.foods then FoodService.GramsForFood(db, last.foodId, last.quantity, last.unitName) else 0.0)
  }

  /** The batch totals: the field-wise sum of each ingredient's food nutrition, in list order. */
  function BatchTotals(db: Db, ingredients: seq<RecipeIngredient>): NutritionPerServing {
    if ingredients == [] then Zero()
    else
      var last := ingredients[|ingredients| - 1];
      Add(BatchTotals(db, ingredients[..|ingredients| - 1]),
          FoodService.CalculateNutrition(db, last.foodId, last.quantity, last.unitName))
  }

  /** The batch's mass is the total mass of its ingredients. */
  lemma {:induction false} BatchWeightIsMass(db: Db, ingredients: seq<RecipeIngredient>)
    ensures BatchTotals(db, ingredients).weightGrams == IngredientMass(db, ingredients)
    decreases |ingredients|
  {
    if ingredients != [] {
      BatchWeightIsMass(db, ingredients[..|ingredients| - 1]);
    }
  }

  /** One portion of a batch: every field, the mass included, divided by the portion count. */
  function PerPortion(total: NutritionPerServing, portions: int): NutritionPerServing
    requires portions != 0
  {
    var p := portions as real;
    NutritionPerServing(
      total.calories / p, total.proteins / p, total.carbs / p, total.fats / p, total.weightGrams / p,
      total.saturatedFats / p, total.transFats / p, total.fiber / p, total.sodium / p, total.sugar / p)
  }

  /** Taking `portions` shares of one portion rebuilds the whole batch. */
  lemma PortionsRebuildBatch(total: NutritionPerServing, portions: int)
    requires portions != 0
    ensures Scale(PerPortion(total, portions), portions as real) == total
  {
    var p := portions as real;
    var r := Scale(PerPortion(total, portions), p);
    assert r.calories == total.calories && r.proteins == total.proteins;
    assert r.carbs == total.carbs && r.fats == total.fats && r.weightGrams == total.weightGrams;
    assert r.saturatedFats == total.saturatedFats && r.transFats == total.transFats;
    assert r.fiber == total.fiber && r.sodium == total.sodium && r.sugar == total.sugar;
  }

  /**
   * `quantity` portions of a batch: the target mass is the weight per portion times the
   * quantity; a target of at most zero gives the zero result; otherwise each per-portion
   * nutrient is scaled by target/weight-per-portion and the mass is the target.
   */
  function Portions(total: NutritionPerServing, portions: int, quantity: real): (r: NutritionPerServing)
    requires portions != 0
    ensures (total.weightGrams / portions as real) * quantity <= 0.0 ==> r == Zero()
    ensures (total.weightGrams / portions as real) * quantity > 0.0 ==>
      r.weightGrams == (total.weightGrams / portions as real) * quantity
  {
    var weightPerPortion := total.weightGrams / portions as real;
    var grams := weightPerPortion * quantity;
    if grams <= 0.0 then Zero()
    else
      var ratio := grams / weightPerPortion;
      Scale(PerPortion(total, portions), ratio).(weightGrams := grams)
  }

  /**
   * `RecipeService.calculate_nutrition`: a missing recipe or one without ingredients gives
   * the zero result; a recipe with ingredients and a portion count of zero raises; otherwise
   * the batch is divided into portions and scaled to `quantity`. `unitName` is not used.
   */
  function RecipeNutrition(db: Db, recipeId: int, quantity: real, unitName: string): (r: Result<NutritionPerServing>)
    ensures recipeId !in db.recipes ==> r == Ok(Zero())
    ensures recipeId in db.recipes && IngredientsOf(db.recipeIngredients, recipeId) == [] ==> r == Ok(Zero())
    ensures r.Err? <==>
      recipeId in db.recipes && IngredientsOf(db.recipeIngredients, recipeId) != []
      && db.recipes[recipeId].portionsYield == 0
    ensures r.Err? ==> r.failure == ZeroDivisionError
  {
    if recipeId !in db.recipes then Ok(Zero())
    else
      var ingredients := IngredientsOf(db.recipeIngredients, recipeId);
      if ingredients == [] then Ok(Zero())
      else if db.recipes[recipeId].portionsYield == 0 then Err(ZeroDivisionError)
      else Ok(Portions(BatchTotals(db, ingredients), db.recipes[recipeId].portionsYield, quantity))
  }

  /**
   * `RecipeService.calculate_nutrition` as the loop the source runs: ten running totals, one
   * per field, then the division into portions.
   */
  method CalculateNutrition(s: Session, recipeId: int, quantity: real := 1.0, unitName: string := "portion")
    returns (r: Result<NutritionPerServing>)
    ensures r == RecipeNutrition(s.Tables(), recipeId, quantity, unitName)
  {
    if recipeId !in s.recipes {
      return Ok(Zero());
    }
    var recipe := s.recipes[recipeId];
    var ingredients := IngredientsOf(s.recipeIngredients, recipeId);
    if |ingredients| == 0 {
      return Ok(Zero());
    }
    var db := s.Tables();
    var totalCal, totalProt, totalCarb, totalFat, totalW := 0.0, 0.0, 0.0, 0.0, 0.0;
    var totalSat, totalTrans, totalFib, totalSod, totalSug := 0.0, 0.0, 0.0, 0.0, 0.0;
    var i := 0;
    while i < |ingredients|
      invariant 0 <= i <= |ingredients|
      invariant totalCal == BatchTotals(db, ingredients[..i]).calories
      invariant totalProt == BatchTotals(db, ingredients[..i]).proteins
      invariant totalCarb == BatchTotals(db, ingredients[..i]).carbs
      invariant totalFat == BatchTotals(db, ingredients[..i]).fats
      invariant totalW == BatchTotals(db, ingredients[..i]).weightGrams
      invariant totalSat == BatchTotals(db, ingredients[..i]).saturatedFats
      invariant totalTrans == BatchTotals(db, ingredients[..i]).transFats
      invariant totalFib == BatchTotals(db, ingredients[..i]).fiber
      invariant totalSod == BatchTotals(db, ingredients[..i]).sodium
      invariant totalSug == BatchTotals(db, ingredients[..i]).sugar
    {
      var ing := ingredients[i];
      var n := FoodService.CalculateNutrition(db, ing.foodId, ing.quantity, ing.unitName);
      totalCal := totalCal + n.calories;
      totalProt := totalProt + n.proteins;
      totalCarb := totalCarb + n.carbs;
      totalFat := totalFat + n.fats;
      totalW := totalW + n.weightGrams;
      totalSat := totalSat + n.saturatedFats;
      totalTrans := totalTrans + n.transFats;
      totalFib := totalFib + n.fiber;
      totalSod := totalSod + n.sodium;
      totalSug := totalSug + n.sugar;
      assert ingredients[..i + 1][..i] == ingredients[..i];
      i := i + 1;
    }
    assert ingredients[..i] == ingredients;
    if recipe.portionsYield == 0 {
      return Err(ZeroDivisionError);
    }
    var totals := NutritionPerServing(totalCal, totalProt, totalCarb, totalFat, totalW,
                                      totalSat, totalTrans, totalFib, totalSod, totalSug);
    r := Ok(Portions(totals, recipe.portionsYield, quantity));
  }

  // ---------------------------------------------------------------------------------------
  // Properties

  /** Batch totals are additive over any split of the ingredient list. */
  lemma {:induction false} BatchTotalsAppend(db: Db, a: seq<RecipeIngredient>, b: seq<RecipeIngredient>)
    ensures BatchTotals(db, a + b) == Add(BatchTotals(db, a), BatchTotals(db, b))
    decreases |b|
  {
    if b == [] {
      assert a + b == a;
      AddZero(BatchTotals(db, a));
    } else {
      var last := b[|b| - 1];
      var n := FoodService.CalculateNutrition(db, last.foodId, last.quantity, last.unitName);
      assert (a + b)[..|a + b| - 1] == a + b[..|b| - 1];
      BatchTotalsAppend(db, a, b[..|b| - 1]);
      AddAssociates(BatchTotals(db, a), BatchTotals(db, b[..|b| - 1]), n);
    }
  }

  /** The batch totals read nothing of the tables but the foods and their unit rows. */
  lemma {:induction false} BatchTotalsFrame(db: Db, db': Db, ingredients: seq<RecipeIngredient>)
    requires db.foods == db'.foods && db.foodUnits == db'.foodUnits
    ensures BatchTotals(db, ingredients) == BatchTotals(db', ingredients)
    decreases |ingredients|
  {
    if ingredients != [] {
      var last := ingredients[|ingredients| - 1];
      BatchTotalsFrame(db, db', ingredients[..|ingredients| - 1]);
      FoodService.CalculateNutritionFrame(db, db', last.foodId, last.quantity, last.unitName);
    }
  }

  /** A recipe's result reads nothing but the foods, units, recipes and ingredient rows. */
  lemma RecipeNutritionFrame(db: Db, db': Db, recipeId: int, quantity: real, unitName: string)
    requires db.foods == db'.foods && db.foodUnits == db'.foodUnits
    requires db.recipes == db'.recipes && db.recipeIngredients == db'.recipeIngredients
    ensures RecipeNutrition(db, recipeId, quantity, unitName) == RecipeNutrition(db', recipeId, quantity, unitName)
  {
    BatchTotalsFrame(db, db', IngredientsOf(db.recipeIngredients, recipeId));
  }

  lemma RatioIsQuantity(weightPerPortion: real, quantity: real)
    requires weightPerPortion * quantity > 0.0
    ensures weightPerPortion != 0.0 && (weightPerPortion * quantity) / weightPerPortion == quantity
  {
  }

  lemma UpdateSameWeight(n: NutritionPerServing, grams: real)
    requires n.weightGrams == grams
    ensures n.(weightGrams := grams) == n
  {
  }

  /**
   * When the target mass is positive the scaling ratio is the quantity itself, so the result
   * is one portion scaled by the quantity, the mass included.
   */
  lemma PortionsClosedForm(total: NutritionPerServing, portions: int, quantity: real)
    requires portions != 0
    requires (total.weightGrams / portions as real) * quantity > 0.0
    ensures Portions(total, portions, quantity) == Scale(PerPortion(total, portions), quantity)
  {
    var weightPerPortion := total.weightGrams / portions as real;
    var grams := weightPerPortion * quantity;
    var ratio := grams / weightPerPortion;
    var onePortion := PerPortion(total, portions);
    RatioIsQuantity(weightPerPortion, quantity);
    var r := Portions(total, portions, quantity);
    assert r.weightGrams == grams;
    assert r.calories == Scale(onePortion, ratio).calories;
    assert r.proteins == Scale(onePortion, ratio).proteins;
    assert r.carbs == Scale(onePortion, ratio).carbs;
    assert r.fats == Scale(onePortion, ratio).fats;
    assert r.saturatedFats == Scale(onePortion, ratio).saturatedFats;
    assert r.transFats == Scale(onePortion, ratio).transFats;
    assert r.fiber == Scale(onePortion, ratio).fiber;
    assert r.sodium == Scale(onePortion, ratio).sodium;
    assert r.sugar == Scale(onePortion, ratio).sugar;
    assert r == Scale(onePortion, ratio).(weightGrams := grams);
    assert Scale(onePortion, ratio) == Scale(onePortion, quantity);
    assert Scale(onePortion, quantity).weightGrams == grams;
    UpdateSameWeight(Scale(onePortion, quantity), grams);
  }

  /** One portion of a batch with positive weight is exactly the batch divided by the portion count. */
  lemma OnePortionIsShare(total: NutritionPerServing, portions: int)
    requires portions != 0
    requires total.weightGrams / portions as real > 0.0
    ensures Portions(total, portions, 1.0) == PerPortion(total, portions)
  {
    PortionsClosedForm(total, portions, 1.0);
    ScaleUnit(PerPortion(total, portions));
  }

  lemma DoublePositive(weightPerPortion: real, quantity: real)
    requires weightPerPortion * quantity > 0.0
    ensures weightPerPortion * (2.0 * quantity) > 0.0
  {
  }

  /** Asking for twice the portions doubles every field. */
  lemma PortionsDouble(total: NutritionPerServing, portions: int, quantity: real)
    requires portions != 0
    requires (total.weightGrams / portions as real) * quantity > 0.0
    ensures Portions(total, portions, 2.0 * quantity)
         == Add(Portions(total, portions, quantity), Portions(total, portions, quantity))
  {
    DoublePositive(total.weightGrams / portions as real, quantity);
    PortionsClosedForm(total, portions, quantity);
    PortionsClosedForm(total, portions, 2.0 * quantity);
    ScaleDoubles(PerPortion(total, portions), quantity);
  }

  /**
   * A recipe asked for one portion gives its batch divided by the portion count, so the
   * mass is the batch mass over the portion count. For a batch whose portions weigh nothing
   * (or less) the source returns the zero result instead, as the ensures of `Portions` states.
   */
  lemma RecipePortionIsShare(db: Db, recipeId: int, unitName: string)
    requires recipeId in db.recipes && db.recipes[recipeId].portionsYield != 0
    requires BatchTotals(db, IngredientsOf(db.recipeIngredients, recipeId)).weightGrams
             / db.recipes[recipeId].portionsYield as real > 0.0
    ensures RecipeNutrition(db, recipeId, 1.0, unitName)
         == Ok(PerPortion(BatchTotals(db, IngredientsOf(db.recipeIngredients, recipeId)),
                          db.recipes[recipeId].portionsYield))
  {
    var ingredients := IngredientsOf(db.recipeIngredients, recipeId);
    assert ingredients != [];
    OnePortionIsShare(BatchTotals(db, ingredients), db.recipes[recipeId].portionsYield);
  }

  /** A recipe with ingredients and a non-zero portion count gives its batch in portions. */
  lemma RecipeIsPortions(db: Db, recipeId: int, quantity: real, unitName: string)
    requires recipeId in db.recipes && db.recipes[recipeId].portionsYield != 0
    requires IngredientsOf(db.recipeIngredients, recipeId) != []
    ensures RecipeNutrition(db, recipeId, quantity, unitName)
         == Ok(Portions(BatchTotals(db, IngredientsOf(db.recipeIngredients, recipeId)),
                        db.recipes[recipeId].portionsYield, quantity))
  {
  }

  /** A target mass of at most zero gives the zero result for twice the quantity too. */
  lemma PortionsDoubleZero(total: NutritionPerServing, portions: int, quantity: real)
    requires portions != 0
    requires (total.weightGrams / portions as real) * quantity <= 0.0
    ensures Portions(total, portions, quantity) == Zero()
    ensures Portions(total, portions, 2.0 * quantity) == Zero()
  {
    NonPositiveDouble(total.weightGrams / portions as real, quantity);
  }

  /** Asking for twice the portions doubles every field, the zero result included. */
  lemma PortionsAlwaysDouble(total: NutritionPerServing, portions: int, quantity: real)
    requires portions != 0
    ensures Portions(total, portions, 2.0 * quantity)
         == Add(Portions(total, portions, quantity), Portions(total, portions, quantity))
  {
    if (total.weightGrams / portions as real) * quantity > 0.0 {
      PortionsDouble(total, portions, quantity);
    } else {
      PortionsDoubleZero(total, portions, quantity);
      AddZero(Zero());
    }
  }

  /**
   * For a recipe that does not raise, doubling the quantity doubles every field: a target
   * mass of at most zero stays at most zero and gives the zero result for both quantities.
   */
  lemma RecipeDoubles(db: Db, recipeId: int, quantity: real, unitName: string)
    requires recipeId in db.recipes && db.recipes[recipeId].portionsYield != 0
    ensures RecipeNutrition(db, recipeId, quantity, unitName).Ok?
    ensures RecipeNutrition(db, recipeId, 2.0 * quantity, unitName)
         == Ok(Add(RecipeNutrition(db, recipeId, quantity, unitName).value,
                   RecipeNutrition(db, recipeId, quantity, unitName).value))
  {
    var ingredients := IngredientsOf(db.recipeIngredients, recipeId);
    var once := RecipeNutrition(db, recipeId, quantity, unitName);
    var twice := RecipeNutrition(db, recipeId, 2.0 * quantity, unitName);
    if ingredients == [] {
      AddZero(Zero());
      assert once == Ok(Zero()) && twice == Ok(Zero());
    } else {
      var total := BatchTotals(db, ingredients);
      var p := db.recipes[recipeId].portionsYield;
      RecipeIsPortions(db, recipeId, quantity, unitName);
      RecipeIsPortions(db, recipeId, 2.0 * quantity, unitName);
      PortionsAlwaysDouble(total, p, quantity);
      assert once == Ok(Portions(total, p, quantity));
      assert twice == Ok(Portions(total, p, 2.0 * quantity));
    }
    assert twice == Ok(Add(once.value, once.value));
  }

  lemma NonPositiveDouble(weightPerPortion: real, quantity: real)
    requires weightPerPortion * quantity <= 0.0
    ensures weightPerPortion * (2.0 * quantity) <= 0.0
  {
  }

  /** The unit name passed in never changes the result. */
  lemma UnitNameIgnored(db: Db, recipeId: int, quantity: real, a: string, b: string)
    ensures RecipeNutrition(db, recipeId, quantity, a) == RecipeNutrition(db, recipeId, quantity, b)
  {
  }

  // ---------------------------------------------------------------------------------------
  // Writes

  /** `RecipeService.create`: insert a recipe under the next key; the portion count is not checked. */
  method Create(s: Session, name: string, portionsYield: int) returns (id: int)
    requires s.Valid()
    modifies s`recipes, s`nextRecipeId
    ensures s.Valid()
    ensures id == old(s.nextRecipeId) && id !in old(s.recipes)
    ensures s.recipes == old(s.recipes)[id := Recipe(name, portionsYield)]
    ensures s.nextRecipeId == id + 1
  {
    id := s.nextRecipeId;
    s.recipes := s.recipes[id := Recipe(name, portionsYield)];
    s.nextRecipeId := id + 1;
  }

  /** `RecipeService.add_ingredient`: append one ingredient row; the references are not checked. */
  method AddIngredient(s: Session, recipeId: int, foodId: int, quantity: real, unitName: string)
    returns (ing: RecipeIngredient)
    requires s.Valid()
    modifies s`recipeIngredients
    ensures s.Valid()
    ensures ing == RecipeIngredient(recipeId, foodId, quantity, unitName)
    ensures s.recipeIngredients == old(s.recipeIngredients) + [ing]
    ensures IngredientsOf(s.recipeIngredients, recipeId) == IngredientsOf(old(s.recipeIngredients), recipeId) + [ing]
  {
    ing := RecipeIngredient(recipeId, foodId, quantity, unitName);
    IngredientsOfAppend(s.recipeIngredients, ing, recipeId);
    s.recipeIngredients := s.recipeIngredients + [ing];
  }

  /** Adding an ingredient adds that food's nutrition to the recipe's batch totals. */
  lemma AddedIngredientCounts(db: Db, g: RecipeIngredient)
    ensures BatchTotals(db.(recipeIngredients := db.recipeIngredients + [g]),
                        IngredientsOf(db.recipeIngredients + [g], g.recipeId))
         == Add(BatchTotals(db, IngredientsOf(db.recipeIngredients, g.recipeId)),
                FoodService.CalculateNutrition(db, g.foodId, g.quantity, g.unitName))
  {
    var db' := db.(recipeIngredients := db.recipeIngredients + [g]);
    var before := IngredientsOf(db.recipeIngredients, g.recipeId);
    IngredientsOfAppend(db.recipeIngredients, g, g.recipeId);
    BatchTotalsFrame(db, db', before + [g]);
    assert (before + [g])[..|before + [g]| - 1] == before;
  }
}

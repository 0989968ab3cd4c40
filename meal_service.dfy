/**
 * Meals: the nutrition of a meal is the field-wise sum over its items, each item resolved
 * through the food or the recipe it names.
 */
module MealService {
  import opened Results
  import opened Nutrition
  import opened Models
  import opened Store
  import FoodService
  import RecipeService

  /** Where an item's nutrition comes from. */
  datatype Route = ViaFood(foodId: int) | ViaRecipe(recipeId: int) | Skip

  /**
   * The dispatch tests the references for truth, not for presence: a reference to id 0
   * counts as absent, so an item whose only reference is 0 is skipped.
   */
  function RouteOf(item: MealItem): (r: Route)
    ensures r.ViaFood? <==> item.foodId.Some? && item.foodId.value != 0
    ensures r.ViaFood? ==> r.foodId == item.foodId.value
    ensures r.ViaRecipe? <==> !(item.foodId.Some? && item.foodId.value != 0) && item.recipeId.Some? && item.recipeId.value != 0
    ensures r.ViaRecipe? ==> r.recipeId == item.recipeId.value
  {
    if item.foodId.Some? && item.foodId.value != 0 then ViaFood(item.foodId.value)
    else if item.recipeId.Some? && item.recipeId.value != 0 then ViaRecipe(item.recipeId.value)
    else Skip
  }

  /**
   * What one item contributes: nothing when it is skipped, otherwise the nutrition of its
   * food, or the nutrition (or the failure) of its recipe, for the item's quantity and unit.
   */
  function Contribution(db: Db, item: MealItem): (c: Option<Result<NutritionPerServing>>)
    ensures c.None? <==> RouteOf(item) == Skip
    ensures RouteOf(item).ViaFood? ==>
      c == Some(Ok(FoodService.CalculateNutrition(db, RouteOf(item).foodId, item.quantity, item.unitName)))
    ensures RouteOf(item).ViaRecipe? ==>
      c == Some(RecipeService.RecipeNutrition(db, RouteOf(item).recipeId, item.quantity, item.unitName))
  {
    match RouteOf(item)
    case Skip => None
    case ViaFood(id) => Some(Ok(FoodService.CalculateNutrition(db, id, item.quantity, item.unitName)))
    case ViaRecipe(id) => Some(RecipeService.RecipeNutrition(db, id, item.quantity, item.unitName))
  }

  /** The dispatch of one item as the service runs it, through the recipe service's own loop. */
  method ItemContribution(s: Session, item: MealItem) returns (c: Option<Result<NutritionPerServing>>)
    ensures c == Contribution(s.Tables(), item)
  {
    if item.foodId.Some? && item.foodId.value != 0 {
      var n := FoodService.CalculateNutrition(s.Tables(), item.foodId.value, item.quantity, item.unitName);
      return Some(Ok(n));
    } else if item.recipeId.Some? && item.recipeId.value != 0 {
      var m := RecipeService.CalculateNutrition(s, item.recipeId.value, item.quantity, item.unitName);
      return Some(m);
    }
    return None;
  }

  /**
   * One step of the running totals: a failure already met stays; otherwise a food or recipe
   * item adds its nutrition, a skipped item adds nothing, and a recipe that fails stops the sum.
   */
  function Extend(db: Db, acc: Result<NutritionPerServing>, item: MealItem): (r: Result<NutritionPerServing>)
    ensures acc.Err? ==> r == acc
    ensures RouteOf(item) == Skip ==> r == acc
  {
    match acc
    case Err(f) => Err(f)
    case Ok(sum) =>
      match Contribution(db, item)
      case None => Ok(sum)
      case Some(Err(f)) => Err(f)
      case Some(Ok(n)) => Ok(Add(sum, n))
  }

  /** The running totals over a list of items, in list order, starting from zero. */
  function MealTotals(db: Db, items: seq<MealItem>): (r: Result<NutritionPerServing>)
    ensures r.Err? ==> r.failure == ZeroDivisionError
  {
    if items == [] then Ok(Zero())
    else Extend(db, MealTotals(db, items[..|items| - 1]), items[|items| - 1])
  }

  /** The totals over one more item of a list extend the totals over the items before it. */
  lemma MealTotalsStep(db: Db, items: seq<MealItem>, i: nat)
    requires i < |items|
    ensures MealTotals(db, items[..i + 1]) == Extend(db, MealTotals(db, items[..i]), items[i])
  {
    assert items[..i + 1][..i] == items[..i];
  }

  /** `MealService.calculate_nutrition`: a missing meal or one without items gives the zero result. */
  function MealNutrition(db: Db, mealId: int): (r: Result<NutritionPerServing>)
    ensures mealId !in db.meals ==> r == Ok(Zero())
    ensures mealId in db.meals && ItemsOf(db.mealItems, mealId) == [] ==> r == Ok(Zero())
    ensures mealId in db.meals ==> r == MealTotals(db, ItemsOf(db.mealItems, mealId))
    ensures r.Err? ==> r.failure == ZeroDivisionError
  {
    if mealId !in db.meals then Ok(Zero())
    else
      var items := ItemsOf(db.mealItems, mealId);
      if items == [] then Ok(Zero()) else MealTotals(db, items)
  }

  /** `MealService.calculate_nutrition` as the loop the source runs, with ten running totals. */
  method CalculateNutrition(s: Session, mealId: int) returns (r: Result<NutritionPerServing>)
    ensures r == MealNutrition(s.Tables(), mealId)
  {
    if mealId !in s.meals {
      return Ok(Zero());
    }
    var items := ItemsOf(s.mealItems, mealId);
    if |items| == 0 {
      return Ok(Zero());
    }
    var db := s.Tables();
    var totalCal, totalProt, totalCarb, totalFat, totalW := 0.0, 0.0, 0.0, 0.0, 0.0;
    var totalSat, totalTrans, totalFib, totalSod, totalSug := 0.0, 0.0, 0.0, 0.0, 0.0;
    for i := 0 to |items|
      invariant MealTotals(db, items[..i]).Ok?
      invariant totalCal == MealTotals(db, items[..i]).value.calories
      invariant totalProt == MealTotals(db, items[..i]).value.proteins
      invariant totalCarb == MealTotals(db, items[..i]).value.carbs
      invariant totalFat == MealTotals(db, items[..i]).value.fats
      invariant totalW == MealTotals(db, items[..i]).value.weightGrams
      invariant totalSat == MealTotals(db, items[..i]).value.saturatedFats
      invariant totalTrans == MealTotals(db, items[..i]).value.transFats
      invariant totalFib == MealTotals(db, items[..i]).value.fiber
      invariant totalSod == MealTotals(db, items[..i]).value.sodium
      invariant totalSug == MealTotals(db, items[..i]).value.sugar
    {
      var prefix := MealTotals(db, items[..i]);
      MealTotalsStep(db, items, i);
      var c := ItemContribution(s, items[i]);
      if c.None? {
        continue;
      }
      if c.value.Err? {
        FailureSticks(db, items, i + 1);
        return c.value;
      }
      var n := c.value.value;
      totalCal := totalCal + n.calories;
      totalProt := totalProt + n.proteins;
      totalCarb := totalCarb + n.carbs;
      totalFat := totalFat + n.fats;
      totalW := totalW + n.weightGrams;
      totalSat := totalSat + n.saturatedFats;
      totalTrans := totalTrans + n.transFats;
      totalFib := totalFib + n.fiber;
      totalSod := totalSod + n.sodium;
      totalSug := totalSug + n.sugar;
    }
    assert items[..|items|] == items;
    r := Ok(NutritionPerServing(totalCal, totalProt, totalCarb, totalFat, totalW,
                                totalSat, totalTrans, totalFib, totalSod, totalSug));
  }

  // ---------------------------------------------------------------------------------------
  // Properties

  /** Sums of two partial results: the first failure wins, otherwise the totals add. */
  function Combine(a: Result<NutritionPerServing>, b: Result<NutritionPerServing>): Result<NutritionPerServing> {
    if a.Err? then a else if b.Err? then b else Ok(Add(a.value, b.value))
  }

  /** Meal totals over a split list are the combination of the totals of the two parts. */
  lemma {:induction false} MealTotalsAppend(db: Db, a: seq<MealItem>, b: seq<MealItem>)
    ensures MealTotals(db, a + b) == Combine(MealTotals(db, a), MealTotals(db, b))
    decreases |b|
  {
    if b == [] {
      assert a + b == a;
      if MealTotals(db, a).Ok? {
        AddZero(MealTotals(db, a).value);
      }
    } else {
      var init := b[..|b| - 1];
      assert (a + b)[..|a + b| - 1] == a + init;
      assert (a + b)[|a + b| - 1] == b[|b| - 1];
      MealTotalsAppend(db, a, init);
      if MealTotals(db, a).Ok? && MealTotals(db, init).Ok? {
        var last := b[|b| - 1];
        match RouteOf(last)
        case Skip =>
        case ViaFood(id) =>
          AddAssociates(MealTotals(db, a).value, MealTotals(db, init).value,
                        FoodService.CalculateNutrition(db, id, last.quantity, last.unitName));
        case ViaRecipe(id) =>
          var n := RecipeService.RecipeNutrition(db, id, last.quantity, last.unitName);
          if n.Ok? {
            AddAssociates(MealTotals(db, a).value, MealTotals(db, init).value, n.value);
          }
      }
    }
  }

  /** An item that references neither a food nor a recipe can be removed from anywhere without effect. */
  lemma SkippedItemIgnored(db: Db, a: seq<MealItem>, x: MealItem, b: seq<MealItem>)
    requires RouteOf(x) == Skip
    ensures MealTotals(db, a + [x] + b) == MealTotals(db, a + b)
  {
    assert [x][..0] == [];
    assert MealTotals(db, [x]) == Ok(Zero());
    MealTotalsAppend(db, a, [x]);
    if MealTotals(db, a).Ok? {
      AddZero(MealTotals(db, a).value);
    }
    MealTotalsAppend(db, a + [x], b);
    MealTotalsAppend(db, a, b);
  }

  /**
   * What a single item adds to a meal: nothing when it is skipped, its food's nutrition when
   * it goes through a food, and its recipe's nutrition, or the recipe's failure, otherwise.
   */
  lemma SingleItemTotals(db: Db, x: MealItem)
    ensures RouteOf(x) == Skip ==> MealTotals(db, [x]) == Ok(Zero())
    ensures RouteOf(x).ViaFood? ==>
      MealTotals(db, [x]) == Ok(FoodService.CalculateNutrition(db, RouteOf(x).foodId, x.quantity, x.unitName))
    ensures RouteOf(x).ViaRecipe? ==>
      MealTotals(db, [x]) == RecipeService.RecipeNutrition(db, RouteOf(x).recipeId, x.quantity, x.unitName)
  {
    var items := [x];
    MealTotalsStep(db, items, 0);
    assert items[..0] == [] && items[..1] == items;
    assert MealTotals(db, items) == Extend(db, Ok(Zero()), x);
    var c := Contribution(db, x);
    if c.Some? && c.value.Ok? {
      AddZero(c.value.value);
    }
  }

  /**
   * The dispatch reads references by truth: a food reference to id 0 is the same as none, so
   * the item goes through its recipe, or is skipped.
   */
  lemma ZeroFoodIsAbsent(db: Db, x: MealItem)
    requires x.foodId == Some(0)
    ensures MealTotals(db, [x]) == MealTotals(db, [x.(foodId := None)])
  {
    SingleItemTotals(db, x);
    SingleItemTotals(db, x.(foodId := None));
  }

  /** The order of a meal's items does not change its result. */
  lemma MealOrderIrrelevant(db: Db, a: seq<MealItem>, b: seq<MealItem>)
    ensures MealTotals(db, a + b) == MealTotals(db, b + a)
  {
    MealTotalsAppend(db, a, b);
    MealTotalsAppend(db, b, a);
    if MealTotals(db, a).Ok? && MealTotals(db, b).Ok? {
      AddCommutes(MealTotals(db, a).value, MealTotals(db, b).value);
    }
  }

  /** A meal fails exactly when one of its items routes to a recipe whose result fails. */
  lemma {:induction false} MealFailsIff(db: Db, items: seq<MealItem>)
    ensures MealTotals(db, items).Err? <==>
      exists i :: 0 <= i < |items| && RouteOf(items[i]).ViaRecipe?
        && RecipeService.RecipeNutrition(db, RouteOf(items[i]).recipeId, items[i].quantity, items[i].unitName).Err?
    decreases |items|
  {
    if items != [] {
      var init := items[..|items| - 1];
      MealFailsIff(db, init);
      forall i | 0 <= i < |init| ensures items[i] == init[i] { }
    }
  }

  /** Once a prefix of the items fails, the whole list fails the same way. */
  lemma FailureSticks(db: Db, items: seq<MealItem>, k: nat)
    requires k <= |items| && MealTotals(db, items[..k]).Err?
    ensures MealTotals(db, items) == MealTotals(db, items[..k])
  {
    assert items == items[..k] + items[k..];
    MealTotalsAppend(db, items[..k], items[k..]);
  }

  // ---------------------------------------------------------------------------------------
  // Writes

  /** `MealService.create`: insert a meal under the next key. */
  method Create(s: Session, name: string) returns (id: int)
    requires s.Valid()
    modifies s`meals, s`nextMealId
    ensures s.Valid()
    ensures id == old(s.nextMealId) && id !in old(s.meals)
    ensures s.meals == old(s.meals)[id := Meal(name)]
    ensures s.nextMealId == id + 1
  {
    id := s.nextMealId;
    s.meals := s.meals[id := Meal(name)];
    s.nextMealId := id + 1;
  }

  /**
   * `MealService.add_item`: append an item row; unless exactly one of the two references is
   * given, the CHECK constraint rejects the row and nothing is stored. The referenced rows
   * are not required to exist.
   */
  method AddItem(s: Session, mealId: int, quantity: real, unitName: string, foodId: Option<int>, recipeId: Option<int>)
    returns (r: Result<MealItem>)
    requires s.Valid()
    modifies s`mealItems
    ensures s.Valid()
    ensures r.Err? <==> !MealItem(mealId, foodId, recipeId, quantity, unitName).SingleSource()
    ensures r.Err? ==> r.failure == IntegrityError && s.mealItems == old(s.mealItems)
    ensures r.Ok? ==> r.value == MealItem(mealId, foodId, recipeId, quantity, unitName)
    ensures r.Ok? ==> s.mealItems == old(s.mealItems) + [r.value]
    ensures r.Ok? ==> ItemsOf(s.mealItems, mealId) == ItemsOf(old(s.mealItems), mealId) + [r.value]
  {
    var item := MealItem(mealId, foodId, recipeId, quantity, unitName);
    if !item.SingleSource() {
      return Err(IntegrityError);
    }
    ItemsOfAppend(s.mealItems, item, mealId);
    s.mealItems := s.mealItems + [item];
    r := Ok(item);
  }

  /** A meal's result reads nothing but the foods, units, recipes and ingredient rows. */
  lemma {:induction false} MealTotalsFrame(db: Db, db': Db, items: seq<MealItem>)
    requires db.foods == db'.foods && db.foodUnits == db'.foodUnits
    requires db.recipes == db'.recipes && db.recipeIngredients == db'.recipeIngredients
    ensures MealTotals(db, items) == MealTotals(db', items)
    decreases |items|
  {
    if items != [] {
      var last := items[|items| - 1];
      MealTotalsFrame(db, db', items[..|items| - 1]);
      match RouteOf(last)
      case Skip =>
      case ViaFood(id) => FoodService.CalculateNutritionFrame(db, db', id, last.quantity, last.unitName);
      case ViaRecipe(id) => RecipeService.RecipeNutritionFrame(db, db', id, last.quantity, last.unitName);
    }
  }

  /** Adding an item to a meal combines the meal's previous totals with that item's own. */
  lemma AddedItemCounts(db: Db, x: MealItem)
    ensures MealTotals(db.(mealItems := db.mealItems + [x]), ItemsOf(db.mealItems + [x], x.mealId))
         == Combine(MealTotals(db, ItemsOf(db.mealItems, x.mealId)), MealTotals(db, [x]))
  {
    var db' := db.(mealItems := db.mealItems + [x]);
    var before := ItemsOf(db.mealItems, x.mealId);
    ItemsOfAppend(db.mealItems, x, x.mealId);
    MealTotalsFrame(db, db', before + [x]);
    MealTotalsAppend(db, before, [x]);
  }
}

/**
 * The daily log: a consumption of a food, a recipe or a meal is stored with the grams it
 * resolved to at the time it was logged.
 */
module LogService {
  import opened Results
  import opened Nutrition
  import opened Models
  import opened Store
  import FoodService
  import RecipeService
  import MealService

  /**
   * A request to log a consumption. The kind of thing eaten is carried as its name,
   * "food", "recipe" or "meal"; any other name reaches the service unrecognised.
   */
  datatype DailyLogCreate = DailyLogCreate(
    logDate: Date,
    loggableType: string,
    loggableId: int,
    quantity: real,
    unitName: string)

  /** The three kinds of thing that can be logged. */
  predicate KnownType(loggableType: string) {
    loggableType == "food" || loggableType == "recipe" || loggableType == "meal"
  }

  /**
   * `_resolve_grams`: the mass of what was eaten, read off the nutrition of the food, the
   * recipe or the meal. A meal is always taken whole: its quantity and unit are not passed
   * on. Any other kind resolves to 0 g.
   */
  function ResolvedGrams(db: Db, loggableType: string, loggableId: int, quantity: real, unitName: string): (r: Result<real>)
    ensures loggableType == "food" && loggableId in db.foods ==>
      r == Ok(FoodService.GramsForFood(db, loggableId, quantity, unitName))
    ensures loggableType == "food" && loggableId !in db.foods ==> r == Ok(0.0)
    ensures !KnownType(loggableType) ==> r == Ok(0.0)
    ensures r.Err? <==>
      (loggableType == "recipe" && RecipeService.RecipeNutrition(db, loggableId, quantity, unitName).Err?)
      || (loggableType == "meal" && MealService.MealNutrition(db, loggableId).Err?)
    ensures loggableType == "recipe" && r.Ok? ==>
      r.value == RecipeService.RecipeNutrition(db, loggableId, quantity, unitName).value.weightGrams
    ensures loggableType == "meal" && r.Ok? ==>
      r.value == MealService.MealNutrition(db, loggableId).value.weightGrams
  {
    if loggableType == "food" then
      Ok(FoodService.CalculateNutrition(db, loggableId, quantity, unitName).weightGrams)
    else if loggableType == "recipe" then
      match RecipeService.RecipeNutrition(db, loggableId, quantity, unitName)
      case Err(f) => Err(f)
      case Ok(n) => Ok(n.weightGrams)
    else if loggableType == "meal" then
      match MealService.MealNutrition(db, loggableId)
      case Err(f) => Err(f)
      case Ok(n) => Ok(n.weightGrams)
    else Ok(0.0)
  }

  /** `_resolve_grams` as the service runs it, through the other services' own methods. */
  method ResolveGrams(s: Session, loggableType: string, loggableId: int, quantity: real, unitName: string)
    returns (r: Result<real>)
    ensures r == ResolvedGrams(s.Tables(), loggableType, loggableId, quantity, unitName)
  {
    if loggableType == "food" {
      var n := FoodService.CalculateNutrition(s.Tables(), loggableId, quantity, unitName);
      return Ok(n.weightGrams);
    }
    if loggableType == "recipe" {
      var n := RecipeService.CalculateNutrition(s, loggableId, quantity, unitName);
      if n.Err? {
        return Err(n.failure);
      }
      return Ok(n.value.weightGrams);
    }
    if loggableType == "meal" {
      var n := MealService.CalculateNutrition(s, loggableId);
      if n.Err? {
        return Err(n.failure);
      }
      return Ok(n.value.weightGrams);
    }
    return Ok(0.0);
  }

  /** The row `log_consumption` builds: the one reference the type names carries the id. */
  function NewEntry(data: DailyLogCreate, grams: real): (e: DailyLog)
    ensures e.logDate == data.logDate && e.quantity == data.quantity
    ensures e.unitName == data.unitName && e.grams == grams
    ensures e.foodId == (if data.loggableType == "food" then Some(data.loggableId) else None)
    ensures e.recipeId == (if data.loggableType == "recipe" then Some(data.loggableId) else None)
    ensures e.mealId == (if data.loggableType == "meal" then Some(data.loggableId) else None)
  {
    DailyLog(
      data.logDate,
      if data.loggableType == "food" then Some(data.loggableId) else None,
      if data.loggableType == "recipe" then Some(data.loggableId) else None,
      if data.loggableType == "meal" then Some(data.loggableId) else None,
      data.quantity,
      data.unitName,
      grams)
  }

  /**
   * `log_consumption`: resolve the grams, then store the entry. A failing recipe or meal
   * propagates its failure; an entry that references nothing breaks the CHECK constraint
   * and is not stored.
   */
  method LogConsumption(s: Session, data: DailyLogCreate) returns (r: Result<DailyLog>)
    requires s.Valid()
    modifies s`dailyLogs
    ensures s.Valid()
    ensures var g := ResolvedGrams(old(s.Tables()), data.loggableType, data.loggableId, data.quantity, data.unitName);
      && (g.Err? ==> r == Err(g.failure) && s.dailyLogs == old(s.dailyLogs))
      && (g.Ok? && !KnownType(data.loggableType) ==> r == Err(IntegrityError) && s.dailyLogs == old(s.dailyLogs))
      && (g.Ok? && KnownType(data.loggableType) ==>
            r == Ok(NewEntry(data, g.value)) && s.dailyLogs == old(s.dailyLogs) + [r.value])
  {
    var grams := ResolveGrams(s, data.loggableType, data.loggableId, data.quantity, data.unitName);
    if grams.Err? {
      return Err(grams.failure);
    }
    var foodId := if data.loggableType == "food" then Some(data.loggableId) else None;
    var recipeId := if data.loggableType == "recipe" then Some(data.loggableId) else None;
    var mealId := if data.loggableType == "meal" then Some(data.loggableId) else None;
    var entry := DailyLog(data.logDate, foodId, recipeId, mealId, data.quantity, data.unitName, grams.value);
    EntryIsValidIffKnown(data, grams.value);
    if !entry.SingleLoggable() {
      return Err(IntegrityError);
    }
    s.dailyLogs := s.dailyLogs + [entry];
    r := Ok(entry);
  }

  // ---------------------------------------------------------------------------------------
  // Properties

  /** The entry passes the CHECK constraint exactly when the type is one of the three known kinds. */
  lemma EntryIsValidIffKnown(data: DailyLogCreate, grams: real)
    ensures NewEntry(data, grams).SingleLoggable() <==> KnownType(data.loggableType)
  {
  }

  /** A meal's logged grams do not depend on the quantity or the unit given. */
  lemma MealGramsIgnoreQuantity(db: Db, mealId: int, q1: real, u1: string, q2: real, u2: string)
    ensures ResolvedGrams(db, "meal", mealId, q1, u1) == ResolvedGrams(db, "meal", mealId, q2, u2)
  {
  }
}

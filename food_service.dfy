/**
 * Foods: turning a quantity of some unit into grams, scaling the per-100 g profile to
 * those grams, registering a food from the values printed on its label, and keeping a
 * food's custom units.
 */
module FoodService {
  import opened Results
  import opened Text
  import opened Nutrition
  import opened Models
  import opened Store

  /** The unit names that already are grams, compared after lower-casing. */
  predicate IsGramUnit(unitLower: string) {
    unitLower == "g" || unitLower == "ml"
  }

  /** The first unit in `units` whose lower-cased name is `unitLower`, if any. */
  function FirstMatch(units: seq<FoodUnit>, unitLower: string): (r: Option<nat>)
    ensures r.Some? ==> r.value < |units| && Lower(units[r.value].unitName) == unitLower
    ensures r.Some? ==> forall j :: 0 <= j < r.value ==> Lower(units[j].unitName) != unitLower
    ensures r.None? ==> forall j :: 0 <= j < |units| ==> Lower(units[j].unitName) != unitLower
  {
    if units == [] then None
    else if Lower(units[0].unitName) == unitLower then Some(0)
    else
      match FirstMatch(units[1..], unitLower)
      case None => None
      case Some(k) => Some(k + 1)
  }

  /** The grams one unit weighs for a food with unit rows `units`: the first match, else 100. */
  function GramsPerUnit(units: seq<FoodUnit>, unitLower: string): real
  {
    match FirstMatch(units, unitLower)
    case Some(k) => units[k].grams
    case None => 100.0
  }

  /** `_grams_for_food`: the grams that `quantity` of `unitName` weighs for food `foodId`. */
  function GramsForFood(db: Db, foodId: int, quantity: real, unitName: string): (r: real)
    ensures IsGramUnit(Lower(unitName)) ==> r == quantity
    ensures !IsGramUnit(Lower(unitName)) && foodId !in db.foods ==> r == 0.0
  {
    var unitLower := Lower(unitName);
    if IsGramUnit(unitLower) then quantity
    else if foodId !in db.foods then 0.0
    else quantity * GramsPerUnit(UnitsOf(db.foodUnits, foodId), unitLower)
  }

  /** The food's profile for 100 g, an absent micronutrient counting as zero. */
  function Per100g(food: Food): (r: NutritionPerServing)
    ensures r.weightGrams == 100.0
    ensures r.calories == food.calories100g && r.proteins == food.proteins100g
    ensures r.carbs == food.carbs100g && r.fats == food.fats100g
    ensures r.saturatedFats == food.saturatedFats100g.GetOr(0.0) && r.transFats == food.transFats100g.GetOr(0.0)
    ensures r.fiber == food.fiber100g.GetOr(0.0) && r.sodium == food.sodium100g.GetOr(0.0)
    ensures r.sugar == food.sugar100g.GetOr(0.0)
  {
    NutritionPerServing(
      food.calories100g, food.proteins100g, food.carbs100g, food.fats100g, 100.0,
      food.saturatedFats100g.GetOr(0.0), food.transFats100g.GetOr(0.0), food.fiber100g.GetOr(0.0),
      food.sodium100g.GetOr(0.0), food.sugar100g.GetOr(0.0))
  }

  /**
   * `_nutrition_for_grams`: every nutrient is its per-100 g value times grams/100 and the
   * mass is the grams themselves, so the result is the 100 g profile scaled by grams/100.
   */
  function NutritionForGrams(food: Food, grams: real): (r: NutritionPerServing)
    ensures r.weightGrams == grams
  {
    var ratio := grams / 100.0;
    NutritionPerServing(
      calories := food.calories100g * ratio,
      proteins := food.proteins100g * ratio,
      carbs := food.carbs100g * ratio,
      fats := food.fats100g * ratio,
      weightGrams := grams,
      saturatedFats := food.saturatedFats100g.GetOr(0.0) * ratio,
      transFats := food.transFats100g.GetOr(0.0) * ratio,
      fiber := food.fiber100g.GetOr(0.0) * ratio,
      sodium := food.sodium100g.GetOr(0.0) * ratio,
      sugar := food.sugar100g.GetOr(0.0) * ratio)
  }

  /** `calculate_nutrition`: a missing food gives the zero result; otherwise scale to the resolved grams. */
  function CalculateNutrition(db: Db, foodId: int, quantity: real, unitName: string): (r: NutritionPerServing)
    ensures foodId !in db.foods ==> r == Zero()
    ensures foodId in db.foods ==> r.weightGrams == GramsForFood(db, foodId, quantity, unitName)
  {
    if foodId !in db.foods then Zero()
    else NutritionForGrams(db.foods[foodId], GramsForFood(db, foodId, quantity, unitName))
  }

  /** An existing food's result is its 100 g profile scaled by the resolved grams over 100. */
  lemma CalculateNutritionScales(db: Db, foodId: int, quantity: real, unitName: string)
    requires foodId in db.foods
    ensures CalculateNutrition(db, foodId, quantity, unitName)
         == Scale(Per100g(db.foods[foodId]), GramsForFood(db, foodId, quantity, unitName) / 100.0)
  {
    NutritionForGramsScales(db.foods[foodId], GramsForFood(db, foodId, quantity, unitName));
  }

  /** `_nutrition_for_grams` is the 100 g profile scaled by grams/100. */
  lemma NutritionForGramsScales(food: Food, grams: real)
    ensures NutritionForGrams(food, grams) == Scale(Per100g(food), grams / 100.0)
  {
    var r := NutritionForGrams(food, grams);
    var s := Scale(Per100g(food), grams / 100.0);
    assert r.calories == s.calories && r.proteins == s.proteins;
    assert r.carbs == s.carbs && r.fats == s.fats && r.weightGrams == s.weightGrams;
    assert r.saturatedFats == s.saturatedFats && r.transFats == s.transFats;
    assert r.fiber == s.fiber && r.sodium == s.sodium && r.sugar == s.sugar;
  }

  // ---------------------------------------------------------------------------------------
  // Unit resolution

  /** A unit name that lower-cases to "g" or "ml" weighs the quantity itself, whatever rows exist. */
  lemma GramUnitIsQuantity(db: Db, foodId: int, quantity: real, unitName: string)
    requires IsGramUnit(Lower(unitName))
    ensures GramsForFood(db, foodId, quantity, unitName) == quantity
  {
  }

  /** For any other unit of an existing food, the grams are the quantity times one unit's grams. */
  lemma OtherUnitScales(db: Db, foodId: int, quantity: real, unitName: string)
    requires !IsGramUnit(Lower(unitName)) && foodId in db.foods
    ensures GramsForFood(db, foodId, quantity, unitName)
         == quantity * GramsPerUnit(UnitsOf(db.foodUnits, foodId), Lower(unitName))
  {
  }

  /** The match `FirstMatch` finds is the one before which no name matches. */
  lemma FirstMatchIsFirst(units: seq<FoodUnit>, unitLower: string, k: nat)
    requires k < |units| && Lower(units[k].unitName) == unitLower
    requires forall j :: 0 <= j < k ==> Lower(units[j].unitName) != unitLower
    ensures FirstMatch(units, unitLower) == Some(k)
  {
    var m := FirstMatch(units, unitLower);
    assert m.Some?;
    assert m.value == k;
  }

  /**
   * For any other unit of an existing food, the grams are the quantity times the grams of
   * the first of the food's unit rows whose name matches ignoring case.
   */
  lemma RegisteredUnitResolves(db: Db, foodId: int, quantity: real, unitName: string, k: nat)
    requires !IsGramUnit(Lower(unitName)) && foodId in db.foods
    requires k < |UnitsOf(db.foodUnits, foodId)|
    requires Lower(UnitsOf(db.foodUnits, foodId)[k].unitName) == Lower(unitName)
    requires forall j :: 0 <= j < k ==> Lower(UnitsOf(db.foodUnits, foodId)[j].unitName) != Lower(unitName)
    ensures GramsPerUnit(UnitsOf(db.foodUnits, foodId), Lower(unitName)) == UnitsOf(db.foodUnits, foodId)[k].grams
    ensures GramsForFood(db, foodId, quantity, unitName)
         == quantity * GramsPerUnit(UnitsOf(db.foodUnits, foodId), Lower(unitName))
  {
    var units := UnitsOf(db.foodUnits, foodId);
    assert FirstMatch(units, Lower(unitName)) == Some(k) by {
      FirstMatchIsFirst(units, Lower(unitName), k);
    }
    OtherUnitScales(db, foodId, quantity, unitName);
  }

  /** When no unit row of the food matches, one unit weighs 100 g ("2 scoop" is 200 g). */
  lemma UnknownUnitIsHundredGrams(db: Db, foodId: int, quantity: real, unitName: string)
    requires !IsGramUnit(Lower(unitName)) && foodId in db.foods
    requires forall u :: u in db.foodUnits && u.foodId == foodId ==> Lower(u.unitName) != Lower(unitName)
    ensures GramsPerUnit(UnitsOf(db.foodUnits, foodId), Lower(unitName)) == 100.0
    ensures GramsForFood(db, foodId, quantity, unitName)
         == quantity * GramsPerUnit(UnitsOf(db.foodUnits, foodId), Lower(unitName))
  {
    var units := UnitsOf(db.foodUnits, foodId);
    forall k | 0 <= k < |units|
      ensures Lower(units[k].unitName) != Lower(unitName)
    {
      assert units[k] in units;
    }
    assert FirstMatch(units, Lower(unitName)).None?;
    OtherUnitScales(db, foodId, quantity, unitName);
  }

  /** Unit names are compared ignoring case: two names with the same lower-case form resolve alike. */
  lemma UnitCaseInsensitive(db: Db, foodId: int, quantity: real, a: string, b: string)
    requires Lower(a) == Lower(b)
    ensures GramsForFood(db, foodId, quantity, a) == GramsForFood(db, foodId, quantity, b)
    ensures CalculateNutrition(db, foodId, quantity, a) == CalculateNutrition(db, foodId, quantity, b)
  {
    var g := GramsForFood(db, foodId, quantity, a);
    assert g == GramsForFood(db, foodId, quantity, b);
    if foodId in db.foods {
      assert CalculateNutrition(db, foodId, quantity, a) == NutritionForGrams(db.foods[foodId], g);
      assert CalculateNutrition(db, foodId, quantity, b) == NutritionForGrams(db.foods[foodId], g);
    }
  }

  /** The grams are proportional to the quantity: `quantity` units weigh `quantity` times one unit. */
  lemma GramsProportional(db: Db, foodId: int, quantity: real, unitName: string)
    ensures GramsForFood(db, foodId, quantity, unitName) == quantity * GramsForFood(db, foodId, 1.0, unitName)
  {
    var unitLower := Lower(unitName);
    if !IsGramUnit(unitLower) && foodId in db.foods {
      var g := GramsPerUnit(UnitsOf(db.foodUnits, foodId), unitLower);
      assert GramsForFood(db, foodId, 1.0, unitName) == 1.0 * g;
      assert GramsForFood(db, foodId, quantity, unitName) == quantity * g;
    }
  }

  /** A food's result reads nothing of the tables but the foods and their unit rows. */
  lemma CalculateNutritionFrame(db: Db, db': Db, foodId: int, quantity: real, unitName: string)
    requires db.foods == db'.foods && db.foodUnits == db'.foodUnits
    ensures CalculateNutrition(db, foodId, quantity, unitName) == CalculateNutrition(db', foodId, quantity, unitName)
  {
    assert GramsForFood(db, foodId, quantity, unitName) == GramsForFood(db', foodId, quantity, unitName);
  }

  // ---------------------------------------------------------------------------------------
  // Scaling

  lemma Distributes(x: real, g1: real, g2: real)
    ensures x * ((g1 + g2) / 100.0) == x * (g1 / 100.0) + x * (g2 / 100.0)
  {
  }

  /** The nutrition of a sum of masses is the field-wise sum of their nutrition. */
  lemma NutritionAdditive(food: Food, g1: real, g2: real)
    ensures NutritionForGrams(food, g1 + g2) == Add(NutritionForGrams(food, g1), NutritionForGrams(food, g2))
  {
    var a := NutritionForGrams(food, g1 + g2);
    var b := Add(NutritionForGrams(food, g1), NutritionForGrams(food, g2));
    assert a.calories == b.calories by { Distributes(food.calories100g, g1, g2); }
    assert a.proteins == b.proteins by { Distributes(food.proteins100g, g1, g2); }
    assert a.carbs == b.carbs by { Distributes(food.carbs100g, g1, g2); }
    assert a.fats == b.fats by { Distributes(food.fats100g, g1, g2); }
    assert a.weightGrams == b.weightGrams;
    assert a.saturatedFats == b.saturatedFats by { Distributes(food.saturatedFats100g.GetOr(0.0), g1, g2); }
    assert a.transFats == b.transFats by { Distributes(food.transFats100g.GetOr(0.0), g1, g2); }
    assert a.fiber == b.fiber by { Distributes(food.fiber100g.GetOr(0.0), g1, g2); }
    assert a.sodium == b.sodium by { Distributes(food.sodium100g.GetOr(0.0), g1, g2); }
    assert a.sugar == b.sugar by { Distributes(food.sugar100g.GetOr(0.0), g1, g2); }
  }

  // ---------------------------------------------------------------------------------------
  // Registration

  /** What a user types in to register a food: the label's values for `unitVal` of `unitLabel`. */
  datatype FoodCreate = FoodCreate(
    name: string,
    category: string,
    unitLabel: string,
    unitVal: real,
    calories: real,
    proteins: real,
    carbs: real,
    fats: real,
    saturatedFats: Option<real> := None,
    transFats: Option<real> := None,
    fiber: Option<real> := None,
    sodium: Option<real> := None,
    sugar: Option<real> := None)

  /** An optional label value brought to 100 g; an absent value stays absent. */
  function ScaleOptional(v: Option<real>, ratio: real): Option<real> {
    match v
    case None => None
    case Some(x) => Some(x * ratio)
  }

  /**
   * The food row `create` builds: every value times 100/unit_val (which raises when
   * unit_val is 0), liquid exactly when the label lower-cases to "ml" or "l", and active.
   */
  function NormalizeFood(data: FoodCreate): (r: Result<Food>)
    ensures r.Err? <==> data.unitVal == 0.0
    ensures r.Err? ==> r.failure == ZeroDivisionError
    ensures r.Ok? ==> r.value.name == data.name && r.value.category == data.category && r.value.isActive
    ensures r.Ok? ==> (r.value.isLiquid <==> Lower(data.unitLabel) == "ml" || Lower(data.unitLabel) == "l")
    ensures r.Ok? ==>
      && (r.value.saturatedFats100g.None? <==> data.saturatedFats.None?)
      && (r.value.transFats100g.None? <==> data.transFats.None?)
      && (r.value.fiber100g.None? <==> data.fiber.None?)
      && (r.value.sodium100g.None? <==> data.sodium.None?)
      && (r.value.sugar100g.None? <==> data.sugar.None?)
  {
    var labelLower := Lower(data.unitLabel);
    if data.unitVal == 0.0 then Err(ZeroDivisionError)
    else
      var ratioTo100 := 100.0 / data.unitVal;
      Ok(Food(
        name := data.name,
        category := data.category,
        isLiquid := labelLower == "ml" || labelLower == "l",
        isActive := true,
        calories100g := data.calories * ratioTo100,
        proteins100g := data.proteins * ratioTo100,
        carbs100g := data.carbs * ratioTo100,
        fats100g := data.fats * ratioTo100,
        saturatedFats100g := ScaleOptional(data.saturatedFats, ratioTo100),
        transFats100g := ScaleOptional(data.transFats, ratioTo100),
        fiber100g := ScaleOptional(data.fiber, ratioTo100),
        sodium100g := ScaleOptional(data.sodium, ratioTo100),
        sugar100g := ScaleOptional(data.sugar, ratioTo100)))
  }

  /** The values on the label, as the nutrition of `unitVal` grams (absent ones as zero). */
  function LabelNutrition(data: FoodCreate): NutritionPerServing {
    NutritionPerServing(
      data.calories, data.proteins, data.carbs, data.fats, data.unitVal,
      data.saturatedFats.GetOr(0.0), data.transFats.GetOr(0.0), data.fiber.GetOr(0.0),
      data.sodium.GetOr(0.0), data.sugar.GetOr(0.0))
  }

  lemma Restores(y: real, x: real, u: real)
    requires u != 0.0 && y == x * (100.0 / u)
    ensures y * (u / 100.0) == x
  {
  }

  /** An absent value scales to an absent value, which counts as zero either way. */
  lemma ScaleOptionalGetOr(v: Option<real>, ratio: real)
    ensures ScaleOptional(v, ratio).GetOr(0.0) == v.GetOr(0.0) * ratio
  {
  }

  /** The macronutrients of a food normalised from a label come back at the label's mass. */
  lemma MacrosScaledBack(food: Food, data: FoodCreate)
    requires data.unitVal != 0.0
    requires food.calories100g == data.calories * (100.0 / data.unitVal)
    requires food.proteins100g == data.proteins * (100.0 / data.unitVal)
    requires food.carbs100g == data.carbs * (100.0 / data.unitVal)
    requires food.fats100g == data.fats * (100.0 / data.unitVal)
    ensures food.calories100g * (data.unitVal / 100.0) == data.calories
    ensures food.proteins100g * (data.unitVal / 100.0) == data.proteins
    ensures food.carbs100g * (data.unitVal / 100.0) == data.carbs
    ensures food.fats100g * (data.unitVal / 100.0) == data.fats
  {
    var u := data.unitVal;
    Restores(food.calories100g, data.calories, u);
    Restores(food.proteins100g, data.proteins, u);
    Restores(food.carbs100g, data.carbs, u);
    Restores(food.fats100g, data.fats, u);
  }

  /** The micronutrients come back too, an absent one as zero. */
  lemma MicrosScaledBack(food: Food, data: FoodCreate)
    requires data.unitVal != 0.0
    requires food.saturatedFats100g.GetOr(0.0) == data.saturatedFats.GetOr(0.0) * (100.0 / data.unitVal)
    requires food.transFats100g.GetOr(0.0) == data.transFats.GetOr(0.0) * (100.0 / data.unitVal)
    requires food.fiber100g.GetOr(0.0) == data.fiber.GetOr(0.0) * (100.0 / data.unitVal)
    requires food.sodium100g.GetOr(0.0) == data.sodium.GetOr(0.0) * (100.0 / data.unitVal)
    requires food.sugar100g.GetOr(0.0) == data.sugar.GetOr(0.0) * (100.0 / data.unitVal)
    ensures food.saturatedFats100g.GetOr(0.0) * (data.unitVal / 100.0) == data.saturatedFats.GetOr(0.0)
    ensures food.transFats100g.GetOr(0.0) * (data.unitVal / 100.0) == data.transFats.GetOr(0.0)
    ensures food.fiber100g.GetOr(0.0) * (data.unitVal / 100.0) == data.fiber.GetOr(0.0)
    ensures food.sodium100g.GetOr(0.0) * (data.unitVal / 100.0) == data.sodium.GetOr(0.0)
    ensures food.sugar100g.GetOr(0.0) * (data.unitVal / 100.0) == data.sugar.GetOr(0.0)
  {
    var u := data.unitVal;
    Restores(food.saturatedFats100g.GetOr(0.0), data.saturatedFats.GetOr(0.0), u);
    Restores(food.transFats100g.GetOr(0.0), data.transFats.GetOr(0.0), u);
    Restores(food.fiber100g.GetOr(0.0), data.fiber.GetOr(0.0), u);
    Restores(food.sodium100g.GetOr(0.0), data.sodium.GetOr(0.0), u);
    Restores(food.sugar100g.GetOr(0.0), data.sugar.GetOr(0.0), u);
  }

  /** A food whose values at `unitVal` grams are the label's gives the label's nutrition there. */
  lemma ScaledBack(food: Food, data: FoodCreate)
    requires food.calories100g * (data.unitVal / 100.0) == data.calories
    requires food.proteins100g * (data.unitVal / 100.0) == data.proteins
    requires food.carbs100g * (data.unitVal / 100.0) == data.carbs
    requires food.fats100g * (data.unitVal / 100.0) == data.fats
    requires food.saturatedFats100g.GetOr(0.0) * (data.unitVal / 100.0) == data.saturatedFats.GetOr(0.0)
    requires food.transFats100g.GetOr(0.0) * (data.unitVal / 100.0) == data.transFats.GetOr(0.0)
    requires food.fiber100g.GetOr(0.0) * (data.unitVal / 100.0) == data.fiber.GetOr(0.0)
    requires food.sodium100g.GetOr(0.0) * (data.unitVal / 100.0) == data.sodium.GetOr(0.0)
    requires food.sugar100g.GetOr(0.0) * (data.unitVal / 100.0) == data.sugar.GetOr(0.0)
    ensures NutritionForGrams(food, data.unitVal) == LabelNutrition(data)
  {
  }

  /**
   * Normalising to 100 g and scaling back to the label's own mass gives the label's values:
   * registering a food loses nothing.
   */
  lemma NormalizeRoundTrip(data: FoodCreate)
    requires data.unitVal != 0.0
    ensures NormalizeFood(data).Ok?
    ensures NutritionForGrams(NormalizeFood(data).value, data.unitVal) == LabelNutrition(data)
  {
    var food := NormalizeFood(data).value;
    var ratioTo100 := 100.0 / data.unitVal;
    ScaleOptionalGetOr(data.saturatedFats, ratioTo100);
    ScaleOptionalGetOr(data.transFats, ratioTo100);
    ScaleOptionalGetOr(data.fiber, ratioTo100);
    ScaleOptionalGetOr(data.sodium, ratioTo100);
    ScaleOptionalGetOr(data.sugar, ratioTo100);
    MacrosScaledBack(food, data);
    MicrosScaledBack(food, data);
    ScaledBack(food, data);
  }

  // ---------------------------------------------------------------------------------------
  // The unit table

  /** The position of the unit row of `foodId` named exactly `unitName`, if there is one. */
  function IndexOfUnit(units: seq<FoodUnit>, foodId: int, unitName: string): (r: Option<nat>)
    ensures r.Some? ==> r.value < |units| && units[r.value].foodId == foodId && units[r.value].unitName == unitName
    ensures r.None? ==> forall u :: u in units ==> u.foodId != foodId || u.unitName != unitName
  {
    if units == [] then None
    else if units[0].foodId == foodId && units[0].unitName == unitName then Some(0)
    else
      match IndexOfUnit(units[1..], foodId, unitName)
      case None => None
      case Some(k) => Some(k + 1)
  }

  /** `add_unit` on the table: overwrite the grams of the row with this exact name, else append one. */
  function Upsert(units: seq<FoodUnit>, foodId: int, unitName: string, grams: real): (r: seq<FoodUnit>)
    ensures FoodUnit(foodId, unitName, grams) in r
    ensures forall i :: 0 <= i < |units| && (units[i].foodId != foodId || units[i].unitName != unitName) ==>
      i < |r| && r[i] == units[i]
    ensures |r| == |units| <==> exists u :: u in units && u.foodId == foodId && u.unitName == unitName
    ensures |r| == |units| + 1 <==> forall u :: u in units ==> u.foodId != foodId || u.unitName != unitName
  {
    match IndexOfUnit(units, foodId, unitName)
    case Some(i) =>
      var r := units[i := FoodUnit(foodId, unitName, grams)];
      assert r[i] == FoodUnit(foodId, unitName, grams);
      r
    case None => units + [FoodUnit(foodId, unitName, grams)]
  }

  /**
   * After an upsert the table holds the new row, every row with another (food, name) key as
   * before, and nothing else; the unique key stays unique.
   */
  lemma UpsertRows(units: seq<FoodUnit>, foodId: int, unitName: string, grams: real)
    requires UnitsUnique(units)
    ensures UnitsUnique(Upsert(units, foodId, unitName, grams))
    ensures FoodUnit(foodId, unitName, grams) in Upsert(units, foodId, unitName, grams)
    ensures forall u :: u in Upsert(units, foodId, unitName, grams) <==>
      u == FoodUnit(foodId, unitName, grams) || (u in units && (u.foodId != foodId || u.unitName != unitName))
  {
    var stored := FoodUnit(foodId, unitName, grams);
    var r := Upsert(units, foodId, unitName, grams);
    match IndexOfUnit(units, foodId, unitName)
    case None =>
      assert r == units + [stored];
      assert r[|units|] == stored;
    case Some(i) =>
      assert r == units[i := stored];
      assert r[i] == stored;
      forall u | u in units && (u.foodId != foodId || u.unitName != unitName)
        ensures u in r
      {
        var j :| 0 <= j < |units| && units[j] == u;
        assert r[j] == u;
      }
      forall u | u in r && u != stored
        ensures u in units && (u.foodId != foodId || u.unitName != unitName)
      {
        var j :| 0 <= j < |r| && r[j] == u;
        assert j != i && units[j] == u;
      }
  }

  /**
   * A registered unit resolves to the grams just stored, as long as no other unit row of the
   * food has a name that lower-cases the same way (such a row would be found first or last
   * by the case-insensitive lookup, and the exact-name upsert does not touch it).
   */
  lemma UpsertThenResolve(db: Db, foodId: int, unitName: string, grams: real)
    requires UnitsUnique(db.foodUnits)
    requires forall u :: u in db.foodUnits && u.foodId == foodId && u.unitName != unitName ==>
      Lower(u.unitName) != Lower(unitName)
    ensures GramsPerUnit(UnitsOf(Upsert(db.foodUnits, foodId, unitName, grams), foodId), Lower(unitName)) == grams
  {
    var stored := FoodUnit(foodId, unitName, grams);
    var after := Upsert(db.foodUnits, foodId, unitName, grams);
    UpsertRows(db.foodUnits, foodId, unitName, grams);
    var units := UnitsOf(after, foodId);
    assert stored in units;
    var m := FirstMatch(units, Lower(unitName));
    assert m.Some? by {
      var j :| 0 <= j < |units| && units[j] == stored;
    }
    assert units[m.value] in units;
  }

  /** `FoodService.add_unit`: upsert the (food, unit) row and return it. */
  method AddUnit(s: Session, foodId: int, unitName: string, grams: real) returns (unit: FoodUnit)
    requires s.Valid()
    modifies s`foodUnits
    ensures s.Valid()
    ensures unit == FoodUnit(foodId, unitName, grams)
    ensures s.foodUnits == Upsert(old(s.foodUnits), foodId, unitName, grams)
  {
    UpsertRows(s.foodUnits, foodId, unitName, grams);
    var existing := IndexOfUnit(s.foodUnits, foodId, unitName);
    unit := FoodUnit(foodId, unitName, grams);
    match existing
    case Some(i) =>
      s.foodUnits := s.foodUnits[i := unit];
    case None =>
      s.foodUnits := s.foodUnits + [unit];
  }

  /** The unit row `create` adds for a food registered by a label that is not "g" or "ml". */
  function LabelUnitRows(foodId: int, data: FoodCreate): (r: seq<FoodUnit>)
    ensures r == [] <==> IsGramUnit(Lower(data.unitLabel))
    ensures forall u :: u in r ==> u == FoodUnit(foodId, data.unitLabel, data.unitVal)
    ensures |r| <= 1
  {
    if IsGramUnit(Lower(data.unitLabel)) then [] else [FoodUnit(foodId, data.unitLabel, data.unitVal)]
  }

  /**
   * `FoodService.create`: insert the normalised food under the next key and, for a label that
   * is not already grams, a unit row for the label. A zero unit_val raises before anything is
   * written; a unit row that already exists under the new key (the schema does not stop unit
   * rows naming a food that does not exist yet) violates the unique key. Either failure leaves
   * the tables as they were.
   */
  method Create(s: Session, data: FoodCreate) returns (r: Result<int>)
    requires s.Valid()
    modifies s`foods, s`foodUnits, s`nextFoodId
    ensures s.Valid()
    ensures r == Err(ZeroDivisionError) <==> data.unitVal == 0.0
    ensures r == Err(IntegrityError) <==>
      data.unitVal != 0.0 && |LabelUnitRows(old(s.nextFoodId), data)| == 1
      && IndexOfUnit(old(s.foodUnits), old(s.nextFoodId), data.unitLabel).Some?
    ensures r.Ok? <==>
      data.unitVal != 0.0 && (LabelUnitRows(old(s.nextFoodId), data) == []
                              || IndexOfUnit(old(s.foodUnits), old(s.nextFoodId), data.unitLabel).None?)
    ensures r.Err? ==>
      s.foods == old(s.foods) && s.foodUnits == old(s.foodUnits) && s.nextFoodId == old(s.nextFoodId)
    ensures r.Ok? ==>
      && r.value == old(s.nextFoodId) && r.value !in old(s.foods)
      && s.foods == old(s.foods)[r.value := NormalizeFood(data).value]
      && s.foodUnits == old(s.foodUnits) + LabelUnitRows(r.value, data)
      && s.nextFoodId == r.value + 1
  {
    var normalized := NormalizeFood(data);
    if normalized.Err? {
      return Err(ZeroDivisionError);
    }
    var id := s.nextFoodId;
    var rows := LabelUnitRows(id, data);
    if |rows| == 1 && IndexOfUnit(s.foodUnits, id, data.unitLabel).Some? {
      return Err(IntegrityError);
    }
    UpsertRows(s.foodUnits, id, data.unitLabel, data.unitVal);
    s.foods := s.foods[id := normalized.value];
    s.foodUnits := s.foodUnits + rows;
    s.nextFoodId := id + 1;
    r := Ok(id);
  }
}

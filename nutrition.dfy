/** The immutable result record every nutrition computation returns. */
module Nutrition {

  /**
   * Absolute nutrient amounts together with the mass in grams they belong to.
   * A datatype value never changes once built, as the frozen dataclass promises.
   * The first five fields are positional; the five micronutrients default to 0.
   */
  datatype NutritionPerServing = NutritionPerServing(
    calories: real,
    proteins: real,
    carbs: real,
    fats: real,
    weightGrams: real,
    saturatedFats: real := 0.0,
    transFats: real := 0.0,
    fiber: real := 0.0,
    sodium: real := 0.0,
    sugar: real := 0.0)

  /** The result for "nothing to resolve", built from five positional zeros. */
  function Zero(): (r: NutritionPerServing)
    ensures r.calories == 0.0 && r.proteins == 0.0 && r.carbs == 0.0 && r.fats == 0.0
    ensures r.weightGrams == 0.0
    ensures r.saturatedFats == 0.0 && r.transFats == 0.0 && r.fiber == 0.0
    ensures r.sodium == 0.0 && r.sugar == 0.0
  {
    NutritionPerServing(0.0, 0.0, 0.0, 0.0, 0.0)
  }

  /** Field-by-field sum, as the recipe and meal accumulators compute it. */
  function Add(a: NutritionPerServing, b: NutritionPerServing): NutritionPerServing {
    NutritionPerServing(
      a.calories + b.calories, a.proteins + b.proteins, a.carbs + b.carbs, a.fats + b.fats,
      a.weightGrams + b.weightGrams,
      a.saturatedFats + b.saturatedFats, a.transFats + b.transFats, a.fiber + b.fiber,
      a.sodium + b.sodium, a.sugar + b.sugar)
  }

  /** Every field, the mass included, multiplied by `k` (the source writes `field * ratio`). */
  function Scale(n: NutritionPerServing, k: real): NutritionPerServing {
    NutritionPerServing(
      n.calories * k, n.proteins * k, n.carbs * k, n.fats * k, n.weightGrams * k,
      n.saturatedFats * k, n.transFats * k, n.fiber * k, n.sodium * k, n.sugar * k)
  }

  /** Zero is the identity of the field-wise sum, on either side. */
  lemma AddZero(a: NutritionPerServing)
    ensures Add(a, Zero()) == a && Add(Zero(), a) == a
  {
  }

  /** The order in which two results are summed does not matter. */
  lemma AddCommutes(a: NutritionPerServing, b: NutritionPerServing)
    ensures Add(a, b) == Add(b, a)
  {
  }

  /** Nor does the grouping, so a running total may be split anywhere. */
  lemma AddAssociates(a: NutritionPerServing, b: NutritionPerServing, c: NutritionPerServing)
    ensures Add(Add(a, b), c) == Add(a, Add(b, c))
  {
  }

  /** Scaling by one is the identity and scaling by zero gives the zero result. */
  lemma ScaleUnit(n: NutritionPerServing)
    ensures Scale(n, 1.0) == n
    ensures Scale(n, 0.0) == Zero()
  {
  }

  /** Doubling the factor doubles every field. */
  lemma ScaleDoubles(n: NutritionPerServing, k: real)
    ensures Scale(n, 2.0 * k) == Add(Scale(n, k), Scale(n, k))
  {
  }
}

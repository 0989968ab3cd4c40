# food_app nutrition engine, in Dafny

This project models the nutrition resolution engine of `food_app`: the services that turn
"a quantity of a food, a recipe or a meal, in some unit" into a nutrient record, and the
daily log that stores what was eaten.

- **Foods** are stored per 100 g. Registration normalises label values given for an
  arbitrary base quantity (`FoodService.NormalizeFood`, `FoodService.Create`). A food also
  carries a table of custom units ("unidade" = 350 g), upserted by name (`FoodService.AddUnit`).
- **Grams resolution** (`FoodService.GramsForFood`): "g" and "ml" in any case are the
  quantity itself. Another unit is looked up case-insensitively in the food's unit table,
  first match wins. An unknown unit counts as 100 g. A missing food resolves to 0 g.
- **Recipes** sum their ingredients into a batch, divide it into `portions_yield` portions
  and scale one portion to the requested quantity (`RecipeService.RecipeNutrition`).
- **Meals** sum their items. Each item goes through its food or its recipe, chosen by
  truthiness, so a reference to id 0 counts as absent (`MealService.MealNutrition`).
- **The daily log** stores the grams the logged thing resolved to (`LogService.LogConsumption`).

The database is a `Store.Session` object whose fields are the tables. Each child table is
a sequence of rows. A relationship list such as `food.units` or `meal.items` is that
sequence filtered by the parent id, read in the order the rows were stored (`Models.UnitsOf`, `Models.IngredientsOf`,
`Models.ItemsOf`). Each service is a module whose operations take the session.

The two `calculate_nutrition` loops with ten running totals are `method`s. Each is proved
equal to a specification function over the tables (`Models.Db`), and the properties are
proved about those functions.

Two Python exceptions are modelled as values of `Results.Result`:

- `ZeroDivisionError`: a zero base quantity at registration, and a zero `portions_yield`
  for a recipe that has ingredients. A meal or a log entry reached through such a recipe
  fails the same way.
- `IntegrityError`: a broken CHECK or UNIQUE constraint of the schema. When a write fails,
  nothing is stored.

Foreign keys are not enforced by the storage, so references may dangle. A dangling food
contributes zero.

`Scenarios` replays two runs end to end on a new session: the validation script's
"Marmita Frutifica" custom-unit case and logging, and the breakfast of the application's
entry point.

## Model

| member | source | states |
|---|---|---|
| Nutrition.Zero | src/food_app/backend/services/nutrition_dataclass.py:3-14 | the record built from four zero macros and a zero mass: every field, the five defaulted micronutrients included, is 0 |
| Nutrition.AddZero | src/food_app/backend/services/meal_service.py:20-40 | the zero record that starts the running totals is the identity of the field-wise sum on both sides |
| Nutrition.AddCommutes | src/food_app/backend/services/meal_service.py:31-40 | the field-wise accumulation does not depend on the order of the two records |
| Nutrition.AddAssociates | src/food_app/backend/services/recipe_service.py:27-37 | the field-wise accumulation is associative, so a sum can be regrouped |
| Nutrition.ScaleUnit | src/food_app/backend/services/recipe_service.py:44-56 | scaling every field by 1 keeps the record; scaling by 0 gives the zero record |
| Nutrition.ScaleDoubles | src/food_app/backend/services/recipe_service.py:44-56 | scaling by twice a factor is the sum of two records scaled by that factor |
| Models.UnitsOf | src/food_app/backend/infrastructure/models.py:38-51 | `food.units` holds exactly the unit rows whose food id is the food's, and no more rows than the table |
| Models.IngredientsOf | src/food_app/backend/infrastructure/models.py:63-77 | `recipe.ingredients` holds exactly the ingredient rows of that recipe |
| Models.ItemsOf | src/food_app/backend/infrastructure/models.py:88-103 | `meal.items` holds exactly the item rows of that meal |
| Models.UnitsOfAppend | src/food_app/backend/infrastructure/models.py:38-51 | a new unit row joins the end of its own food's list and leaves every other food's list as it was |
| Models.IngredientsOfAppend | src/food_app/backend/infrastructure/models.py:63-77 | a new ingredient row joins the end of its own recipe's list and no other |
| Models.ItemsOfAppend | src/food_app/backend/infrastructure/models.py:88-103 | a new item row joins the end of its own meal's list and no other |
| Models.UnitsUnique | src/food_app/backend/infrastructure/models.py:52 | no two unit rows share both food id and unit name, compared exactly |
| Models.MealItem.SingleSource | src/food_app/backend/infrastructure/models.py:107-112 | an item names exactly one of a food and a recipe |
| Models.DailyLog.SingleLoggable | src/food_app/backend/infrastructure/models.py:131-138 | a log entry names exactly one of a food, a recipe and a meal |
| Models.Db.Valid | src/food_app/backend/infrastructure/models.py:52-138 | the constraints the database enforces: unique unit names per food, and the two CHECK constraints on every item and log entry |
| Store.Session.Valid | src/food_app/backend/infrastructure/models.py:21-138 | the tables satisfy `Models.Db.Valid`, and every id handed out lies below the next id of its table, so the next id is unused |
| Text.Lower | src/food_app/backend/services/food_service.py:11 | lower-casing keeps the length of the name |
| FoodService.FirstMatch | src/food_app/backend/services/food_service.py:17 | the unit found is the first whose lower-cased name matches, and none before it matches; when none is found, no unit of the list matches |
| FoodService.FirstMatchIsFirst | src/food_app/backend/services/food_service.py:17 | a matching unit with no match before it is the one found |
| FoodService.GramsPerUnit | src/food_app/backend/services/food_service.py:17-19 | one unit's grams: the first registered row matching case-insensitively, else 100 (stated by `FoodService.RegisteredUnitResolves` and `FoodService.UnknownUnitIsHundredGrams`) |
| FoodService.GramsForFood | src/food_app/backend/services/food_service.py:10-19 | "g" and "ml" in any case give the quantity itself; any other unit of a missing food gives 0 g; any other unit of an existing food gives the quantity times one unit's grams (`FoodService.OtherUnitScales`) |
| FoodService.OtherUnitScales | src/food_app/backend/services/food_service.py:14-19 | for an existing food and a unit other than "g"/"ml", the grams are the quantity times the grams of one unit |
| FoodService.GramsProportional | src/food_app/backend/services/food_service.py:10-19 | the grams are linear in the quantity: q units weigh q times one unit, in every branch |
| FoodService.GramUnitIsQuantity | src/food_app/backend/services/food_service.py:11-13 | "g" and "ml", in any case, resolve to the quantity itself, whether or not the food exists |
| FoodService.RegisteredUnitResolves | src/food_app/backend/services/food_service.py:14-19 | for an existing food, the first registered unit matching case-insensitively gives the grams per unit, and the grams are quantity times that |
| FoodService.UnknownUnitIsHundredGrams | src/food_app/backend/services/food_service.py:17-19 | a unit no row of the food matches counts as 100 g per unit |
| FoodService.UnitCaseInsensitive | src/food_app/backend/services/food_service.py:11-19 | two unit names that lower-case alike give the same grams and the same nutrition |
| FoodService.NutritionForGrams | src/food_app/backend/services/food_service.py:21-34 | the mass of the result is exactly the grams asked for |
| FoodService.NutritionForGramsScales | src/food_app/backend/services/food_service.py:21-34 | the result is the 100 g profile scaled by grams/100, in every field |
| FoodService.NutritionAdditive | src/food_app/backend/services/food_service.py:21-34 | the nutrition of g1 + g2 grams is the sum of the nutrition of g1 grams and of g2 grams |
| FoodService.CalculateNutrition | src/food_app/backend/services/food_service.py:37-42 | a missing food gives the zero record; an existing food's result has the resolved grams as its mass |
| FoodService.CalculateNutritionScales | src/food_app/backend/services/food_service.py:37-42 | an existing food's result is its 100 g profile scaled by the resolved grams over 100 |
| FoodService.CalculateNutritionFrame | src/food_app/backend/services/food_service.py:37-42 | the result reads only the foods and unit tables: tables that agree on those give the same result |
| FoodService.NormalizeFood | src/food_app/backend/services/food_service.py:44-62 | fails with ZeroDivisionError exactly when the base quantity is 0; otherwise keeps name and category, is active, is liquid exactly for "ml"/"l" labels, and a micronutrient is absent exactly when it was not given (the normalised values are the subject of `FoodService.NormalizeRoundTrip`) |
| FoodService.NormalizeRoundTrip | src/food_app/backend/services/food_service.py:21-62 | registering label values for a base quantity and asking for that many grams gives the label values back, the absent micronutrients as 0 |
| FoodService.MacrosScaledBack | src/food_app/backend/services/food_service.py:53-56 | each macro normalised by 100/base comes back when multiplied by base/100 |
| FoodService.MicrosScaledBack | src/food_app/backend/services/food_service.py:57-61 | each optional micronutrient normalised by 100/base comes back, an absent one as 0 |
| FoodService.ScaledBack | src/food_app/backend/services/food_service.py:21-34 | a food whose values scale back to the label gives the label's record for the base quantity |
| FoodService.LabelUnitRows | src/food_app/backend/services/food_service.py:65-66 | registration adds a unit row exactly when the label is not "g"/"ml" in any case, and that row maps the label to the base quantity |
| FoodService.IndexOfUnit | src/food_app/backend/services/food_service.py:71-75 | the row found has exactly the food id and unit name asked for; when none is found, no row has both |
| FoodService.Upsert | src/food_app/backend/services/food_service.py:70-82 | the new (food, name, grams) row is in the table; every row with another key keeps its position; the table grows by one exactly when no row had that food and exact name, and keeps its length exactly when one had |
| FoodService.UpsertRows | src/food_app/backend/services/food_service.py:70-82 | after the upsert the (food, exact name) pairs stay unique, the new mapping is present, and every other row is kept |
| FoodService.UpsertThenResolve | src/food_app/backend/services/food_service.py:70-82 | after registering a unit, asking for that unit on that food resolves to the registered grams |
| FoodService.AddUnit | src/food_app/backend/services/food_service.py:70-82 | updates the grams of the row with the same food and exact name in place, or appends a new row; the unit table stays unique |
| FoodService.Create | src/food_app/backend/services/food_service.py:44-68 | ZeroDivisionError exactly when the base quantity is 0; IntegrityError exactly when the label's unit row collides with an existing row; otherwise stores the normalised food under the next id and, for a label other than "g"/"ml", its base unit row; a failure changes nothing |
| RecipeService.BatchTotals | src/food_app/backend/services/recipe_service.py:23-37 | the field-wise sum of the ingredients' food nutrition in list order (stated by `RecipeService.BatchTotalsAppend` and `RecipeService.BatchWeightIsMass`) |
| RecipeService.PerPortion | src/food_app/backend/services/recipe_service.py:46-55 | one portion: the batch with every field divided by the portion count (stated by `RecipeService.PortionsRebuildBatch`) |
| RecipeService.PortionsRebuildBatch | src/food_app/backend/services/recipe_service.py:46-55 | taking one portion as many times as there are portions gives the whole batch back, in every field |
| RecipeService.Portions | src/food_app/backend/services/recipe_service.py:39-56 | a target mass of at most 0 gives the zero record; otherwise the result's mass is weight per portion times quantity |
| RecipeService.PortionsClosedForm | src/food_app/backend/services/recipe_service.py:39-56 | for a positive target mass, the result is one portion (the batch over the portion count) scaled by the quantity, in every field |
| RecipeService.OnePortionIsShare | src/food_app/backend/services/recipe_service.py:39-56 | one portion of a batch of positive mass is exactly the batch divided by the portion count |
| RecipeService.PortionsDouble | src/food_app/backend/services/recipe_service.py:39-56 | for a positive target mass, twice the quantity gives twice every field |
| RecipeService.PortionsDoubleZero | src/food_app/backend/services/recipe_service.py:40-42 | a target mass of at most 0 gives the zero record for the quantity and for twice the quantity |
| RecipeService.PortionsAlwaysDouble | src/food_app/backend/services/recipe_service.py:39-56 | for any quantity, twice the quantity gives twice every field, the zero result included |
| RecipeService.RecipeNutrition | src/food_app/backend/services/recipe_service.py:13-56 | a missing recipe or one without ingredients gives the zero record; the result fails exactly when the recipe has ingredients and a portion count of 0, and then with ZeroDivisionError |
| RecipeService.RecipeIsPortions | src/food_app/backend/services/recipe_service.py:23-56 | a recipe with ingredients and a non-zero portion count gives its batch totals divided into its portions and scaled to the quantity |
| RecipeService.CalculateNutrition | src/food_app/backend/services/recipe_service.py:13-56 | the loop of ten running totals, then the division into portions, gives exactly `RecipeNutrition` |
| RecipeService.BatchTotalsAppend | src/food_app/backend/services/recipe_service.py:26-37 | the batch totals of two lists of ingredients, one after the other, are the sum of their totals |
| RecipeService.BatchWeightIsMass | src/food_app/backend/services/recipe_service.py:26-37 | the batch mass is the sum of the grams each ingredient resolves to, 0 for an ingredient naming no food |
| RecipeService.BatchTotalsFrame | src/food_app/backend/services/recipe_service.py:26-28 | the batch reads only the foods and unit tables |
| RecipeService.RecipeNutritionFrame | src/food_app/backend/services/recipe_service.py:13-56 | the result reads only the foods, units, recipes and ingredients tables |
| RecipeService.RecipePortionIsShare | src/food_app/backend/services/recipe_service.py:39-56 | a recipe asked for 1 portion gives its batch over the portion count, so its mass is the batch mass over the portion count |
| RecipeService.RecipeDoubles | src/food_app/backend/services/recipe_service.py:13-56 | for any recipe with a non-zero portion count, the result does not fail, and twice the quantity gives twice every field |
| RecipeService.UnitNameIgnored | src/food_app/backend/services/recipe_service.py:13-18 | the unit name passed in never changes the result |
| RecipeService.Create | src/food_app/backend/services/recipe_service.py:59-63 | stores the recipe, active, under the next unused id and returns that id |
| RecipeService.AddIngredient | src/food_app/backend/services/recipe_service.py:65-69 | appends the row unchecked; the recipe's ingredient list gains it at its end |
| RecipeService.AddedIngredientCounts | src/food_app/backend/services/recipe_service.py:65-69 | after an ingredient is added, the batch totals are the old totals plus that food's nutrition |
| MealService.SingleItemTotals | src/food_app/backend/services/meal_service.py:23-29 | a one-item meal sums to zero for an item without a truthy reference; to its food's nutrition for the item's quantity and unit when the food reference is truthy; otherwise, for a truthy recipe reference, to that recipe's nutrition or failure |
| MealService.ZeroFoodIsAbsent | src/food_app/backend/services/meal_service.py:24-26 | an item whose food reference is 0 sums exactly as if it had no food reference |
| MealService.ItemContribution | src/food_app/backend/services/meal_service.py:23-29 | the dispatch run through the services' own operations gives exactly `Contribution` |
| MealService.Extend | src/food_app/backend/services/meal_service.py:23-40 | a failure already met stays; a skipped item changes nothing |
| MealService.MealTotals | src/food_app/backend/services/meal_service.py:23-40 | the only failure a meal's sum can meet is ZeroDivisionError |
| MealService.MealNutrition | src/food_app/backend/services/meal_service.py:15-53 | a missing meal or one without items gives the zero record; an existing meal gives the sum of its own items in list order (`MealService.MealTotals`); a failure is ZeroDivisionError |
| MealService.CalculateNutrition | src/food_app/backend/services/meal_service.py:15-53 | the loop of ten running totals, skipping unreferenced items and stopping at a failing recipe, gives exactly `MealNutrition` |
| MealService.MealTotalsAppend | src/food_app/backend/services/meal_service.py:23-40 | the totals of two lists of items, one after the other, combine the totals of each: the first failure wins, otherwise they add |
| MealService.SkippedItemIgnored | src/food_app/backend/services/meal_service.py:28-29 | an item with no truthy reference can be removed from anywhere in the list without changing the result |
| MealService.MealOrderIrrelevant | src/food_app/backend/services/meal_service.py:23-40 | swapping two parts of the item list does not change the result |
| MealService.MealFailsIff | src/food_app/backend/services/meal_service.py:26-27 | the sum fails exactly when some item goes through a recipe whose nutrition fails |
| MealService.FailureSticks | src/food_app/backend/services/meal_service.py:23-40 | once a prefix of the items fails, the whole list fails with the same failure |
| MealService.MealTotalsFrame | src/food_app/backend/services/meal_service.py:23-40 | the sum reads only the foods, units, recipes and ingredients tables |
| MealService.Create | src/food_app/backend/services/meal_service.py:55-59 | stores the meal, active, under the next unused id and returns that id |
| MealService.AddItem | src/food_app/backend/infrastructure/models.py:107-112 | the CHECK constraint rejects the item with IntegrityError exactly when it has both or neither reference, and nothing is stored; otherwise the row is appended and the meal's item list gains it at its end |
| MealService.AddedItemCounts | src/food_app/backend/services/meal_service.py:61-65 | after an item is added, the meal's sum is the old sum combined with the item's own contribution |
| LogService.ResolvedGrams | src/food_app/backend/services/log_service.py:16-26 | a food resolves to its grams (0 g if it is missing), an unknown kind to 0 g; a recipe resolves to the mass of its nutrition for the quantity and unit, a meal to the mass of its whole nutrition; the result fails exactly when the recipe or meal named fails |
| LogService.ResolveGrams | src/food_app/backend/services/log_service.py:16-26 | resolving through the services' own operations gives exactly `ResolvedGrams` |
| LogService.EntryIsValidIffKnown | src/food_app/backend/infrastructure/models.py:131-138 | the entry passes the CHECK constraint exactly when the kind is "food", "recipe" or "meal" |
| LogService.LogConsumption | src/food_app/backend/services/log_service.py:28-46 | a failing resolution propagates and stores nothing; an unknown kind fails with IntegrityError and stores nothing; otherwise the entry appended carries the date, quantity, unit and resolved grams, and the id in exactly the one reference the kind names |
| LogService.MealGramsIgnoreQuantity | src/food_app/backend/services/log_service.py:23-25 | a meal's logged grams do not depend on the quantity or unit given |
| Scenarios.UnidadeResolves | tests/verify_api_layer.py:38-54 | with "unidade" registered as 350 g, q unidades are q*350 g and 112*(q*350/100) kcal |
| Scenarios.FrutificaScenario | tests/verify_api_layer.py:18-80 | registering the ready meal and its "unidade" gives 392 kcal for one unidade, and logging half a unidade stores 175 g against the food |
| Scenarios.StockFrutifica | tests/verify_api_layer.py:18-54 | registering the ready meal per 100 g and its "unidade" of 350 g leaves one food and one unit row |
| Scenarios.OatSpoons | src/food_app/main.py:31-42 | two tablespoons of oats at 10 g each are 20 g and 77.8 kcal |
| Scenarios.PancakePortion | src/food_app/main.py:47-48 | one of two portions of pancakes made from 40 g of oats is 20 g and 77.8 kcal |
| Scenarios.BreakfastTotals | src/food_app/main.py:53-61 | the breakfast of two tablespoons of oats and one portion of pancakes is 40 g and 155.6 kcal |
| Scenarios.BreakfastScenario | src/food_app/main.py:31-72 | the whole run: the meal is 155.6 kcal and 40 g, and logging it stores 40 g against the meal |

## Left out

- Floating point: quantities and nutrients are `real`. IEEE rounding is not modelled, so the
  scenarios state exact values where the scripts compare within 0.1.
- Lower-casing is ASCII only (A-Z). Python's full Unicode `str.lower()` is not modelled.
- Pydantic validation of requests is left out. The log's kind is a plain string, so a name
  other than "food", "recipe" or "meal" reaches the service. There it resolves to 0 g and
  the entry fails the CHECK constraint.
- Row ids of child tables (units, ingredients, items, log entries) are left out. Rows are
  identified by their position in insertion order.
- The transaction boundary is left out: commit, rollback, `flush` and the session's
  identity map. An operation that fails stores nothing, which is what a rollback gives.
- Cascade deletes and soft deletion are left out, as are the queries for active foods and
  for the logs of a date. The core services do not delete.
- CSV import, the user interface, the API client, the logging decorator and the storage
  engine set-up are left out.
- `portions_yield` is not validated by the code. A recipe with a portion count of 0
  raises `ZeroDivisionError` when it has ingredients; it is not rejected when it is created.
- Unit names are unique per food by exact name, which is what the UNIQUE constraint and the
  upsert compare. Two names that differ only in case can both be registered; resolution
  then takes the first in table order.
- FoodService.Create, RecipeService.Create and MealService.Create return the new row's id
  rather than the ORM object the source returns. The row is stored in the session under
  that id.
- The relationship lists `food.units`, `recipe.ingredients` and `meal.items` have no
  `order_by` in the schema, so the source does not fix their order; the database may return
  the rows in any order, for example in the order of an index. The model reads them in the
  order the rows were stored. Sums do not depend on it (`MealService.MealOrderIrrelevant`);
  unit resolution does only when two unit names of a food differ only in case.
- RecipeService.AddedIngredientCounts and MealService.AddedItemCounts relate the totals
  read from the tables. In the source, `add_ingredient` and `add_item` only add the row to
  the session and never append to a relationship list that is already loaded, so a parent
  whose list was read earlier in the same session sees the new row only after that
  collection expires (at commit). The model has no cached collections.
- `FoodService.CalculateNutrition` states only the zero case and the mass in its own
  contract. The full closed form is in `FoodService.CalculateNutritionScales`, kept apart so
  that the services which call it do not carry the products.
- The linearity and one-portion properties of recipes are proved at the level of one
  recipe's batch (`RecipeService.RecipeDoubles`, `RecipeService.RecipePortionIsShare`). They
  are stated against the batch totals, not against the ingredient rows directly.
- RecipeService.RecipePortionIsShare holds only for portions of positive mass: for a batch
  whose portions weigh nothing or less, the source returns the zero record instead of the
  share (the ensures of `RecipeService.Portions`).
- `RecipeService.AddIngredient` and `MealService.AddItem` do not check that the recipe, meal
  or food referenced exists. The storage does not enforce foreign keys either, so a dangling
  reference is stored, and such a food contributes zero.

/**
 * The recipe cost engine (services/calculator.ts): per-kilogram cost of a
 * sub-recipe, absolute cost of a menu item, and the food-cost colour tier.
 *
 * Each resolver is a left-to-right fold over the component list, as
 * `Array.prototype.reduce` with an accumulator starting at 0. The reference
 * graph may contain cycles; evaluation stops at depth MaxDepth + 1, which is
 * the measure that proves every call terminates.
 */
module Calculator {
  import opened Options
  import opened Catalog
  import opened RealFacts

  /** Deepest level at which a resolver still looks at its components. */
  const MaxDepth: nat := 5

  /** Price of the first ingredient with this id, 0 when there is none. */
  function IngredientPrice(id: string, ingredients: seq<Ingredient>): (r: real)
    ensures (forall k :: 0 <= k < |ingredients| ==> ingredients[k].id != id) ==> r == 0.0
    ensures forall k :: FirstMatch(ingredients, IngredientKey, id, k) ==> r == ingredients[k].pricePerUnit
  {
    match FindIngredient(id, ingredients)
    case Some(ing) =>
      assert forall k :: FirstMatch(ingredients, IngredientKey, id, k) ==> ing == ingredients[k] by {
        forall k | FirstMatch(ingredients, IngredientKey, id, k) ensures ing == ingredients[k] {
          var m :| FirstMatch(ingredients, IngredientKey, id, m) && ing == ingredients[m];
          FirstMatchUnique(ingredients, IngredientKey, id, k, m);
        }
      }
      ing.pricePerUnit
    case None => 0.0
  }

  /**
   * Usage quantities are in grams; a price per kilogram or per litre is
   * therefore scaled by 0.001, every other unit is taken as it is.
   */
  function Multiplier(u: Unit): real
  {
    if u == Kg || u == L then 0.001 else 1.0
  }

  /** Cost of `quantity` of an ingredient that was found in the snapshot. */
  function IngredientLineCost(ing: Ingredient, quantity: real): (r: real)
    ensures ing.unit == Kg || ing.unit == L ==> r == ing.pricePerUnit * (quantity / 1000.0)
    ensures ing.unit != Kg && ing.unit != L ==> r == ing.pricePerUnit * quantity
  {
    ing.pricePerUnit * quantity * Multiplier(ing.unit)
  }

  /** Contribution of an ingredient edge: its line cost, or 0 when dangling. */
  function IngredientContribution(c: ComponentUsage, ingredients: seq<Ingredient>): (r: real)
    ensures (forall k :: 0 <= k < |ingredients| ==> ingredients[k].id != c.id) ==> r == 0.0
    ensures (NonNegativePrices(ingredients) && c.quantity >= 0.0) ==> r >= 0.0
  {
    match FindIngredient(c.id, ingredients)
    case None => 0.0
    case Some(ing) =>
      ProductNonNegative(ing.pricePerUnit, c.quantity);
      ProductNonNegative(ing.pricePerUnit * c.quantity, Multiplier(ing.unit));
      IngredientLineCost(ing, c.quantity)
  }

  /* ---------------- non-negative snapshots ---------------- */

  predicate NonNegativeUsage(components: seq<ComponentUsage>)
  {
    forall k :: 0 <= k < |components| ==> components[k].quantity >= 0.0
  }

  predicate NonNegativePrices(ingredients: seq<Ingredient>)
  {
    forall i :: i in ingredients ==> i.pricePerUnit >= 0.0
  }

  predicate NonNegativeSubRecipes(subRecipes: seq<SubRecipe>)
  {
    forall s :: s in subRecipes ==> NonNegativeUsage(s.components)
  }

  predicate NonNegativeMenu(menu: seq<MenuItem>)
  {
    forall m :: m in menu ==> NonNegativeUsage(m.components)
  }

  /* ---------------- sub-recipe resolver ---------------- */

  /**
   * Cost per kilogram of finished output: the summed component cost divided
   * by the yield, 0 past the depth ceiling or when the yield is not positive.
   */
  function SubRecipeCostPerKg(sr: SubRecipe, ingredients: seq<Ingredient>, subRecipes: seq<SubRecipe>, depth: nat): (r: real)
    ensures depth > MaxDepth ==> r == 0.0
    ensures sr.yieldWeight <= 0.0 ==> r == 0.0
    decreases MaxDepth + 1 - depth, 1, 0
  {
    if depth > MaxDepth then 0.0
    else
      var totalCost := SubRecipeTotal(sr, sr.components, ingredients, subRecipes, depth);
      if sr.yieldWeight > 0.0 then totalCost / sr.yieldWeight else 0.0
  }

  /** The reduce over `components` inside the sub-recipe `sr`. */
  function SubRecipeTotal(sr: SubRecipe, components: seq<ComponentUsage>, ingredients: seq<Ingredient>,
                          subRecipes: seq<SubRecipe>, depth: nat): (r: real)
    requires depth <= MaxDepth
    decreases MaxDepth + 1 - depth, 0, |components|
  {
    if components == [] then 0.0
    else
      var n := |components| - 1;
      SubRecipeTotal(sr, components[..n], ingredients, subRecipes, depth)
        + SubComponentCost(sr, components[n], ingredients, subRecipes, depth)
  }

  /**
   * What one edge adds inside the sub-recipe `sr`: an ingredient by its
   * line cost; a nested sub-recipe by its per-kilogram cost at depth + 1
   * times the kilograms used, unless it is missing or is `sr` itself; a
   * menu item nothing.
   */
  function SubComponentCost(sr: SubRecipe, c: ComponentUsage, ingredients: seq<Ingredient>,
                            subRecipes: seq<SubRecipe>, depth: nat): (r: real)
    requires depth <= MaxDepth
    decreases MaxDepth + 1 - depth, 0, 0
  {
    match c.kind
    case IngredientRef => IngredientContribution(c, ingredients)
    case SubRecipeRef =>
      (match FindSubRecipe(c.id, subRecipes)
       case None => 0.0
       case Some(nested) =>
         if nested.id == sr.id then 0.0
         else
           var costPerKg := SubRecipeCostPerKg(nested, ingredients, subRecipes, depth + 1);
           costPerKg * (c.quantity / 1000.0))
    case MenuItemRef => 0.0
  }

  /* ---------------- menu item resolver ---------------- */

  /** Total cost of a sellable item, 0 past the depth ceiling. */
  function MenuItemCost(item: MenuItem, ingredients: seq<Ingredient>, subRecipes: seq<SubRecipe>,
                        menu: seq<MenuItem>, depth: nat): (r: real)
    ensures depth > MaxDepth ==> r == 0.0
    decreases MaxDepth + 1 - depth, 1, 0
  {
    if depth > MaxDepth then 0.0
    else MenuItemTotal(item, item.components, ingredients, subRecipes, menu, depth)
  }

  /** The reduce over `components` inside the menu item `item`. */
  function MenuItemTotal(item: MenuItem, components: seq<ComponentUsage>, ingredients: seq<Ingredient>,
                         subRecipes: seq<SubRecipe>, menu: seq<MenuItem>, depth: nat): (r: real)
    requires depth <= MaxDepth
    decreases MaxDepth + 1 - depth, 0, |components|
  {
    if components == [] then 0.0
    else
      var n := |components| - 1;
      MenuItemTotal(item, components[..n], ingredients, subRecipes, menu, depth)
        + MenuComponentCost(item, components[n], ingredients, subRecipes, menu, depth)
  }

  /**
   * What one edge adds inside the menu item `item`: an ingredient by its
   * line cost; a sub-recipe by a fresh depth-0 per-kilogram cost times the
   * kilograms used; a nested menu item by its cost at depth + 1 times the
   * piece count, unless it is missing or is `item` itself.
   */
  function MenuComponentCost(item: MenuItem, c: ComponentUsage, ingredients: seq<Ingredient>,
                             subRecipes: seq<SubRecipe>, menu: seq<MenuItem>, depth: nat): (r: real)
    requires depth <= MaxDepth
    decreases MaxDepth + 1 - depth, 0, 0
  {
    match c.kind
    case IngredientRef => IngredientContribution(c, ingredients)
    case SubRecipeRef =>
      (match FindSubRecipe(c.id, subRecipes)
       case None => 0.0
       case Some(sub) =>
         var costPerKg := SubRecipeCostPerKg(sub, ingredients, subRecipes, 0);
         costPerKg * (c.quantity / 1000.0))
    case MenuItemRef =>
      (match FindMenuItem(c.id, menu)
       case None => 0.0
       case Some(nested) =>
         if nested.id == item.id then 0.0
         else
           var costOfNested := MenuItemCost(nested, ingredients, subRecipes, menu, depth + 1);
           costOfNested * c.quantity)
  }

  /* ---------------- food-cost classification ---------------- */

  const GreenClasses: string := "bg-green-100 text-green-700"
  const YellowClasses: string := "bg-yellow-100 text-yellow-700"
  const RedClasses: string := "bg-red-100 text-red-700"

  /** The presentation tier of a food-cost percentage, as CSS classes. */
  function FoodCostColor(percentage: real): (r: string)
    ensures r == GreenClasses <==> percentage <= 25.0
    ensures r == YellowClasses <==> 25.0 < percentage <= 35.0
    ensures r == RedClasses <==> 35.0 < percentage
  {
    if percentage <= 25.0 then GreenClasses
    else if percentage <= 35.0 then YellowClasses
    else RedClasses
  }

  /** Food cost as a percentage of the selling price, 0 for a free item. */
  function FoodCostRatio(cost: real, sellingPrice: real): (r: real)
    ensures sellingPrice > 0.0 ==> r * sellingPrice == cost * 100.0
    ensures sellingPrice <= 0.0 ==> r == 0.0
    ensures cost >= 0.0 ==> r >= 0.0
  {
    if sellingPrice > 0.0 then cost / sellingPrice * 100.0 else 0.0
  }
}

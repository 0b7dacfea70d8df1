/**
 * Worked figures of the costing rules on small catalogs, among them a
 * cyclic one that the depth ceiling cuts off.
 */
module CostExamples {
  import opened Options
  import opened Catalog
  import opened Calculator

  const Flour := Ingredient("flour", "Farina 00", Kg, 10.0, "Secco", None)
  const Mozzarella := Ingredient("mozz", "Mozzarella", Pz, 5.0, "Latticini", None)
  const Dough := SubRecipe("dough", "Impasto", [ComponentUsage("flour", IngredientRef, 1632.0)], 1.6, 1.7, None)
  const Pizza := MenuItem("pizza", "Pizza", [ComponentUsage("dough", SubRecipeRef, 250.0)], 8.0, "Pizze")
  const Side := MenuItem("side", "Mozzarella", [ComponentUsage("mozz", IngredientRef, 1.0)], 4.0, "Contorni")
  const Combo := MenuItem("combo", "Combo", [ComponentUsage("side", MenuItemRef, 2.0)], 12.0, "Menu")

  /** 10.00 per kilogram at 250 g is 2.50; 10.00 per piece at 250 pieces is 2500.00. */
  lemma UnitWorkedFigures()
    ensures IngredientLineCost(Flour, 250.0) == 2.5
    ensures IngredientLineCost(Flour.(unit := Pz), 250.0) == 2500.0
  {
  }

  /** 1632 g of flour at 10.00/kg is 16.32, over a 1.6 kg yield 10.20 per kilogram. */
  lemma SubRecipeWorkedFigure()
    ensures SubRecipeTotal(Dough, Dough.components, [Flour], [Dough], 0) == 16.32
    ensures SubRecipeCostPerKg(Dough, [Flour], [Dough], 0) == 10.2
  {
    assert FindIngredient("flour", [Flour]) == Some(Flour);
    assert Dough.components[..0] == [];
  }

  /**
   * 250 g of a 10.20/kg sub-recipe is 2.55; two pieces of a 5.00 item are
   * 10.00, scaled by count and not by mass.
   */
  lemma MenuWorkedFigures()
    ensures MenuItemCost(Pizza, [Flour], [Dough], [], 0) == 2.55
    ensures MenuItemCost(Combo, [Mozzarella], [], [Side, Combo], 0) == 10.0
  {
    SubRecipeWorkedFigure();
    assert FindSubRecipe("dough", [Dough]) == Some(Dough);
    assert Pizza.components[..0] == [];
    assert FindIngredient("mozz", [Mozzarella]) == Some(Mozzarella);
    assert Side.components[..0] == [];
    assert MenuItemCost(Side, [Mozzarella], [], [Side, Combo], 1) == 5.0;
    assert FindMenuItem("side", [Side, Combo]) == Some(Side);
    assert Combo.components[..0] == [];
  }

  const Mother := SubRecipe("mother", "Lievito madre",
    [ComponentUsage("starter", SubRecipeRef, 1000.0), ComponentUsage("flour", IngredientRef, 1000.0)], 1.0, 2.0, None)
  const Starter := SubRecipe("starter", "Rinfresco", [ComponentUsage("mother", SubRecipeRef, 1000.0)], 1.0, 1.0, None)

  /**
   * A two-step cycle is unrolled until the depth ceiling and no further:
   * `mother` adds 10.00 of flour at depths 0, 2 and 4, and the walk stops
   * at depth 6, so the cycle costs 30.00 per kilogram.
   */
  lemma CycleWorkedFigure()
    ensures SubRecipeCostPerKg(Mother, [Flour], [Mother, Starter], 0) == 30.0
  {
    var ings, subs := [Flour], [Mother, Starter];
    assert FindIngredient("flour", ings) == Some(Flour);
    assert FirstMatch(subs, SubRecipeKey, "starter", 1);
    assert FindSubRecipe("starter", subs) == Some(Starter);
    assert FindSubRecipe("mother", subs) == Some(Mother);
    assert Mother.components[..1] == [Mother.components[0]];
    assert Mother.components[..1][..0] == [];
    assert Starter.components[..0] == [];
    assert SubRecipeCostPerKg(Mother, ings, subs, 6) == 0.0;
    assert SubRecipeCostPerKg(Starter, ings, subs, 5) == 0.0;
    assert SubRecipeCostPerKg(Mother, ings, subs, 4) == 10.0;
    assert SubRecipeCostPerKg(Starter, ings, subs, 3) == 10.0;
    assert SubRecipeCostPerKg(Mother, ings, subs, 2) == 20.0;
    assert SubRecipeCostPerKg(Starter, ings, subs, 1) == 20.0;
  }
}

/**
 * Properties of the cost engine that relate several calls: how a fold
 * splits, what a dangling or self reference adds, what an empty menu or an
 * empty ingredient list does, and the worked figures of the costing rules.
 */
module CostProperties {
  import opened Catalog
  import opened Calculator
  import opened RealFacts

  /* ---------------- the folds are sums of per-edge contributions ---------------- */

  lemma {:induction false} SubRecipeTotalAppend(sr: SubRecipe, a: seq<ComponentUsage>, b: seq<ComponentUsage>,
                                               ingredients: seq<Ingredient>, subRecipes: seq<SubRecipe>, depth: nat)
    requires depth <= MaxDepth
    ensures SubRecipeTotal(sr, a + b, ingredients, subRecipes, depth)
         == SubRecipeTotal(sr, a, ingredients, subRecipes, depth) + SubRecipeTotal(sr, b, ingredients, subRecipes, depth)
    decreases |b|
  {
    if b == [] {
      assert a + b == a;
    } else {
      var n := |b| - 1;
      var ab := a + b;
      assert ab[..|ab| - 1] == a + b[..n];
      assert ab[|ab| - 1] == b[n];
      var last := SubComponentCost(sr, b[n], ingredients, subRecipes, depth);
      assert SubRecipeTotal(sr, ab, ingredients, subRecipes, depth)
          == SubRecipeTotal(sr, a + b[..n], ingredients, subRecipes, depth) + last;
      assert SubRecipeTotal(sr, b, ingredients, subRecipes, depth)
          == SubRecipeTotal(sr, b[..n], ingredients, subRecipes, depth) + last;
      SubRecipeTotalAppend(sr, a, b[..n], ingredients, subRecipes, depth);
    }
  }

  lemma {:induction false} MenuItemTotalAppend(item: MenuItem, a: seq<ComponentUsage>, b: seq<ComponentUsage>,
                                              ingredients: seq<Ingredient>, subRecipes: seq<SubRecipe>,
                                              menu: seq<MenuItem>, depth: nat)
    requires depth <= MaxDepth
    ensures MenuItemTotal(item, a + b, ingredients, subRecipes, menu, depth)
         == MenuItemTotal(item, a, ingredients, subRecipes, menu, depth)
            + MenuItemTotal(item, b, ingredients, subRecipes, menu, depth)
    decreases |b|
  {
    if b == [] {
      assert a + b == a;
    } else {
      var n := |b| - 1;
      var ab := a + b;
      assert ab[..|ab| - 1] == a + b[..n];
      assert ab[|ab| - 1] == b[n];
      var last := MenuComponentCost(item, b[n], ingredients, subRecipes, menu, depth);
      assert MenuItemTotal(item, ab, ingredients, subRecipes, menu, depth)
          == MenuItemTotal(item, a + b[..n], ingredients, subRecipes, menu, depth) + last;
      assert MenuItemTotal(item, b, ingredients, subRecipes, menu, depth)
          == MenuItemTotal(item, b[..n], ingredients, subRecipes, menu, depth) + last;
      MenuItemTotalAppend(item, a, b[..n], ingredients, subRecipes, menu, depth);
    }
  }

  /* ---------------- dangling and self references ---------------- */

  /** An edge whose target is not in the snapshot, or is the sub-recipe itself, adds 0. */
  lemma SubComponentDangling(sr: SubRecipe, c: ComponentUsage, ingredients: seq<Ingredient>,
                             subRecipes: seq<SubRecipe>, depth: nat)
    requires depth <= MaxDepth
    requires c.kind == IngredientRef ==> forall k :: 0 <= k < |ingredients| ==> ingredients[k].id != c.id
    requires c.kind == SubRecipeRef ==> c.id == sr.id || forall k :: 0 <= k < |subRecipes| ==> subRecipes[k].id != c.id
    ensures SubComponentCost(sr, c, ingredients, subRecipes, depth) == 0.0
  {
  }

  /** An edge whose target is not in the snapshot, or is the menu item itself, adds 0. */
  lemma MenuComponentDangling(item: MenuItem, c: ComponentUsage, ingredients: seq<Ingredient>,
                              subRecipes: seq<SubRecipe>, menu: seq<MenuItem>, depth: nat)
    requires depth <= MaxDepth
    requires c.kind == IngredientRef ==> forall k :: 0 <= k < |ingredients| ==> ingredients[k].id != c.id
    requires c.kind == SubRecipeRef ==> forall k :: 0 <= k < |subRecipes| ==> subRecipes[k].id != c.id
    requires c.kind == MenuItemRef ==> c.id == item.id || forall k :: 0 <= k < |menu| ==> menu[k].id != c.id
    ensures MenuComponentCost(item, c, ingredients, subRecipes, menu, depth) == 0.0
  {
  }

  /**
   * Dropping a dangling edge from a sub-recipe changes nothing: the other
   * edges add exactly what they added before.
   */
  lemma SubRecipeDropDangling(sr: SubRecipe, a: seq<ComponentUsage>, c: ComponentUsage, b: seq<ComponentUsage>,
                              ingredients: seq<Ingredient>, subRecipes: seq<SubRecipe>, depth: nat)
    requires depth <= MaxDepth
    requires c.kind == IngredientRef ==> forall k :: 0 <= k < |ingredients| ==> ingredients[k].id != c.id
    requires c.kind == SubRecipeRef ==> c.id == sr.id || forall k :: 0 <= k < |subRecipes| ==> subRecipes[k].id != c.id
    ensures SubRecipeTotal(sr, a + [c] + b, ingredients, subRecipes, depth)
         == SubRecipeTotal(sr, a + b, ingredients, subRecipes, depth)
  {
    SubRecipeTotalAppend(sr, a + [c], b, ingredients, subRecipes, depth);
    SubRecipeTotalAppend(sr, a, [c], ingredients, subRecipes, depth);
    SubRecipeTotalAppend(sr, a, b, ingredients, subRecipes, depth);
    assert [c][..0] == [];
    SubComponentDangling(sr, c, ingredients, subRecipes, depth);
  }

  /** Dropping a dangling edge from a menu item changes nothing. */
  lemma MenuItemDropDangling(item: MenuItem, a: seq<ComponentUsage>, c: ComponentUsage, b: seq<ComponentUsage>,
                             ingredients: seq<Ingredient>, subRecipes: seq<SubRecipe>, menu: seq<MenuItem>, depth: nat)
    requires depth <= MaxDepth
    requires c.kind == IngredientRef ==> forall k :: 0 <= k < |ingredients| ==> ingredients[k].id != c.id
    requires c.kind == SubRecipeRef ==> forall k :: 0 <= k < |subRecipes| ==> subRecipes[k].id != c.id
    requires c.kind == MenuItemRef ==> c.id == item.id || forall k :: 0 <= k < |menu| ==> menu[k].id != c.id
    ensures MenuItemTotal(item, a + [c] + b, ingredients, subRecipes, menu, depth)
         == MenuItemTotal(item, a + b, ingredients, subRecipes, menu, depth)
  {
    MenuItemTotalAppend(item, a + [c], b, ingredients, subRecipes, menu, depth);
    MenuItemTotalAppend(item, a, [c], ingredients, subRecipes, menu, depth);
    MenuItemTotalAppend(item, a, b, ingredients, subRecipes, menu, depth);
    assert [c][..0] == [];
    MenuComponentDangling(item, c, ingredients, subRecipes, menu, depth);
  }

  /**
   * Deleting an ingredient from the snapshot turns the edges to it into
   * zero contributions and leaves every other ingredient edge as it was.
   */
  lemma RemoveIngredientContribution(c: ComponentUsage, ingredients: seq<Ingredient>, removed: string)
    ensures IngredientContribution(c, RemoveIngredient(ingredients, removed))
         == if c.id == removed then 0.0 else IngredientContribution(c, ingredients)
  {
    RemoveIngredientLookup(ingredients, removed, c.id);
  }

  /** The ingredient edges of `components` that do not point at `id`. */
  function WithoutIngredient(components: seq<ComponentUsage>, id: string): (r: seq<ComponentUsage>)
    ensures forall c :: c in r <==> c in components && !(c.kind == IngredientRef && c.id == id)
  {
    if components == [] then []
    else
      var n := |components| - 1;
      var last := components[n];
      assert components == components[..n] + [last];
      WithoutIngredient(components[..n], id) + (if last.kind == IngredientRef && last.id == id then [] else [last])
  }

  /**
   * For a sub-recipe made of ingredients only, deleting one ingredient from
   * the snapshot costs the recipe exactly as if its edges to that
   * ingredient were gone.
   */
  lemma {:induction false} RemoveIngredientFromSubRecipe(sr: SubRecipe, components: seq<ComponentUsage>,
                                                        ingredients: seq<Ingredient>, subRecipes: seq<SubRecipe>,
                                                        removed: string, depth: nat)
    requires depth <= MaxDepth
    requires forall k :: 0 <= k < |components| ==> components[k].kind == IngredientRef
    ensures SubRecipeTotal(sr, components, RemoveIngredient(ingredients, removed), subRecipes, depth)
         == SubRecipeTotal(sr, WithoutIngredient(components, removed), ingredients, subRecipes, depth)
    decreases |components|
  {
    if components != [] {
      var n := |components| - 1;
      var last := components[n];
      RemoveIngredientFromSubRecipe(sr, components[..n], ingredients, subRecipes, removed, depth);
      RemoveIngredientContribution(last, ingredients, removed);
      var kept := if last.id == removed then [] else [last];
      SubRecipeTotalAppend(sr, WithoutIngredient(components[..n], removed), kept, ingredients, subRecipes, depth);
      if kept != [] {
        assert kept[..0] == [];
      }
    }
  }

  /* ---------------- empty menu ---------------- */

  /** `components` with every menu-item edge taken out. */
  function WithoutMenuItems(components: seq<ComponentUsage>): (r: seq<ComponentUsage>)
    ensures forall c :: c in r <==> c in components && c.kind != MenuItemRef
  {
    if components == [] then []
    else
      var n := |components| - 1;
      var last := components[n];
      assert components == components[..n] + [last];
      WithoutMenuItems(components[..n]) + (if last.kind == MenuItemRef then [] else [last])
  }

  /**
   * With the default empty menu snapshot every menu-item edge adds 0: the
   * item costs what its ingredient and sub-recipe edges cost, whatever menu
   * those are then costed against.
   */
  lemma {:induction false} EmptyMenuIgnoresMenuItems(item: MenuItem, components: seq<ComponentUsage>,
                                                    ingredients: seq<Ingredient>, subRecipes: seq<SubRecipe>,
                                                    menu: seq<MenuItem>, depth: nat)
    requires depth <= MaxDepth
    ensures MenuItemTotal(item, components, ingredients, subRecipes, [], depth)
         == MenuItemTotal(item, WithoutMenuItems(components), ingredients, subRecipes, menu, depth)
    decreases |components|
  {
    if components != [] {
      var n := |components| - 1;
      var last := components[n];
      EmptyMenuIgnoresMenuItems(item, components[..n], ingredients, subRecipes, menu, depth);
      var kept := if last.kind == MenuItemRef then [] else [last];
      MenuItemTotalAppend(item, WithoutMenuItems(components[..n]), kept, ingredients, subRecipes, menu, depth);
      if kept != [] {
        assert kept[..0] == [];
        assert MenuComponentCost(item, last, ingredients, subRecipes, [], depth)
            == MenuComponentCost(item, last, ingredients, subRecipes, menu, depth);
      } else {
        assert MenuComponentCost(item, last, ingredients, subRecipes, [], depth) == 0.0;
      }
    }
  }

  /* ---------------- the two resolvers agree on ingredients ---------------- */

  /**
   * An ingredient edge costs the same in a sub-recipe and in a menu item,
   * at any depth: the menu resolver applies the same unit rule.
   */
  lemma {:induction false} IngredientEdgesAgree(sr: SubRecipe, item: MenuItem, components: seq<ComponentUsage>,
                                               ingredients: seq<Ingredient>, subRecipes: seq<SubRecipe>,
                                               menu: seq<MenuItem>, d1: nat, d2: nat)
    requires d1 <= MaxDepth && d2 <= MaxDepth
    requires forall k :: 0 <= k < |components| ==> components[k].kind == IngredientRef
    ensures SubRecipeTotal(sr, components, ingredients, subRecipes, d1)
         == MenuItemTotal(item, components, ingredients, subRecipes, menu, d2)
    decreases |components|
  {
    if components != [] {
      IngredientEdgesAgree(sr, item, components[..|components| - 1], ingredients, subRecipes, menu, d1, d2);
    }
  }

  /* ---------------- cost comes from ingredients only ---------------- */

  /**
   * With no ingredients in the snapshot every sub-recipe costs 0 per kilogram,
   * however its references nest or cycle.
   */
  lemma {:induction false} NoIngredientsSubRecipe(sr: SubRecipe, subRecipes: seq<SubRecipe>, depth: nat)
    ensures SubRecipeCostPerKg(sr, [], subRecipes, depth) == 0.0
    decreases MaxDepth + 1 - depth, 1, 0
  {
    if depth <= MaxDepth {
      NoIngredientsSubRecipeTotal(sr, sr.components, subRecipes, depth);
    }
  }

  lemma {:induction false} NoIngredientsSubRecipeTotal(sr: SubRecipe, components: seq<ComponentUsage>,
                                                      subRecipes: seq<SubRecipe>, depth: nat)
    requires depth <= MaxDepth
    ensures SubRecipeTotal(sr, components, [], subRecipes, depth) == 0.0
    decreases MaxDepth + 1 - depth, 0, |components|
  {
    if components != [] {
      var n := |components| - 1;
      NoIngredientsSubRecipeTotal(sr, components[..n], subRecipes, depth);
      NoIngredientsSubComponent(sr, components[n], subRecipes, depth);
    }
  }

  lemma {:induction false} NoIngredientsSubComponent(sr: SubRecipe, c: ComponentUsage,
                                                    subRecipes: seq<SubRecipe>, depth: nat)
    requires depth <= MaxDepth
    ensures SubComponentCost(sr, c, [], subRecipes, depth) == 0.0
    decreases MaxDepth + 1 - depth, 0, 0
  {
    var found := FindSubRecipe(c.id, subRecipes);
    if c.kind == SubRecipeRef && found.Some? && found.value.id != sr.id {
      NoIngredientsSubRecipe(found.value, subRecipes, depth + 1);
    }
  }

  /** With no ingredients in the snapshot every menu item costs 0. */
  lemma {:induction false} NoIngredientsMenuItem(item: MenuItem, subRecipes: seq<SubRecipe>, menu: seq<MenuItem>,
                                                depth: nat)
    ensures MenuItemCost(item, [], subRecipes, menu, depth) == 0.0
    decreases MaxDepth + 1 - depth, 1, 0
  {
    if depth <= MaxDepth {
      NoIngredientsMenuItemTotal(item, item.components, subRecipes, menu, depth);
    }
  }

  lemma {:induction false} NoIngredientsMenuItemTotal(item: MenuItem, components: seq<ComponentUsage>,
                                                     subRecipes: seq<SubRecipe>, menu: seq<MenuItem>, depth: nat)
    requires depth <= MaxDepth
    ensures MenuItemTotal(item, components, [], subRecipes, menu, depth) == 0.0
    decreases MaxDepth + 1 - depth, 0, |components|
  {
    if components != [] {
      var n := |components| - 1;
      NoIngredientsMenuItemTotal(item, components[..n], subRecipes, menu, depth);
      NoIngredientsMenuComponent(item, components[n], subRecipes, menu, depth);
    }
  }

  lemma {:induction false} NoIngredientsMenuComponent(item: MenuItem, c: ComponentUsage,
                                                     subRecipes: seq<SubRecipe>, menu: seq<MenuItem>, depth: nat)
    requires depth <= MaxDepth
    ensures MenuComponentCost(item, c, [], subRecipes, menu, depth) == 0.0
    decreases MaxDepth + 1 - depth, 0, 0
  {
    var sub := FindSubRecipe(c.id, subRecipes);
    var nested := FindMenuItem(c.id, menu);
    if c.kind == SubRecipeRef && sub.Some? {
      NoIngredientsSubRecipe(sub.value, subRecipes, 0);
    } else if c.kind == MenuItemRef && nested.Some? && nested.value.id != item.id {
      NoIngredientsMenuItem(nested.value, subRecipes, menu, depth + 1);
    }
  }

  /* ---------------- depth ---------------- */

  /**
   * At the depth ceiling a nested sub-recipe is costed past the ceiling,
   * so its edge adds 0: this is where a reference cycle stops.
   */
  lemma SubRecipeEdgeAtCeiling(sr: SubRecipe, c: ComponentUsage, ingredients: seq<Ingredient>,
                               subRecipes: seq<SubRecipe>)
    requires c.kind == SubRecipeRef
    ensures SubComponentCost(sr, c, ingredients, subRecipes, MaxDepth) == 0.0
  {
    var found := FindSubRecipe(c.id, subRecipes);
    if found.Some? && found.value.id != sr.id {
      assert SubRecipeCostPerKg(found.value, ingredients, subRecipes, MaxDepth + 1) == 0.0;
    }
  }

  /** At the depth ceiling a nested menu item adds 0 for the same reason. */
  lemma MenuItemEdgeAtCeiling(item: MenuItem, c: ComponentUsage, ingredients: seq<Ingredient>,
                              subRecipes: seq<SubRecipe>, menu: seq<MenuItem>)
    requires c.kind == MenuItemRef
    ensures MenuComponentCost(item, c, ingredients, subRecipes, menu, MaxDepth) == 0.0
  {
  }

  /**
   * In a menu item a sub-recipe edge costs the same at every depth, inside
   * every item and against every menu: the sub-recipe is always costed
   * afresh from depth 0.
   */
  lemma MenuSubRecipeEdgeDepthFree(item1: MenuItem, item2: MenuItem, c: ComponentUsage, ingredients: seq<Ingredient>,
                                   subRecipes: seq<SubRecipe>, menu1: seq<MenuItem>, menu2: seq<MenuItem>,
                                   d1: nat, d2: nat)
    requires d1 <= MaxDepth && d2 <= MaxDepth && c.kind == SubRecipeRef
    ensures MenuComponentCost(item1, c, ingredients, subRecipes, menu1, d1)
         == MenuComponentCost(item2, c, ingredients, subRecipes, menu2, d2)
  {
  }

  /* ---------------- yield ---------------- */

  /**
   * Below the depth ceiling and with a positive yield, the per-kilogram cost
   * times the yield gives back the summed component cost.
   */
  lemma CostPerKgTimesYield(sr: SubRecipe, ingredients: seq<Ingredient>, subRecipes: seq<SubRecipe>, depth: nat)
    requires depth <= MaxDepth && sr.yieldWeight > 0.0
    ensures SubRecipeCostPerKg(sr, ingredients, subRecipes, depth) * sr.yieldWeight
         == SubRecipeTotal(sr, sr.components, ingredients, subRecipes, depth)
  {
    var total := SubRecipeTotal(sr, sr.components, ingredients, subRecipes, depth);
    QuotientTimesDivisor(total, sr.yieldWeight, SubRecipeCostPerKg(sr, ingredients, subRecipes, depth));
  }

  /* ---------------- non-negativity ---------------- */

  /**
   * With non-negative prices and quantities a sub-recipe never costs less
   * than 0 per kilogram, at any depth and on any graph.
   */
  lemma {:induction false} NonNegativeSubRecipe(sr: SubRecipe, ingredients: seq<Ingredient>,
                                               subRecipes: seq<SubRecipe>, depth: nat)
    requires NonNegativePrices(ingredients) && NonNegativeSubRecipes(subRecipes)
    requires NonNegativeUsage(sr.components)
    ensures SubRecipeCostPerKg(sr, ingredients, subRecipes, depth) >= 0.0
    decreases MaxDepth + 1 - depth, 1, 0
  {
    if depth <= MaxDepth {
      var total := SubRecipeTotal(sr, sr.components, ingredients, subRecipes, depth);
      NonNegativeSubRecipeTotal(sr, sr.components, ingredients, subRecipes, depth);
      if sr.yieldWeight > 0.0 {
        QuotientNonNegative(total, sr.yieldWeight, SubRecipeCostPerKg(sr, ingredients, subRecipes, depth));
      }
    }
  }

  lemma {:induction false} NonNegativeSubRecipeTotal(sr: SubRecipe, components: seq<ComponentUsage>,
                                                    ingredients: seq<Ingredient>, subRecipes: seq<SubRecipe>,
                                                    depth: nat)
    requires depth <= MaxDepth
    requires NonNegativePrices(ingredients) && NonNegativeSubRecipes(subRecipes)
    requires NonNegativeUsage(components)
    ensures SubRecipeTotal(sr, components, ingredients, subRecipes, depth) >= 0.0
    decreases MaxDepth + 1 - depth, 0, |components| + 1
  {
    if components != [] {
      var n := |components| - 1;
      assert NonNegativeUsage(components[..n]);
      NonNegativeSubRecipeTotal(sr, components[..n], ingredients, subRecipes, depth);
      NonNegativeSubComponent(sr, components[n], ingredients, subRecipes, depth);
    }
  }

  lemma {:induction false} NonNegativeSubComponent(sr: SubRecipe, c: ComponentUsage, ingredients: seq<Ingredient>,
                                                  subRecipes: seq<SubRecipe>, depth: nat)
    requires depth <= MaxDepth
    requires NonNegativePrices(ingredients) && NonNegativeSubRecipes(subRecipes)
    requires c.quantity >= 0.0
    ensures SubComponentCost(sr, c, ingredients, subRecipes, depth) >= 0.0
    decreases MaxDepth + 1 - depth, 0, 1
  {
    if c.kind == SubRecipeRef {
      NonNegativeSubRecipeEdge(sr, c, ingredients, subRecipes, depth);
    } else if c.kind == IngredientRef {
      assert SubComponentCost(sr, c, ingredients, subRecipes, depth) == IngredientContribution(c, ingredients);
    }
  }

  /** A sub-recipe edge costs the nested recipe's non-negative cost per kilogram, scaled. */
  lemma {:induction false} NonNegativeSubRecipeEdge(sr: SubRecipe, c: ComponentUsage, ingredients: seq<Ingredient>,
                                                   subRecipes: seq<SubRecipe>, depth: nat)
    requires depth <= MaxDepth && c.kind == SubRecipeRef
    requires NonNegativePrices(ingredients) && NonNegativeSubRecipes(subRecipes)
    requires c.quantity >= 0.0
    ensures SubComponentCost(sr, c, ingredients, subRecipes, depth) >= 0.0
    decreases MaxDepth + 1 - depth, 0, 0
  {
    var found := FindSubRecipe(c.id, subRecipes);
    if found.Some? && found.value.id != sr.id {
      var nested := found.value;
      assert NonNegativeUsage(nested.components);
      NonNegativeSubRecipe(nested, ingredients, subRecipes, depth + 1);
      var costPerKg := SubRecipeCostPerKg(nested, ingredients, subRecipes, depth + 1);
      ProductNonNegative(costPerKg, c.quantity / 1000.0);
      assert SubComponentCost(sr, c, ingredients, subRecipes, depth) == costPerKg * (c.quantity / 1000.0);
    }
  }

  /** With non-negative prices and quantities a menu item never costs less than 0. */
  lemma {:induction false} NonNegativeMenuItem(item: MenuItem, ingredients: seq<Ingredient>,
                                              subRecipes: seq<SubRecipe>, menu: seq<MenuItem>, depth: nat)
    requires NonNegativePrices(ingredients) && NonNegativeSubRecipes(subRecipes) && NonNegativeMenu(menu)
    requires NonNegativeUsage(item.components)
    ensures MenuItemCost(item, ingredients, subRecipes, menu, depth) >= 0.0
    decreases MaxDepth + 1 - depth, 1, 0
  {
    if depth <= MaxDepth {
      NonNegativeMenuItemTotal(item, item.components, ingredients, subRecipes, menu, depth);
    }
  }

  lemma {:induction false} NonNegativeMenuItemTotal(item: MenuItem, components: seq<ComponentUsage>,
                                                   ingredients: seq<Ingredient>, subRecipes: seq<SubRecipe>,
                                                   menu: seq<MenuItem>, depth: nat)
    requires depth <= MaxDepth
    requires NonNegativePrices(ingredients) && NonNegativeSubRecipes(subRecipes) && NonNegativeMenu(menu)
    requires NonNegativeUsage(components)
    ensures MenuItemTotal(item, components, ingredients, subRecipes, menu, depth) >= 0.0
    decreases MaxDepth + 1 - depth, 0, |components|
  {
    if components != [] {
      var n := |components| - 1;
      assert NonNegativeUsage(components[..n]);
      NonNegativeMenuItemTotal(item, components[..n], ingredients, subRecipes, menu, depth);
      NonNegativeMenuComponent(item, components[n], ingredients, subRecipes, menu, depth);
    }
  }

  lemma {:induction false} NonNegativeMenuComponent(item: MenuItem, c: ComponentUsage, ingredients: seq<Ingredient>,
                                                   subRecipes: seq<SubRecipe>, menu: seq<MenuItem>, depth: nat)
    requires depth <= MaxDepth
    requires NonNegativePrices(ingredients) && NonNegativeSubRecipes(subRecipes) && NonNegativeMenu(menu)
    requires c.quantity >= 0.0
    ensures MenuComponentCost(item, c, ingredients, subRecipes, menu, depth) >= 0.0
    decreases MaxDepth + 1 - depth, 0, 0
  {
    var nested := FindMenuItem(c.id, menu);
    var cost := MenuComponentCost(item, c, ingredients, subRecipes, menu, depth);
    if c.kind == MenuItemRef {
      if nested.Some? && nested.value.id != item.id {
        assert NonNegativeUsage(nested.value.components);
        NonNegativeMenuItem(nested.value, ingredients, subRecipes, menu, depth + 1);
        var costOfNested := MenuItemCost(nested.value, ingredients, subRecipes, menu, depth + 1);
        ProductNonNegative(costOfNested, c.quantity);
        assert cost == costOfNested * c.quantity;
      }
    } else {
      NonNegativeMenuLeafEdge(item, c, ingredients, subRecipes, menu, depth);
    }
  }

  /** The ingredient and sub-recipe edges of a menu item, which do not recurse into the menu. */
  lemma NonNegativeMenuLeafEdge(item: MenuItem, c: ComponentUsage, ingredients: seq<Ingredient>,
                                subRecipes: seq<SubRecipe>, menu: seq<MenuItem>, depth: nat)
    requires depth <= MaxDepth && c.kind != MenuItemRef
    requires NonNegativePrices(ingredients) && NonNegativeSubRecipes(subRecipes)
    requires c.quantity >= 0.0
    ensures MenuComponentCost(item, c, ingredients, subRecipes, menu, depth) >= 0.0
  {
    var sub := FindSubRecipe(c.id, subRecipes);
    var cost := MenuComponentCost(item, c, ingredients, subRecipes, menu, depth);
    if c.kind == SubRecipeRef && sub.Some? {
      assert NonNegativeUsage(sub.value.components);
      NonNegativeSubRecipe(sub.value, ingredients, subRecipes, 0);
      var costPerKg := SubRecipeCostPerKg(sub.value, ingredients, subRecipes, 0);
      ProductNonNegative(costPerKg, c.quantity / 1000.0);
      assert cost == costPerKg * (c.quantity / 1000.0);
    }
  }

  /* ---------------- food-cost tiers ---------------- */

  /** The boundaries belong to the lower tier: 25 is green and 35 is yellow. */
  lemma FoodCostBoundaries()
    ensures FoodCostColor(25.0) == GreenClasses
    ensures FoodCostColor(35.0) == YellowClasses
    ensures FoodCostColor(35.01) == RedClasses
  {
  }

  /**
   * An item with a positive selling price is shown green exactly when its
   * cost is at most a quarter of the price, and red exactly when the cost
   * is above 35 per cent of it.
   */
  lemma FoodCostTierByPrice(cost: real, sellingPrice: real)
    requires sellingPrice > 0.0
    ensures FoodCostColor(FoodCostRatio(cost, sellingPrice)) == GreenClasses <==> cost * 4.0 <= sellingPrice
    ensures FoodCostColor(FoodCostRatio(cost, sellingPrice)) == RedClasses <==> cost * 100.0 > sellingPrice * 35.0
  {
    var r := FoodCostRatio(cost, sellingPrice);
    assert r * sellingPrice == cost * 100.0;
    assert r <= 25.0 <==> r * sellingPrice <= 25.0 * sellingPrice;
    assert r > 35.0 <==> r * sellingPrice > 35.0 * sellingPrice;
  }
}

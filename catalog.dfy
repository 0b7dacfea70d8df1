/**
 * The catalog snapshot that the cost engine reads: ingredients, sub-recipes
 * and menu items, with the typed usage edges between them (types.ts).
 * Prices, quantities and weights are real numbers; floating-point rounding
 * is not modelled.
 */
module Catalog {
  import opened Options

  /** The unit an ingredient is priced in. `Each` is the source's 'unit'. */
  datatype Unit = Kg | G | L | Ml | Each | Pz

  /** What a usage edge points at. */
  datatype ComponentType = IngredientRef | SubRecipeRef | MenuItemRef

  datatype Ingredient = Ingredient(
    id: string,
    name: string,
    unit: Unit,
    pricePerUnit: real,
    category: string,
    supplierId: Option<string>)

  /**
   * One edge of the composition graph. The quantity is in grams for
   * ingredient and sub-recipe references and a piece count for menu items.
   */
  datatype ComponentUsage = ComponentUsage(id: string, kind: ComponentType, quantity: real)

  datatype SubRecipe = SubRecipe(
    id: string,
    name: string,
    components: seq<ComponentUsage>,
    yieldWeight: real,
    initialWeight: real,
    procedure: Option<string>)

  datatype MenuItem = MenuItem(
    id: string,
    name: string,
    components: seq<ComponentUsage>,
    sellingPrice: real,
    category: string)

  function IngredientKey(i: Ingredient): string { i.id }
  function SubRecipeKey(s: SubRecipe): string { s.id }
  function MenuItemKey(m: MenuItem): string { m.id }

  /** `k` is the first position of `s` whose key is `id`. */
  ghost predicate FirstMatch<T>(s: seq<T>, key: T -> string, id: string, k: int)
  {
    0 <= k < |s| && key(s[k]) == id && forall j :: 0 <= j < k ==> key(s[j]) != id
  }

  /**
   * `Array.prototype.find` with an id-equality predicate: the first element
   * whose key is `id`, or nothing when no element has that key.
   */
  function Find<T>(s: seq<T>, key: T -> string, id: string): (r: Option<T>)
    ensures r.None? <==> forall k :: 0 <= k < |s| ==> key(s[k]) != id
    ensures r.Some? ==> exists k :: FirstMatch(s, key, id, k) && r.value == s[k]
    ensures r.Some? ==> key(r.value) == id && r.value in s
  {
    if s == [] then None
    else if key(s[0]) == id then
      assert FirstMatch(s, key, id, 0);
      Some(s[0])
    else
      var r := Find(s[1..], key, id);
      assert r.Some? ==> exists k :: FirstMatch(s, key, id, k) && r.value == s[k] by {
        if r.Some? {
          var k :| FirstMatch(s[1..], key, id, k) && r.value == s[1..][k];
          assert FirstMatch(s, key, id, k + 1);
        }
      }
      r
  }

  /** There is at most one first match. */
  lemma FirstMatchUnique<T>(s: seq<T>, key: T -> string, id: string, k: int, m: int)
    requires FirstMatch(s, key, id, k) && FirstMatch(s, key, id, m)
    ensures k == m
  {
  }

  function FindIngredient(id: string, ingredients: seq<Ingredient>): Option<Ingredient>
  {
    Find(ingredients, IngredientKey, id)
  }

  function FindSubRecipe(id: string, subRecipes: seq<SubRecipe>): Option<SubRecipe>
  {
    Find(subRecipes, SubRecipeKey, id)
  }

  function FindMenuItem(id: string, menu: seq<MenuItem>): Option<MenuItem>
  {
    Find(menu, MenuItemKey, id)
  }

  /** The snapshot with every ingredient of id `id` deleted. */
  function RemoveIngredient(ingredients: seq<Ingredient>, id: string): (r: seq<Ingredient>)
    ensures forall i :: i in r <==> i in ingredients && i.id != id
  {
    if ingredients == [] then []
    else if ingredients[0].id == id then RemoveIngredient(ingredients[1..], id)
    else [ingredients[0]] + RemoveIngredient(ingredients[1..], id)
  }

  /**
   * Deleting the ingredients of one id makes that id dangling and leaves the
   * lookup of every other id as it was (first-match order is kept).
   */
  lemma {:induction false} RemoveIngredientLookup(ingredients: seq<Ingredient>, removed: string, id: string)
    ensures FindIngredient(id, RemoveIngredient(ingredients, removed)) ==
            if id == removed then None else FindIngredient(id, ingredients)
  {
    if ingredients != [] {
      RemoveIngredientLookup(ingredients[1..], removed, id);
      var rest := RemoveIngredient(ingredients[1..], removed);
      if ingredients[0].id != removed {
        assert RemoveIngredient(ingredients, removed)[1..] == rest;
      }
    }
  }
}

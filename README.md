# Pizza-Pro cost engine and importer header mapping, in Dafny

This project models two parts of the Pizza-Pro food-cost app.

**The recipe cost engine** (`services/calculator.ts`) works on a snapshot of
the catalog: ingredients with a unit and a price, sub-recipes (semi-finished
preparations with a yield) and menu items (sellable dishes with a price).
Components link them by id, and the graph may contain dangling references
and cycles.
- `getIngredientPrice` is a first-match lookup.
- `calculateSubRecipeCostPerKg` sums the cost of a sub-recipe's components and
  divides by the yield.
- `calculateMenuItemCost` sums the cost of a dish's components.
- Both resolvers are left-to-right `reduce` folds.
- Quantities are in grams. A price per `kg` or `l` is scaled by 0.001.
- A nested sub-recipe is charged per kilogram used.
- A nested menu item is charged per piece.
- A missing or self reference adds nothing.
- Recursion stops past depth 5. Inside a menu item, a sub-recipe is always
  costed from depth 0.
- `getFoodCostColor` maps a food-cost percentage to a green, yellow or red tier.
  The views compute that percentage as cost over selling price times 100, and
  0 when there is no positive price.

**The bulk importer's header mapping** (`components/Importer.tsx`):
- `guessField` lower-cases and trims a column name, then tries seven substring
  rules in a fixed order. The first hit names the catalog field. A column that
  no rule matches is kept exactly as written.
- The CSV branch copies every row key by key under the guessed field, so a
  later column overwrites an earlier one that maps to the same field.
  `Object.fromEntries` over the mapped entries in the JSON branch does the same.
- `validateRow` rejects a row whose `name` is falsy.

Modules:
- `Options`
- `Catalog`: entities and the first-match `Find`
- `Calculator`: the resolvers and the food-cost tier
- `RealFacts`: nonlinear facts about real products and quotients
- `CostProperties`: lemmas relating several calls
- `CostExamples`: worked figures
- `Importer`: string primitives, `GuessField`, the row loop and `ValidateRow`
- `ImporterExamples`

`validateRow` tests `!r.name`. That is also true for the number 0, so the model
rejects a numeric 0 name as well as a missing or empty one. This follows the
code rather than the wording "missing or empty".

A consequence of the rule order, shown in `ImporterExamples.CollisionExample`:
- A "Supplier Name" column contains "name", so it is also mapped to `name`.
- If it comes after the product's "Name" column, its value replaces the product name.

## Model

| member | source | states |
|---|---|---|
| Catalog.Find | services/calculator.ts:5 | `Array.prototype.find` by id: none exactly when no element has the id; otherwise an element with that id, the one at the first matching position |
| Catalog.RemoveIngredientLookup | services/calculator.ts:23-24 | after deleting the ingredients of one id, that id's lookup fails and every other id's lookup is unchanged |
| Calculator.IngredientPrice | services/calculator.ts:4-7 | the price of the first ingredient with the id; 0 when no ingredient has it |
| Calculator.Multiplier | services/calculator.ts:26 | 0.001 for a price per kg or per l, 1 for every other unit |
| Calculator.IngredientLineCost | services/calculator.ts:26-27 | kg and l prices are charged per gram (price × quantity / 1000); g, ml, unit and pz prices are charged price × quantity |
| Calculator.IngredientContribution | services/calculator.ts:22-28 | a dangling ingredient edge adds 0; with non-negative prices and quantity the contribution is non-negative |
| Calculator.SubRecipeCostPerKg | services/calculator.ts:13-40 | 0 past depth 5, and 0 when the yield is not positive |
| Calculator.SubRecipeTotal | services/calculator.ts:21-37 | the reduce over a sub-recipe's components: 0 for none, otherwise the total of all but the last plus what the last adds, left to right from an accumulator of 0 |
| Calculator.SubComponentCost | services/calculator.ts:22-36 | what one edge adds inside a sub-recipe: an ingredient its line cost (0 when missing); a sub-recipe its per-kg cost at depth + 1 times quantity / 1000 (0 when missing or the sub-recipe itself); a menu item 0 |
| Calculator.MenuItemCost | services/calculator.ts:46-77 | 0 past depth 5 |
| Calculator.MenuItemTotal | services/calculator.ts:55-76 | the reduce over a menu item's components: 0 for none, otherwise the total of all but the last plus what the last adds |
| Calculator.MenuComponentCost | services/calculator.ts:56-75 | what one edge adds inside a menu item: an ingredient its line cost (0 when missing); a sub-recipe its per-kg cost from depth 0 times quantity / 1000 (0 when missing); a menu item its cost at depth + 1 times the count (0 when missing or the item itself) |
| Calculator.FoodCostColor | services/calculator.ts:79-83 | green exactly when p ≤ 25, yellow exactly when 25 < p ≤ 35, red exactly when p > 35 |
| Calculator.FoodCostRatio | components/Views/MenuView.tsx:346 | with a positive price the ratio times the price is 100 × cost; 0 without a positive price; never negative for a non-negative cost |
| CostProperties.SubRecipeTotalAppend | services/calculator.ts:21-37 | the sub-recipe fold over a + b is the fold over a plus the fold over b |
| CostProperties.MenuItemTotalAppend | services/calculator.ts:55-76 | the menu-item fold over a + b is the fold over a plus the fold over b |
| CostProperties.SubComponentDangling | services/calculator.ts:23-36 | inside a sub-recipe, an edge to a missing ingredient, a missing sub-recipe, the sub-recipe itself, or any menu item adds 0 |
| CostProperties.MenuComponentDangling | services/calculator.ts:57-71 | inside a menu item, an edge to a missing ingredient, sub-recipe or menu item, or to the item itself, adds 0 |
| CostProperties.SubRecipeDropDangling | services/calculator.ts:21-37 | removing a dangling or self edge from a sub-recipe leaves its total unchanged |
| CostProperties.MenuItemDropDangling | services/calculator.ts:55-76 | removing a dangling or self edge from a menu item leaves its total unchanged |
| CostProperties.RemoveIngredientContribution | services/calculator.ts:23-24 | deleting an ingredient from the snapshot zeroes the edges to it and leaves every other ingredient edge unchanged |
| CostProperties.RemoveIngredientFromSubRecipe | services/calculator.ts:21-28 | for ingredient-only components, deleting an ingredient from the snapshot gives the same total as deleting its edges |
| CostProperties.EmptyMenuIgnoresMenuItems | services/calculator.ts:69-71 | with the default empty menu, a menu item costs what its non-menu-item edges cost against any menu. The dashboard calls the resolver without a menu (components/Views/DashboardView.tsx, lines 24, 43 and 58) while the menu view passes it, so the dashboard prices the nested items of a combo at 0 |
| CostProperties.IngredientEdgesAgree | services/calculator.ts:56-61 | ingredient-only components cost the same in the sub-recipe and menu-item resolvers, at any depths |
| CostProperties.NoIngredientsSubRecipe | services/calculator.ts:13-40 | with no ingredients, every sub-recipe costs 0 per kg, whatever its nesting or cycles |
| CostProperties.NoIngredientsMenuItem | services/calculator.ts:46-77 | with no ingredients, every menu item costs 0 |
| CostProperties.SubRecipeEdgeAtCeiling | services/calculator.ts:19-34 | at depth 5 a nested sub-recipe edge adds 0; this is where a cycle stops |
| CostProperties.MenuItemEdgeAtCeiling | services/calculator.ts:53-73 | at depth 5 a nested menu-item edge adds 0 |
| CostProperties.MenuSubRecipeEdgeDepthFree | services/calculator.ts:62-67 | in a menu item, a sub-recipe edge costs the same at every depth, in every item and against every menu |
| CostProperties.CostPerKgTimesYield | services/calculator.ts:39 | with a positive yield, the per-kg cost times the yield is the summed component cost |
| CostProperties.NonNegativeSubRecipe | services/calculator.ts:13-40 | with non-negative prices and quantities, the per-kg cost is never negative, on any graph |
| CostProperties.NonNegativeMenuItem | services/calculator.ts:46-77 | with non-negative prices and quantities, a menu item's cost is never negative |
| CostProperties.FoodCostBoundaries | services/calculator.ts:79-83 | 25 is green, 35 is yellow, 35.01 is red |
| CostProperties.FoodCostTierByPrice | components/Views/MenuView.tsx:346-352 | with a positive price, an item shows green exactly when cost ≤ price / 4, and red exactly when cost > 35% of the price |
| CostExamples.UnitWorkedFigures | services/calculator.ts:26-27 | 250 g of a 10/kg ingredient costs 2.5; the same quantity priced per piece costs 2500 |
| CostExamples.SubRecipeWorkedFigure | services/calculator.ts:21-39 | 1632 g of 10/kg flour costs 16.32; with a 1.6 kg yield that is 10.2 per kg |
| CostExamples.MenuWorkedFigures | services/calculator.ts:62-73 | 250 g of that dough costs 2.55 in a dish; two pieces of a 5.0 side cost 10.0 |
| CostExamples.CycleWorkedFigure | services/calculator.ts:19-32 | a two-recipe cycle gives a finite cost (30 per kg) decided by the depth limit |
| Importer.ToLower | components/Importer.tsx:16 | same length; each character is lowered (ASCII letters) |
| Importer.Trim | components/Importer.tsx:16 | the input is the result with only trimmable characters around it, and the result has none at either end |
| Importer.IncludesOccurs | components/Importer.tsx:17-23 | `includes` holds exactly when the pattern occurs at some position |
| Importer.Includes | components/Importer.tsx:17-23 | `String.prototype.includes`: whether the pattern matches at the front of the string or, recursively, of a later suffix |
| Importer.NormalizeKey | components/Importer.tsx:16 | the key the rules test: the raw key lower-cased, then trimmed |
| Importer.GuessField | components/Importer.tsx:15-25 | the seven substring tests on the normalised key in source order (name, price, unit, category, supplier, yield, components), each returning its field; the raw key when none hits |
| Importer.GuessFieldIsTable | components/Importer.tsx:17-24 | the chain of tests is the rule table read in order |
| Importer.ClassifyFirstRule | components/Importer.tsx:17-23 | reading the table, the first rule whose pattern occurs decides the field |
| Importer.ClassifyNoRule | components/Importer.tsx:24 | reading the table, a key no rule matches is returned unchanged |
| Importer.GuessFieldByRules | components/Importer.tsx:15-25 | guessField returns the field of the first matching rule of the normalised key, or the raw key, in its original case and padding, when none matches |
| Importer.GuessFieldIdempotent | components/Importer.tsx:15-25 | guessField(guessField(k)) == guessField(k) for every key |
| Importer.NameFieldFixed | components/Importer.tsx:17 | `name` maps to itself |
| Importer.PricePerUnitFieldFixed | components/Importer.tsx:18 | `pricePerUnit` maps to itself |
| Importer.UnitFieldFixed | components/Importer.tsx:19 | `unit` maps to itself |
| Importer.CategoryFieldFixed | components/Importer.tsx:20 | `category` maps to itself |
| Importer.SupplierIdFieldFixed | components/Importer.tsx:21 | `supplierId` maps to itself |
| Importer.YieldWeightFieldFixed | components/Importer.tsx:22 | `yieldWeight` maps to itself |
| Importer.ComponentsFieldFixed | components/Importer.tsx:23 | `components` maps to itself |
| Importer.RenamedKeys | components/Importer.tsx:60-64 | the normalised row's keys are exactly the guessed fields of the raw keys |
| Importer.Renamed | components/Importer.tsx:60-64 | the row built by storing each entry, in order, under the field its key is guessed to be, a later entry overwriting an earlier one; the importer instantiates the guess with GuessField |
| Importer.RenamedLastWins | components/Importer.tsx:62 | when several raw keys map to one field, the value of the last of them is kept |
| Importer.RenamedKeysStable | components/Importer.tsx:60-64 | every key of a normalised row is its own guessed field, so normalising again keeps the keys |
| Importer.NormalizeRow | components/Importer.tsx:60-64 | the key-by-key copy loop builds exactly the last-wins renamed row |
| Importer.ValidateRow | components/Importer.tsx:72-75 | the error 'Manca il campo name' exactly when `name` is missing or falsy; no error otherwise |
| Importer.Truthy | components/Importer.tsx:73 | JavaScript truthiness of a cell: non-empty text, a non-zero number; `undefined` is falsy |
| Importer.ValidateRenamed | components/Importer.tsx:73 | a normalised row passes validation exactly when the last raw column mapped to `name` holds a truthy value |
| ImporterExamples.NameHeadersExample | components/Importer.tsx:16-17 | "  Name " and "NAME" both map to `name` |
| ImporterExamples.UnitPriceExample | components/Importer.tsx:17-19 | "unit_price" maps to `pricePerUnit`, because price is tried before unit |
| ImporterExamples.UnknownHeaderExample | components/Importer.tsx:24 | "Fornitore" matches no rule and is kept as written, capital F included |
| ImporterExamples.CollisionExample | components/Importer.tsx:62 | columns "Name" then "Supplier Name" both map to `name`; the row keeps the later value |
| ImporterExamples.CollisionValidates | components/Importer.tsx:74 | that row passes validation |
| ImporterExamples.ValidateRowExamples | components/Importer.tsx:73 | a missing name, empty text, the number 0 and undefined are rejected; non-empty text and a non-zero number are accepted |

## Left out

- Firebase authentication, Firestore sync, saving and deleting documents (`firebase.ts`, `services/database.ts`, `App.tsx`, `components/AuthView.tsx`): network and persistence. Deleting an ingredient appears only as a change to the snapshot (`Catalog.RemoveIngredient`).
- The React views and their state (`components/Views/*`, `components/Layout.tsx`, `components/SettingsOverlay.tsx`). Only the food-cost ratio they compute inline is modelled, as `Calculator.FoodCostRatio`.
- The Gemini recipe generation in `components/Views/LabView.tsx`: an external AI service.
- Reading files with FileReader, `JSON.parse`, PapaParse, and the chunked `Promise.all` save loop in `components/Importer.tsx`: I/O and concurrency in foreign libraries. A parsed row enters the model as its sequence of (key, value) entries.
- JavaScript number semantics: arithmetic is over mathematical reals. IEEE-754 rounding, `NaN`, infinities and `toFixed` display are not modelled. `Importer.Truthy` therefore has no `NaN` case, although `NaN` is falsy in the source.
- Importer.ToLower: lowers only the ASCII letters A–Z. The Unicode case mappings of `toLowerCase` for other letters are not modelled.
- The order in which `for…in` and `Object.entries` enumerate keys (integer-like keys first, then insertion order) is taken as given: the entries sequence is in enumeration order. A JavaScript object cannot repeat a key, but the model does not require distinct raw keys.
- The special assignment behaviour of a `__proto__` key in a plain object is not modelled. Such a column is stored like any other.
- Row values other than text, numbers and `undefined` (JSON objects, arrays, booleans, `null`) have no `Cell` case.
- A component whose `type` string is none of the three known kinds cannot be represented: `ComponentType` has exactly three cases. The source passes over such an edge with `return acc`.
- `depth` is a natural number. The source's default of 0 is passed explicitly, and negative or fractional depths are not modelled.
- The sample catalog in `constants.ts`: seed data only.

# Bottled drinks calculator — a verified model

The bottling app works out how much of each ingredient a batch of bottled
drinks needs. Each recipe gives per-bottle amounts. Customer orders say
how many bottles of each drink are wanted. The app scales the amounts by
the quantities and sums them per ingredient. This project models that core
in Dafny and proves what it computes:

- **The calculator screen** (`src/BottledDrinksCalculator.tsx`):
  - the built-in drink catalog;
  - the order list and its copy-on-write updates: add, rename customer, set item quantity (clamped at 0), delete, reset;
  - the bottles-per-drink summary;
  - the scaled batch recipe;
  - the per-ingredient totals;
  - the lookup from a drink's display name back to its catalog key.
- **The helpers** (`src/lib/utils.ts`):
  - product validation;
  - the second ingredient aggregator, over products, per-location quantities and recipe scaling;
  - the two number formatters built on `toFixed`.
- **The recipe store** (`src/lib/useRecipes.ts`): a map from product id to recipe, with add, partial update and delete.

Modules, one file each:
- `Wrappers`: `Option`.
- `Types`: the records of `src/lib/types.ts`.
- `Decimal`: an exact model of `Number.prototype.toFixed` on `real`s, plus what a numeral text denotes.
- `Format`: `formatNumber` and `formatAmount`.
- `Validation`: `validateProduct`, with `String.prototype.trim` as section 22.1.3.32 of ECMA-262 defines it.
- `Tallies`: the "create the entry with this unit on first sight, then add the amount" accumulation both aggregators use, specified by a reference function `Tally`.
- `IngredientTotals`: `calculateIngredientTotals`.
- `DrinkCatalog`: the `recipes` constant as the list of its entries in key order, and the name-to-key lookup.
- `Orders`: the order list updates.
- `Aggregates`: `getTotalIngredients` and `getTotalsByDrink`.
- `Batch`: `calculateBatchRecipe`, the Batch Recipes tab's lookup, and the positive-count filter of the summary.
- `RecipeStore`: `useRecipes`' map operations.

Notes on fidelity:
- **Loops stay loops.** The source's loops become methods with loops: `validateProduct`, `calculateIngredientTotals`, `getTotalIngredients` and `getTotalsByDrink`. Each method is proved equal to a fold or reference function, and the properties are proved about that function.
- **Expressions stay functions.** The copy-on-write list and map expressions are functions.
- **The two catalogs differ.** The calculator's catalog (`src/BottledDrinksCalculator.tsx:39-65`) gives every ingredient in `ml`. The recipe store's defaults (`src/lib/useRecipes.ts:5-31`) give Cane Syrup and Strawberry Syrup in `g`. Both are modelled as written.
- **Host values are parameters.** `Date.now()` is the parameter `now`, the `confirm` dialog's answer is `confirmed`, and the catalog is passed in as `cat` (`DrinkCatalog.Recipes()` is the shipped one).

## Model

| member | source | states |
|---|---|---|
| DrinkCatalog.RecipesFacts | src/BottledDrinksCalculator.tsx:39-65 | the shipped catalog has three drinks with unique keys and names, peach-palmer, strawberry-lemonade and cold-brew, every ingredient in ml with scaling 1 |
| DrinkCatalog.KeyIndex | src/BottledDrinksCalculator.tsx:120 | a key the catalog has is found at the first entry carrying it |
| DrinkCatalog.RecipeAt | src/BottledDrinksCalculator.tsx:120 | `recipes[key]` for a key the catalog has is the recipe of an entry with that key |
| DrinkCatalog.FindKeyByName | src/BottledDrinksCalculator.tsx:311 | the lookup finds nothing exactly when no drink carries the name |
| DrinkCatalog.FindKeyByNameFirst | src/BottledDrinksCalculator.tsx:311 | a key found is that of the first drink, in key order, carrying the name |
| DrinkCatalog.FindKeyRoundTrip | src/BottledDrinksCalculator.tsx:311 | with unique keys, the key found leads back to a drink of that name |
| DrinkCatalog.FindKeyOfEntry | src/BottledDrinksCalculator.tsx:311 | with unique names, each drink's name finds that drink's own key |
| Orders.CreateInitialOrderItems | src/BottledDrinksCalculator.tsx:67-73 | one item per catalog key in key order, id `${now}-${key}`, drink type the key, quantity 0 |
| Orders.InitialItemIdsDistinct | src/BottledDrinksCalculator.tsx:69 | with unique keys, the `${now}-${key}` item ids of a new order are pairwise distinct |
| Orders.ItemId | src/BottledDrinksCalculator.tsx:69 | an item id is the decimal text of `now`, a `-`, then the drink key, so time and key can be read back from it |
| Orders.AddOrder | src/BottledDrinksCalculator.tsx:75-82 | exactly one order appended, earlier orders untouched, id the decimal text of `now`, empty customer name, initial items |
| Orders.UpdateOrderCustomer | src/BottledDrinksCalculator.tsx:84-88 | same length; only the customer name of orders with the id changes, ids and items everywhere kept |
| Orders.UpdateOrderItem | src/BottledDrinksCalculator.tsx:90-105 | same orders and items in the same places; only the matching item of the matching order changes, to quantity max(0, q) |
| Orders.SetItemQuantity | src/BottledDrinksCalculator.tsx:95-100 | the inner map keeps length, ids and drink types; exactly the items with the id get the new quantity, all others keep theirs |
| Orders.DeleteOrder | src/BottledDrinksCalculator.tsx:107-109 | an order is kept exactly when it was there and its id differs |
| Orders.DeleteOrderAppend | src/BottledDrinksCalculator.tsx:107-109 | deleting distributes over concatenation, so kept orders keep their relative order |
| Orders.DeleteAbsentOrder | src/BottledDrinksCalculator.tsx:107-109 | deleting an id no order has changes nothing |
| Orders.DeleteOrderIdempotent | src/BottledDrinksCalculator.tsx:107-109 | deleting twice is deleting once |
| Orders.DeleteUniqueOrder | src/BottledDrinksCalculator.tsx:107-109 | deleting an id that only one order carries takes out that order and keeps all others in their order |
| Orders.ResetOrders | src/BottledDrinksCalculator.tsx:111-115 | empty when confirmed, unchanged otherwise |
| Orders.AddOrderWellFormed | src/BottledDrinksCalculator.tsx:75-82 | adding keeps every item a catalog drink with a quantity of 0 or more |
| Orders.UpdateOrderCustomerWellFormed | src/BottledDrinksCalculator.tsx:84-88 | renaming keeps that invariant |
| Orders.UpdateOrderItemWellFormed | src/BottledDrinksCalculator.tsx:90-105 | whatever quantity is entered, no stored quantity becomes negative |
| Orders.DeleteOrderWellFormed | src/BottledDrinksCalculator.tsx:107-109 | deleting keeps the invariant |
| Aggregates.WellFormedKnown | src/BottledDrinksCalculator.tsx:120 | well-formed orders only name catalog drinks, so every `recipes[item.drinkType]` lookup succeeds |
| Aggregates.TotalIngredients | src/BottledDrinksCalculator.tsx:135-151 | the nested loops build exactly the reference tally of the orders' contributions in iteration order |
| Aggregates.AddItems | src/BottledDrinksCalculator.tsx:139-147 | the item loop adds each item's contributions in turn |
| Aggregates.AddIngredients | src/BottledDrinksCalculator.tsx:141-146 | the ingredient loop adds each ingredient's amount times quantity in turn |
| Aggregates.IngredientEntries | src/BottledDrinksCalculator.tsx:145 | one contribution per ingredient, amount times the item's quantity, scaling not applied |
| Aggregates.TotalIngredientsMeaning | src/BottledDrinksCalculator.tsx:135-151 | an ingredient has an entry exactly when a recipe of an ordered item uses it, even at quantity 0; its amount is the sum over orders, items and matching ingredients of amount times quantity; its unit is that of its first occurrence |
| Aggregates.TotalIngredientsAppend | src/BottledDrinksCalculator.tsx:136-150 | totals of two concatenated order lists are the pointwise sums of the separate totals, the first list's unit winning |
| Aggregates.NoOrdersNoTotals | src/BottledDrinksCalculator.tsx:117-151 | both aggregates are empty for no orders |
| Aggregates.NothingOrderedNothingNeeded | src/BottledDrinksCalculator.tsx:145 | items all at quantity 0 need nothing of any ingredient |
| Aggregates.AddOrderNeedsNothing | src/BottledDrinksCalculator.tsx:75-82 | adding a fresh order changes no ingredient's total need |
| Aggregates.OrdersNeedAppend | src/BottledDrinksCalculator.tsx:136-150 | ingredient needs of two concatenated order lists are the sums of the parts' needs |
| Aggregates.DeleteRemovesNeed | src/BottledDrinksCalculator.tsx:107-151 | deleting an order by its unique id lowers every ingredient's total need by exactly that order's need and changes no other order's contribution |
| Aggregates.TotalsByDrink | src/BottledDrinksCalculator.tsx:117-125 | the reduce builds exactly the reference bottle counts |
| Aggregates.BumpEffect | src/BottledDrinksCalculator.tsx:121 | one reduce step adds the quantity to the drink's count, starting from 0 for a new drink, and leaves every other drink's count as it was |
| Aggregates.CountItems | src/BottledDrinksCalculator.tsx:119-122 | the inner loop adds each item's quantity under its drink's name in turn |
| Aggregates.AmountsAddAll | src/BottledDrinksCalculator.tsx:121 | counting bottles is tallying with the units dropped |
| Aggregates.TotalsByDrinkMeaning | src/BottledDrinksCalculator.tsx:117-125 | a drink name has an entry exactly when some item is that drink, even at quantity 0, and its count is the sum of those items' quantities |
| Aggregates.ItemsBottlesPositive | src/BottledDrinksCalculator.tsx:121 | with no negative quantity, a drink's count in one order is at least 0, and positive exactly when one of its items is |
| Aggregates.OrdersBottlesPositive | src/BottledDrinksCalculator.tsx:118-124 | over well-formed orders, a drink's count is at least 0, and positive exactly when one of its items is |
| Aggregates.OrdersBottlesAppend | src/BottledDrinksCalculator.tsx:118-124 | bottle counts of two concatenated order lists are the sums of the parts' counts |
| Aggregates.DeleteRemovesBottles | src/BottledDrinksCalculator.tsx:107-125 | deleting an order by its unique id lowers every drink's bottle count by exactly that order's bottles of it and changes no other order's contribution |
| Batch.CalculateBatchRecipe | src/BottledDrinksCalculator.tsx:127-133 | same length as the recipe; same names, units and scaling in order; each amount is the per-bottle amount times the bottle count |
| Batch.BatchOfOne | src/BottledDrinksCalculator.tsx:127-133 | a batch of one bottle is the recipe itself |
| Batch.BatchIsItemContribution | src/BottledDrinksCalculator.tsx:127-145 | one item's contribution to the totals is its drink's batch for its quantity |
| Batch.BatchAgreesWithTotals | src/BottledDrinksCalculator.tsx:127-151 | a single order of one item contributes exactly that item's batch rows, in order |
| Batch.BatchRowHasRecipe | src/BottledDrinksCalculator.tsx:291-312 | every drink name in the bottle counts finds its catalog key, so the `''` fallback is never taken |
| Batch.PeachPalmerBatch | src/BottledDrinksCalculator.tsx:40-47 | two Peach Palmers take 896 ml of Peach Tea |
| Batch.ShownDrinks | src/BottledDrinksCalculator.tsx:274 | exactly the drinks with a positive count are shown, each with its count unchanged |
| Batch.ShownDrinksMeaning | src/BottledDrinksCalculator.tsx:273-275 | over well-formed orders, a drink is shown exactly when one of its items has a positive quantity, with its bottle count |
| Tallies.FirstIndex | src/BottledDrinksCalculator.tsx:142-144 | the position of the first contribution to an ingredient |
| Tallies.Tally | src/lib/utils.ts:38-44 | the reference totals have a key for each contributed name |
| Tallies.AddEffect | src/lib/utils.ts:40-43 | one visit creates the ingredient's entry with zero and the contribution's unit if absent, keeps the unit if present, adds the amount, and leaves every other entry as it was |
| Tallies.TallyUnitIsFirst | src/lib/utils.ts:40-42 | an entry's unit is that of the first contribution with that name |
| Tallies.AddTally | src/lib/utils.ts:40-43 | one step of the loop body turns the totals of a prefix into those of the next prefix |
| Tallies.AddAllTally | src/lib/utils.ts:38-44 | running the loop body over more contributions from the totals of a prefix gives the totals of the whole |
| Tallies.TallyAppend | src/lib/utils.ts:38-44 | the totals of a concatenation are the pointwise merge of the parts' totals |
| Tallies.TallyEmpty | src/lib/utils.ts:32 | no contributions, no keys |
| Tallies.SumAppend | src/lib/utils.ts:43 | sums split over concatenation |
| IngredientTotals.CalculateIngredientTotals | src/lib/utils.ts:28-47 | the loops build exactly the reference tally of the products' scaled contributions |
| IngredientTotals.AddRecipeIngredients | src/lib/utils.ts:38-44 | the inner loop adds amount times total quantity times scaling for each ingredient in turn |
| IngredientTotals.ScaledEntries | src/lib/utils.ts:39 | one contribution per ingredient, amount times total quantity times scaling |
| IngredientTotals.TotalQuantity | src/lib/utils.ts:36-37 | the sum of a product's location quantities is at least 0 when none is negative |
| IngredientTotals.UnknownProductIgnored | src/lib/utils.ts:34-35 | removing a product with no recipe, wherever it stands, leaves the totals unchanged |
| IngredientTotals.IngredientTotalsMeaning | src/lib/utils.ts:33-45 | an ingredient has an entry exactly when a known product's recipe uses it; its amount is the sum of amount times the product's summed location quantities times scaling; its unit is that of its first occurrence |
| IngredientTotals.ProductNames | src/lib/utils.ts:33-44 | a name is contributed exactly when a product with a recipe has an ingredient of that name |
| IngredientTotals.ProductEntriesAppend | src/lib/utils.ts:33 | contributions of concatenated product lists concatenate |
| IngredientTotals.NoProductsNoTotals | src/lib/utils.ts:32 | no products, no totals |
| Validation.SkipBlanks | src/lib/utils.ts:11 | the scan from the front stops at the first code point that is not ECMAScript whitespace or a line terminator, everything skipped being whitespace |
| Validation.SkipBlanksBack | src/lib/utils.ts:11 | the scan from the back stops just after the last code point that is not whitespace, everything skipped being whitespace |
| Validation.TrimMeaning | src/lib/utils.ts:11 | `trim()` keeps a slice of the text with only whitespace before and after it, and the slice neither starts nor ends with whitespace |
| Validation.TrimEmptyIffBlank | src/lib/utils.ts:11 | the trimmed name is empty exactly when the name is all whitespace |
| Validation.CheckQuantities | src/lib/utils.ts:17-24 | the loop over the quantities record appends exactly the location errors, one per negative quantity, in record order |
| Validation.ValidateProduct | src/lib/utils.ts:9-26 | the loop yields the name error then one error per negative location in record order; the first error is the name error exactly when the name is blank; no errors exactly when the product is valid |
| Validation.NameErrorFirst | src/lib/utils.ts:11-16 | the first error is "Product name is required" exactly when the trimmed name is empty |
| Validation.QuantityErrorsAreQuantityErrors | src/lib/utils.ts:17-24 | no quantity error has the field `name` |
| Validation.QuantityErrorsEmpty | src/lib/utils.ts:17-24 | no quantity errors exactly when no quantity is negative |
| Validation.NoErrorsIffValid | src/lib/utils.ts:9-26 | an empty error list exactly for a non-blank name and no negative quantity |
| Validation.QuantityErrorInjective | src/lib/utils.ts:20-21 | different locations give different errors |
| Validation.OneErrorPerNegativeLocation | src/lib/utils.ts:17-24 | each location with a negative quantity gets exactly one `quantities.<location>` error, any other none |
| Validation.QuantityErrorsFromNegatives | src/lib/utils.ts:17-24 | every quantity error is the error of a location whose quantity is negative, so nothing else is pushed |
| Decimal.RoundedMagnitudeIsNearest | src/lib/utils.ts:50 | the digits `toFixed` keeps are the nearest integer to the scaled magnitude, ties going up |
| Decimal.FixedValue | src/lib/utils.ts:50 | `toFixed(f)` is a numeral with exactly f fraction digits, denoting the rounded value with the sign of x |
| Decimal.Fixed | src/lib/utils.ts:56-62 | `toFixed(f)` has at least f + 1 characters; its value and shape are stated by FixedValue and FixedWholeNoLeadingZeros |
| Decimal.FixedWholeNoLeadingZeros | src/lib/utils.ts:56 | the whole part of `toFixed(f)`, after any sign, is `0` or starts with a non-zero digit |
| Decimal.ValueOfDigits | src/BottledDrinksCalculator.tsx:77 | the decimal text of a whole number reads back as that number |
| Decimal.Digits | src/BottledDrinksCalculator.tsx:69-77 | the decimal text of a time stamp: only digits, never empty, starting with `0` only for 0 |
| Format.StripTrailingZeros | src/lib/utils.ts:50 | `replace(/\.?0+$/, '')` cuts the leftmost suffix matching the pattern and nothing else |
| Format.FormatNumberKeepsValue | src/lib/utils.ts:49-51 | `formatNumber(x)` denotes the same number as `x.toFixed(2)` |
| Format.FormatNumberShape | src/lib/utils.ts:49-51 | the result is a prefix of `toFixed(2)` that keeps the whole part, never ends in `.`, and does not end in `0` if it has a `.` |
| Format.FormatNumber | src/lib/utils.ts:49-51 | the result is a prefix of `toFixed(2)`; its value and shape are stated by FormatNumberKeepsValue and FormatNumberShape |
| Format.FormatNumberWhole | src/lib/utils.ts:49-51 | 5 gives "5" |
| Format.FormatNumberOneDecimal | src/lib/utils.ts:49-51 | 5.1 gives "5.1" |
| Format.FormatNumberTwoDecimals | src/lib/utils.ts:49-51 | 5.25 gives "5.25" |
| Format.Litres | src/lib/utils.ts:56 | `amount / 1000`: the litre figure times 1000 is the millilitre amount |
| Format.FormatAmountLitres | src/lib/utils.ts:54-59 | ml amounts of 1000 or more read "<litres, 2 places>L (<ml, 0 places>ml)" with an empty unit; the two numerals are exactly `(amount / 1000).toFixed(2)` and `amount.toFixed(0)`, denote the rounded values, and have no leading zeros |
| Format.FormatAmountPlain | src/lib/utils.ts:61-64 | every other amount reads exactly `amount.toFixed(1)`, a numeral with one decimal place denoting the rounded value and with no leading zeros, and the unit is unchanged |
| Format.FormatAmount | src/lib/utils.ts:53-65 | the unit is emptied exactly for ml amounts of 1000 or more and kept otherwise; the text is stated by FormatAmountLitres and FormatAmountPlain |
| Format.FormatAmountLitresExample | src/lib/utils.ts:54-58 | 1000 ml gives "1.00L (1000ml)" with no unit |
| Format.FormatAmountPlainExample | src/lib/utils.ts:61-64 | 500 ml gives "500.0" with the unit "ml" |
| RecipeStore.DefaultRecipes | src/lib/useRecipes.ts:5-31 | keys exactly peach-palmer, strawberry-lemonade, cold-brew, each storing its own key as product id |
| RecipeStore.DefaultRecipesComplete | src/lib/useRecipes.ts:5-31 | every default record is a complete recipe under its own product id |
| RecipeStore.AddRecipe | src/lib/useRecipes.ts:38-43 | the recipe stored under its product id, overwriting; all other keys unchanged |
| RecipeStore.UpdateRecipe | src/lib/useRecipes.ts:45-53 | the key's fields come from the patch where present, else from the previous record if any; other keys unchanged |
| RecipeStore.Patch | src/lib/useRecipes.ts:48-51 | `{ ...prev[productId], ...updates }`: each field comes from the update when it is present and from the previous record otherwise |
| RecipeStore.UpdateKeepsKey | src/lib/useRecipes.ts:45-53 | a patch renaming the product id still lands under the old key |
| RecipeStore.UpdateWithFullRecipe | src/lib/useRecipes.ts:38-53 | updating with a complete recipe under its own id is adding it |
| RecipeStore.UpdateWithEmptyPatch | src/lib/useRecipes.ts:45-53 | for a key the store already holds, an empty patch leaves the store unchanged |
| RecipeStore.DeleteRecipe | src/lib/useRecipes.ts:55-61 | the key removed, every other record unchanged |
| RecipeStore.DeleteAbsent | src/lib/useRecipes.ts:55-61 | deleting an absent key changes nothing |
| RecipeStore.AddThenDelete | src/lib/useRecipes.ts:38-61 | adding then deleting a recipe gives the original store without that key |

## Left out

- Floating point: amounts, quantities and scaling are integers. `toFixed` is modelled exactly on `real`s, rounding half away from zero. Binary rounding of doubles (1.005 and the like) and the exponent form for magnitudes of 1e21 and above are not modelled.
- Key order of the result objects: `getTotalIngredients`, `getTotalsByDrink` and `calculateIngredientTotals` return maps. Insertion order only decides the order of table rows.
- Aggregates.TotalIngredients, Aggregates.TotalsByDrink, Batch.CalculateBatchRecipe: these require every item to name a catalog key (and the batch a key). The source would throw on an unknown key; in the app, items are only ever created from the catalog keys.
- Aggregates.TotalIngredients: the amount ignores `scaling`, as the source does (line 145); every shipped recipe has scaling 1.
- The ingredient-totals display filter (src/BottledDrinksCalculator.tsx:347) is not modelled: a positive total there depends on recipe amounts, which the catalog type does not bound.
- `Date.now()` is one parameter `now` shared by all ids of one call. The source reads the clock once per item, so ids within an order may differ in their time part.
- `confirm()` is the boolean parameter `confirmed`.
- `parseInt(...) || 0` input coercion and the ProductRow input guard: the model takes already-parsed integer quantities.
- `Product.quantities` is the record's entries in key order. Duplicate locations are allowed in the type. Exactly one error per negative location needs distinct locations, which a `Record<Location, number>` guarantees.
- RecipeStore.UpdateRecipe: a patch field that is present but explicitly `undefined` is not modelled. It would overwrite with `undefined`; the model treats it as absent.
- Prototype keys: property names such as `constructor`, which an object lookup would find on the prototype, are not modelled. `recipes[product.id]` and `totals[name]` see only their own keys.
- The JSX render tree, tabs, expand/collapse state, the `useState` plumbing and the never-updated `loading`/`error` flags are not modelled.
- `cn` is not modelled: a wrapper over external class-name libraries.
- `saveToLocalStorage`/`loadFromLocalStorage` are not modelled: browser storage I/O and JSON parsing.
- src/components/RecipeCard.tsx and src/main.tsx are not part of this model: presentation and bootstrap.

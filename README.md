# Bakery cost calculator: cost derivation and label sheets, in Dafny

This project models the computational core of a small bakery bookkeeping
service (a FastAPI/SQLAlchemy application). It covers two chains of arithmetic
and the few in-place table rules of the HTTP routes that feed them.

- **Cost derivation.** A material's unit price is derived from its purchase
  price and quantity. A recipe's material cost is the sum of unit price ×
  quantity over the usages whose material still resolves. A product derives
  six fields in order from its recipe, the user's active monthly fixed costs,
  a production count, a profit margin and an optional selling price:
  - material cost;
  - fixed cost per unit;
  - total cost;
  - suggested price;
  - actual profit amount;
  - actual profit margin.
- **Label sheets.** A label preset (size and margins in millimetres) gives a
  grid of labels on an A4 sheet. The PDF generator redoes the grid in points,
  walks the products row by row with a running index reset on every new page,
  and draws each label's text with a cursor moving down:
  - the name cut to 30 characters;
  - a yen price with thousands separators;
  - up to five ingredient names wrapped at 35 characters;
  - an optional expiry date;
  - the store name.
- **Route rules.**
  - Every lookup is filtered by the calling user.
  - A product's recipe must be the caller's.
  - A recipe's usages are replaced wholesale and its cost recomputed.
  - Each user keeps at most one default label preset.
  - A print request picks a preset and the requested products.

Modules and how they follow the program:

| module | file | models |
|---|---|---|
| `Wrappers` | wrappers.dfy | `Option`, `Result`, `Outcome` |
| `Numeric` | numeric.dfy | Python's `int()` on floats (truncation) and `//`, `%` on ints (floor) |
| `Materials` | materials.dfy | `Material` and `calculate_unit_price` |
| `Recipes` | recipes.dfy | `Recipe`, its usages and `calculate_material_cost` |
| `Products` | products.dfy | `Product` and `calculate_costs` |
| `LabelSettings` | label_settings.dfy | the preset and `calculate_labels_per_sheet` |
| `LabelText` | label_text.dfy | name truncation, the ingredient list and wrap, price formatting |
| `Pagination` | pagination.dfy | the row-major walk of `generate_labels` on integers |
| `PdfGenerator` | pdf_generator.dfy | `LabelPDFGenerator`: grid, `generate_labels`, `_draw_label` |
| `ProductRoutes` | product_routes.dfy | `calculate_product_costs`, create, update, calculate-cost |
| `RecipeRoutes` | recipe_routes.dfy | create and update of recipes, `format_recipe_response` |
| `LabelRoutes` | label_routes.dfy | preset create and update, `print_labels` |

How the model is represented:
- Material, recipe and product are classes, because their methods assign
  fields in place. Each method's `modifies` clause names exactly the fields
  it writes. Each method is proved against a specification function:
  - `UnitPrice` for the unit price;
  - `MaterialCost` for the recipe cost;
  - `Recalculate` for the product's six fields.
- The label preset is a value, because `calculate_labels_per_sheet` only
  computes.
- The preset table is a class holding a `map` from id to preset, because the
  routes bulk-update it.
- The canvas is a sequence of drawing operations: `Frame`, `Text` and
  `ShowPage`.
- Money and millimetres are exact `real` numbers.
- Python's truncating `int()` and flooring `//` and `%` are written out in
  `Numeric`.

## Model

| member | source | states |
|---|---|---|
| Materials.UnitPrice | app/models/material.py:26-29 | with a positive quantity the unit price times the quantity gives back the purchase price; otherwise the price is 0 and nothing is divided |
| Materials.Material.CalculateUnitPrice | app/models/material.py:24-29 | only `unit_price` is written, to `UnitPrice(price, quantity)`; name, unit, price and quantity are unchanged, so a second call leaves it identical |
| Materials.UnitPricePositive | app/schemas/material.py:8-9 | with the positive price and quantity the schema demands, the unit price is positive |
| Materials.PriceLifecycle | tests/test_api.py:89-117 | 500 for 1000 g prices at 0.5; after re-pricing at 600 it is 0.6; recomputing with unchanged inputs keeps 0.6 |
| Recipes.Recipe.constructor | app/routes/recipes.py:22-27 | a new recipe has no usages and a material cost of 0 |
| Recipes.Recipe.CalculateMaterialCost | app/models/recipe.py:23-30 | the loop's total is the sum of unit price × quantity over the resolved usages; it is stored in `material_cost` and returned; only that field changes |
| Recipes.OwnedRecipe | app/routes/products.py:26-29 | the lookup finds a recipe exactly when the id is in the table and the recipe belongs to the user |
| Recipes.MaterialCostAppend | app/models/recipe.py:26-28 | the cost of two usage lists concatenated is the sum of their costs |
| Recipes.MaterialCostSingle | app/models/recipe.py:27-28 | one usage costs exactly unit price × quantity when it resolves, 0 otherwise |
| Recipes.MaterialCostOrderIndependent | app/models/recipe.py:26-28 | any permutation of the usages has the same cost |
| Recipes.MissingMaterialIgnored | app/models/recipe.py:27 | an unresolved usage anywhere in the list adds nothing |
| Recipes.MaterialCostNonNegative | app/models/recipe.py:28 | with non-negative unit prices and positive quantities the cost is not negative |
| Recipes.AppendNeverDecreases | app/models/recipe.py:28 | appending such a usage never lowers the cost |
| Products.Product.constructor | app/routes/products.py:37-43 | a new product has the request's fields, no selling price and every derived field at its default 0 |
| Products.Product.CalculateCosts | app/models/product.py:35-65 | the six fields become `Recalculate` of their old values and the product's inputs; a margin of 100 fails with `DegenerateMargin` after the first three fields are written |
| Products.FixedCostShare | app/models/product.py:42-45 | with inclusion and a positive count, the share times the count gives back the monthly total; otherwise the share is 0 |
| Products.SuggestedPriceInverse | app/models/product.py:51-54 | a margin ≤ 0 prices at cost; for other margins except 100, taking the margin's share off the price gives back the total cost; a margin of exactly 100 is the error |
| Products.ActualProfitMeaning | app/models/product.py:57-65 | for a truthy price, amount = price − cost, and for a positive price the margin is amount / price × 100; with no price or a zero price both are 0 |
| Products.TotalIsMaterialPlusFixed | app/models/product.py:48 | total cost = material cost + fixed-cost share |
| Products.MaterialCostSnapshot | app/models/product.py:38-39 | with a recipe, the material cost is the recipe's stored cost; without one it keeps its old value |
| Products.FixedCostExcluded | app/models/product.py:42-45 | without inclusion the share is 0, whatever the monthly total |
| Products.ZeroMarginPricesAtCost | app/models/product.py:51-54 | a margin ≤ 0 gives suggested price = total cost |
| Products.SuggestedPriceCoversCost | app/models/product.py:51-52 | for 0 ≤ margin < 100 and a non-negative cost, the suggested price is at least the cost |
| Products.SuggestedPriceRealizesMargin | app/models/product.py:51-60 | selling at the suggested price realizes exactly the configured margin and leaves suggested price − cost as profit amount |
| Products.RecalculateIdempotent | app/models/product.py:35-65 | a second calculation with the same inputs yields the same fields |
| LabelSettings.CalculateLabelsPerSheet | app/models/label_setting.py:41-55 | the sheet count is per-row × per-column; for a non-negative printable extent each count is the largest number of labels that fits; for a negative extent it is the quotient truncated toward zero |
| LabelSettings.TruncFits | app/models/label_setting.py:52-53 | `int(extent / size)` is the fit count described above, for either sign of the extent |
| LabelSettings.NothingFits | app/models/label_setting.py:52-53 | along an extent shorter than one label the count is 0 |
| LabelSettings.TooWideFitsNothing | app/models/label_setting.py:48-55 | a label wider than a non-negative printable width gives 0 per row and 0 per sheet |
| LabelSettings.TooTallFitsNothing | app/models/label_setting.py:49-55 | a label taller than a non-negative printable height gives 0 per column and 0 per sheet |
| LabelSettings.DefaultMarginsExample | app/models/label_setting.py:41-55 | 70 × 40 mm labels with 10 mm margins give 2 × 6 = 12 |
| LabelSettings.NegativeExtentsExample | app/models/label_setting.py:48-55 | margins wider than the sheet give −1 per row and −2 per column, so a positive 2 per sheet although no label fits |
| Numeric.Trunc | app/models/label_setting.py:52-53 | `int()` rounds toward zero: below x for x ≥ 0, above x for x < 0, less than 1 away |
| Numeric.PyDiv | app/utils/pdf_generator.py:48 | `//` is the floor of the quotient, for either sign of the divisor |
| Numeric.PyMod | app/utils/pdf_generator.py:49 | `%` complements `//` and takes the divisor's sign |
| Numeric.QuotientScale | app/utils/pdf_generator.py:24-39 | scaling numerator and denominator by the same factor (mm to points) leaves the quotient unchanged |
| LabelText.NameText | app/utils/pdf_generator.py:86 | the drawn name is the prefix of the name of length min(30, length) |
| LabelText.IngredientTextInOrder | app/utils/pdf_generator.py:110 | for every k short of the last listed name, the text begins with the first k names joined by ", " and then a separator |
| LabelText.IngredientTextListsInOrder | app/utils/pdf_generator.py:110 | every listed name, the last included, appears in recipe order: the text begins with the first k names joined by ", " for every k up to the number listed |
| LabelText.IngredientTextIgnoresRest | app/utils/pdf_generator.py:110-112 | only the first five names, and whether there are more, decide the text |
| LabelText.IngredientTextExample | app/utils/pdf_generator.py:110-112 | six names give the first five joined and "...", 35 characters |
| LabelText.WrapKeepsFirstSeventy | app/utils/pdf_generator.py:116-124 | the wrapped lines concatenate to the first 70 characters; none is longer than 35; a second line appears exactly when the text exceeds 35 |
| LabelText.FormatThousandsRoundTrip | app/utils/pdf_generator.py:93 | reading the comma-grouped integer back (sign and digits, separators skipped) gives the integer |
| LabelText.GroupedValue | app/utils/pdf_generator.py:93 | the grouped digits of a natural number read back as that number and start with a digit |
| LabelText.GroupedHasShape | app/utils/pdf_generator.py:93 | the grouped text has the `:,` shape: a first group of one to three digits, then a comma before every further group of exactly three digits, and no leading zero except for zero |
| Pagination.Walk | app/utils/pdf_generator.py:45-65 | running the loop over n labels places exactly n labels |
| Pagination.WalkClosedForm | app/utils/pdf_generator.py:45-65 | with P = per-row × per-column > 0, label k is on page k div P at row (k mod P) div per-row and column (k mod P) mod per-row; after n > 0 labels the running index is (n − 1) mod P + 1 |
| Pagination.SlotInsideGrid | app/utils/pdf_generator.py:48-56 | every placed label's row and column lie inside the grid |
| Pagination.NewPageExactlyWhenFull | app/utils/pdf_generator.py:51-56 | a page break happens before label k > 0 exactly when k mod P = 0 |
| Pagination.SlotsDistinct | app/utils/pdf_generator.py:48-60 | two labels never share a cell of the same page |
| Pagination.RowPastLast | app/utils/pdf_generator.py:48-52 | the row passes the last one exactly when the index reaches a full page |
| Pagination.PlaceWithoutRows | app/utils/pdf_generator.py:51-56 | with no row that fits, every placement starts a new page at the top-left cell |
| Pagination.NoRowFitsOnePerPage | app/utils/pdf_generator.py:51-56 | with no row that fits, label k lands alone on page k + 1 and page 0 stays blank |
| Pagination.FourteenLabelsExample | app/utils/pdf_generator.py:45-65 | on a 2 × 6 grid, labels 0-11 fill page 0 and labels 12 and 13 start page 1 |
| Pagination.WalkStep | app/utils/pdf_generator.py:45-65 | one more loop iteration places one more slot; the cursor stays on the page of the last slot |
| PdfGenerator.CollectMaterialNames | app/utils/pdf_generator.py:104-107 | the loop collects the names of the resolved materials, in usage order |
| PdfGenerator.MaterialNamesCount | app/utils/pdf_generator.py:105-107 | one name is collected per resolved usage |
| PdfGenerator.MaterialNamesFromUsages | app/utils/pdf_generator.py:105-107 | every collected name is the name of a resolved usage's material |
| PdfGenerator.FlowBaselines | app/utils/pdf_generator.py:82-130 | each line is drawn at the start lowered by the advances of the lines above it |
| PdfGenerator.FlowDescends | app/utils/pdf_generator.py:82-130 | with positive advances, baselines strictly descend, so no two lines overprint |
| PdfGenerator.LinesHavePositiveAdvances | app/utils/pdf_generator.py:88-130 | every text line of a label moves the cursor down |
| PdfGenerator.TextBlockDepth | app/utils/pdf_generator.py:82-130 | whatever the switches, every baseline lies at most 70 points below the first |
| PdfGenerator.IngredientLinesFaithful | app/utils/pdf_generator.py:114-124 | the ingredient lines lose nothing of the first 70 characters, keep their order and are at most 35 long |
| PdfGenerator.PriceLineReadsBack | app/utils/pdf_generator.py:91-95 | when shown, the price line is "¥" followed by text that reads back as the truncated selling price |
| PdfGenerator.IngredientBlock | app/utils/pdf_generator.py:98-124 | the ingredient block is the heading (12 points) and the wrapped lines (10 points each) |
| PdfGenerator.LabelPdfGenerator.constructor | app/utils/pdf_generator.py:15-39 | the sizes and margins are converted to points, and the grid counts are the truncated quotients in points |
| PdfGenerator.LabelPdfGenerator.GridFits | app/utils/pdf_generator.py:38-39 | the counts in points are the largest numbers of labels that fit across and down |
| PdfGenerator.LabelPdfGenerator.GridAgreesWithSetting | app/utils/pdf_generator.py:21-39 | the grid in points equals `calculate_labels_per_sheet` in millimetres |
| PdfGenerator.LabelPdfGenerator.FrameInsideMargins | app/utils/pdf_generator.py:38-60 | with at least one row and one column, every label rectangle lies inside the page margins |
| PdfGenerator.LabelPdfGenerator.DrawLabel | app/utils/pdf_generator.py:71-135 | the frame, then the text lines flowing down from the top padding, then the store name at y + 5 when shown |
| PdfGenerator.LabelPdfGenerator.DrawText | app/utils/pdf_generator.py:82-126 | the name, price, ingredient and expiry lines drawn with a moving cursor are exactly the text block flowed from the top padding |
| PdfGenerator.TextSections | app/utils/pdf_generator.py:82-126 | each section starts where the section above left the cursor, the name 20 points above the rest |
| PdfGenerator.LabelPdfGenerator.DrawPrice | app/utils/pdf_generator.py:91-95 | the price line is drawn exactly when prices are shown and the selling price is truthy; it moves the cursor 18 points |
| PdfGenerator.LabelPdfGenerator.DrawIngredients | app/utils/pdf_generator.py:98-124 | drawn exactly when ingredients are shown and the product has a recipe: the heading, then one or two wrapped lines |
| PdfGenerator.LabelPdfGenerator.DrawExpiry | app/utils/pdf_generator.py:127-130 | the expiry line is drawn exactly when expiry dates are shown and a non-empty date was given |
| PdfGenerator.LabelPdfGenerator.NextPosition | app/utils/pdf_generator.py:48-56 | row and column from the running index, moved to the top-left cell of a new page when the row passes the last one |
| PdfGenerator.LabelPdfGenerator.GenerateLabels | app/utils/pdf_generator.py:41-69 | one label per product in input order, each at the slot the walk assigns, with a page break before each new page; fails exactly when there is no column and at least one product; the loop body (the page break and the label drawn at its slot) is the helper `DrawNext`, whose contract extends the document by one label |
| PdfGenerator.LabelPdfGenerator.DocumentBreaks | app/utils/pdf_generator.py:51-56 | the document holds one page break per page the walk moved on to |
| PdfGenerator.LabelPdfGenerator.PagesUsed | app/utils/pdf_generator.py:45-65 | n > 0 labels on a grid of P cells hold (n − 1) div P page breaks |
| PdfGenerator.LabelPdfGenerator.PagesUsedWithoutRows | app/utils/pdf_generator.py:51-56 | with no row that fits, n labels hold n page breaks |
| PdfGenerator.PaginateBreaks | app/utils/pdf_generator.py:51-56 | break-free label drawings laid along the walk get exactly one break per new page |
| ProductRoutes.ActiveCostsMembers | app/routes/products.py:201-204 | a fixed cost is charged exactly when it is the user's and active |
| ProductRoutes.FixedCostTotalSplits | app/routes/products.py:199-205 | the charged total adds over concatenation; an inactive row or another user's row adds nothing; a charged row adds its amount |
| ProductRoutes.FixedCostTotalNonNegative | app/routes/products.py:199-205 | with non-negative amounts the total is not negative |
| ProductRoutes.CalculateProductCosts | app/routes/products.py:191-208 | the product is recalculated with the charged total (0 without inclusion) and the given count |
| ProductRoutes.DefaultProductionChargesWholeTotal | app/routes/products.py:195 | with the default count of 1 the fixed-cost share is the whole monthly total |
| ProductRoutes.OwnedProduct | app/routes/products.py:101-104 | the lookup finds a product exactly when the id is in the table and belongs to the user |
| ProductRoutes.CreateProduct | app/routes/products.py:17-54 | a truthy recipe id that is not the user's gives a 404 and no product; otherwise the new product is calculated from zeros with the charged total and count 1; a margin of 100 fails |
| ProductRoutes.Updated | app/routes/products.py:126-128 | a field the request sets takes the request's value, and a field it does not set keeps its value |
| ProductRoutes.UpdatedIdempotent | app/routes/products.py:126-128 | applying the same request twice is applying it once |
| ProductRoutes.EmptyUpdateChangesNothing | app/routes/products.py:126-128 | a request that sets nothing changes nothing |
| ProductRoutes.SetFields | app/routes/products.py:126-128 | the supplied fields are written, and the recipe is set along with its id |
| ProductRoutes.UpdateProduct | app/routes/products.py:93-136 | an unknown product, or a recipe id set to one that is not the user's, gives a 404 before any change; otherwise the supplied fields are set and the product is recalculated with count 1; no other product changes |
| ProductRoutes.CalculateProductCost | app/routes/products.py:139-164 | recalculates the user's product with the requested count; the inputs are unchanged; unknown products give a 404 |
| RecipeRoutes.OwnedMaterial | app/routes/recipes.py:35-38 | a material resolves exactly when it exists and is the user's |
| RecipeRoutes.Resolve | app/routes/recipes.py:33-51 | any failure names a material id |
| RecipeRoutes.ResolveUsages | app/routes/recipes.py:33-51 | the insertion loop yields `Resolve` of the requests |
| RecipeRoutes.ResolveMeaning | app/routes/recipes.py:33-51 | resolution succeeds exactly when every material is the user's, and then gives one usage per request, in order, with its id and quantity |
| RecipeRoutes.ResolveFailsAtFirstMissing | app/routes/recipes.py:40-44 | a failure names the first requested material that is not the user's |
| RecipeRoutes.Line | app/routes/recipes.py:194-201 | a line's cost is the usage's cost, unit price × quantity |
| RecipeRoutes.LinesAddUpToMaterialCost | app/routes/recipes.py:192-200 | the listed line costs add up to the recipe's material cost |
| RecipeRoutes.ResponseLinesCount | app/routes/recipes.py:192-193 | there is one line per usage whose material resolves |
| RecipeRoutes.FormatRecipeResponse | app/routes/recipes.py:189-212 | the stored fields, including the stored `material_cost` rather than a fresh sum, and one costed line per resolved usage |
| RecipeRoutes.CreateRecipe | app/routes/recipes.py:14-62 | an unknown material fails with its id and keeps nothing; otherwise a fresh recipe has the resolved usages and their cost |
| RecipeRoutes.UpdateRecipe | app/routes/recipes.py:101-162 | an unknown recipe or material fails without change; name and description are set when given; a material list replaces every usage and recomputes the cost; without one both are untouched |
| RecipeRoutes.ResponseCostMatchesLines | app/routes/recipes.py:53-62 | after a create or an update with materials, the response's cost equals its line total |
| LabelRoutes.ClearDefaults | app/routes/labels.py:27-31 | only the user's defaults other than the spared preset lose `is_default`; nothing else changes |
| LabelRoutes.ApplyUpdate | app/routes/labels.py:160-162 | each field takes the request's value when set and keeps its own otherwise; a well-formed update keeps the label size positive |
| LabelRoutes.ApplyUpdateLaws | app/routes/labels.py:160-162 | an update that sets nothing changes nothing, and applying one twice is applying it once |
| LabelRoutes.CreatedKeepsInvariant | app/routes/labels.py:27-51 | creation keeps at most one default per user; a new default is its user's only one; other users' presets are untouched |
| LabelRoutes.UpdatedKeepsInvariant | app/routes/labels.py:151-162 | the same for an update; an update to default leaves this preset the user's only default |
| LabelRoutes.OwnedSetting | app/routes/labels.py:140-143 | the lookup finds a preset exactly when it exists and is the user's |
| LabelRoutes.LabelSettingStore.Create | app/routes/labels.py:19-60 | the table becomes `Created` and keeps at most one default per user, and the answer is the preset's labels per sheet |
| LabelRoutes.LabelSettingStore.Update | app/routes/labels.py:132-171 | an unknown preset gives a 404 and no change; otherwise the table becomes `Updated`, and the answer is the new labels per sheet; either way at most one default per user remains |
| LabelRoutes.LabelSettingStore.SelectSetting | app/routes/labels.py:206-222 | a non-zero id selects that preset of the user; otherwise a default preset of the user, which is the user's only default when no user has two; none if neither exists |
| LabelRoutes.SelectedMembers | app/routes/labels.py:225-228 | a product is printed exactly when its row is the user's and its id was requested; at most one label per row |
| LabelRoutes.SelectedIgnoresIdOrder | app/routes/labels.py:225-228 | the order and repetition of the requested ids do not change the labels |
| LabelRoutes.PrintLabels | app/routes/labels.py:198-238 | no preset gives 404; no selected product gives 404; otherwise the generator built from the preset (with no id, the user's unique default) draws the selected products; no column is an error |

## Left out

- Database and session: queries, flush, refresh, commit and rollback are not modelled.
  - Tables are maps or sequences that the routes read and update.
  - A request that fails with 404 changes nothing. This models the session being discarded. The update routes validate before they write, where the source writes first and then loses its changes.
- ProductRoutes.UpdateProduct, ProductRoutes.CreateProduct, ProductRoutes.CalculateProductCost: a margin of 100 makes `calculate_costs` divide by zero, which becomes a 500 error and an abandoned session.
  - The model keeps the fields as the failed calculation left them: the first three derived fields are rewritten.
  - It reports `CostFailure(DegenerateMargin)`.
  - It does not model the rollback.
  - For `CalculateProductCost` a stored margin of 100 can arise in the model only from such a failed update, because the model keeps what that update wrote.
- Floating point: all arithmetic is exact over `real`. Rounding, infinities and NaN are not modelled.
- Canvas and PDF, which the model does not represent:
  - fonts and `setFont`;
  - the PDF bytes and the buffer;
  - `StreamingResponse`;
  - the logo fields, which the generator never reads.
- Layout constants:
  - reportlab's `mm` is written as 72 / 25.4 points;
  - A4 is written as 210 × 297 mm.
- PdfGenerator.LabelPdfGenerator.DrawIngredients: the inner `len > 35` test at app/utils/pdf_generator.py:119 repeats the outer one and is always true there. The model draws the second line without testing again.
- Records and column defaults:
  - recipes keep their usages as snapshots of the material (name, unit, unit price) rather than live links;
  - the `id` of each recipe-material row, and with it the `id` of each response line, is not modelled;
  - timestamps are not modelled.
- Lazy loading: `product.recipe` is resolved from `recipe_id` by the route that sets it, not loaded lazily.
- Explicit JSON nulls in update requests: every field of the product and preset update schemas may be sent as null (app/schemas/product.py:18-22, app/schemas/label.py:28-41). The model's `Option` update fields mean "not set" or "set to a value", so they cannot carry a null, except where the model gives the column a nullable type: `recipe_id`, `selling_price` and `logo_path`.
  - Product `profit_margin` (app/models/product.py:22) is nullable. A null is stored by `setattr`, and then `calculate_costs` compares it with 0 at app/models/product.py:51, which raises a type error: a 500 error, and the session is discarded.
  - Product `include_fixed_cost` (app/models/product.py:16) is nullable. A null is stored, and reads as false in `calculate_costs`, so the fixed-cost share is 0.
  - Preset `margin_top`, `margin_bottom`, `margin_left` and `margin_right` (app/models/label_setting.py:19-22) are nullable. A null is committed at app/routes/labels.py:164. Only then does `calculate_labels_per_sheet` fail on it (app/routes/labels.py:167, app/models/label_setting.py:48-49), so the request answers 500 and the null stays stored.
  - Preset `show_*` and `is_default` (app/models/label_setting.py:25-29, 34) are nullable. A null is stored and reads as false: the section is not drawn, and a null `is_default` clears no other default.
  - Product `name` and preset `preset_name`, `label_width` and `label_height` are not nullable. A null for them fails in the database at commit.
- Request schemas are preconditions, not validation errors:
  - label width and height are positive;
  - a print request names at least one product.
- RecipeRoutes.CreateRecipe: the new recipe's id is a parameter. It is not assigned by the database.
- LabelRoutes.LabelSettingStore.SelectSetting: the database returns "the first" default in an unspecified order. The model picks any default of the user. The store's methods keep `Invariant` (at most one default per user), so there is only one.
- Not modelled:
  - the read-only list, get and delete routes;
  - the materials and fixed-costs routes, whose logic is `calculate_unit_price` and the same active-cost sum as products;
  - authentication and e-mail;
  - the browser script.

# Price-Pilot pricing core in Dafny

Price-Pilot is a small retail pricing service. Merchants upload a product catalogue, either
as a CSV file or as JSON. The service computes a suggested price per product from its
inventory and sales history, stores each suggestion, and lets the merchant apply it to the
product's price.

This project models the parts of the backend that decide something:

- the pricing engine (`backend/src/services/pricingService.js`). It estimates elasticity
  from the last ten sales, runs the five-rule ladder and the rule-5 revenue search, adjusts
  for a simulated competitor, applies the 5% margin floor, rounds to cents and forecasts
  revenue and margin changes;
- the simulated competitor (`backend/src/utils/fakeCompetitorData.js`);
- batch optimization (`optimizePrices`). It selects products, prices each one and stores an
  unapplied suggestion under a fresh id;
- applying a suggestion and filtering the suggestion list (`applySuggestion`,
  `getSuggestions`);
- uploading products. This covers validation, splitting the batch into valid and rejected
  rows, and the upsert by SKU. It also covers updating a product under the key whitelist.

Files and modules:

| file | module | what it holds |
|---|---|---|
| `wrappers.dfy` | `Wrappers` | `Option` and `Result` |
| `numeric.dfy` | `Numeric` | `Math.round`, rounding to cents, and their monotonicity |
| `catalog.dfy` | `Catalog` | products, sales records and the schema's `min: 0` bounds |
| `elasticity.dfy` | `Elasticity` | the stable date sort, the ten-record window and the elasticity loop |
| `forecast.dfy` | `Forecast` | average units, inventory ratio, recent demand, revenue and margin forecasts |
| `competitor.dfy` | `Competitor` | the simulated competitor price and the hint |
| `pricing.dfy` | `Pricing` | `optimizePrice`: the ladder, the competitor step, the margin floor and the result |
| `store.dfy` | `Store` | the `Database` class: products and suggestions keyed by id, and an id counter |
| `optimize_controller.dfy` | `OptimizeController` | `optimizePrices` |
| `suggestion_controller.dfy` | `SuggestionController` | `applySuggestion` and the `getSuggestions` filter |
| `product_controller.dfy` | `ProductController` | `validateProduct`, `uploadProducts` and `updateProduct` |

Representation:

- Prices, costs, units and percentages are `real`.
- `Math.round` is `Floor(x + 1/2)`, so rounding to cents is `Round2(x) = Round(100 x) / 100`.
- The `Math.random` calls become the parameters of a `Draws` value. An optimization uses
  four draws: two for the competitor price it compares against, and two for the separate
  competitor price that the hint draws.
- Dates are integer timestamps.
- The reason text is a tagged `Reason`: the rule that fired, and the competitor note
  with its percentage.
- The database is one `Database` object. The controller methods take it and state the new
  products, suggestions and id counter.
- Mongoose `_id`s are drawn from the counter, so a new id is fresh in both collections.
- A product id that is not stored behaves like a `findById` that finds nothing.

The competitor step can change the factor that a fixed rule picks. Take cost 10, price 20,
one unit in stock and no history: rule 3 picks the factor 0.20. A competitor more than 15%
cheaper lowers any factor above -0.1 by 0.05 (pricingService.js:193-195), so that draw gives
23.00 and any other draw gives 24.00. `Pricing.CriticalStockExample` states both.

## Model

| member | source | states |
|---|---|---|
| Numeric.Round2 | backend/src/services/pricingService.js:212 | rounding to cents moves a value by at most half a cent |
| Numeric.Round2Cents | backend/src/services/pricingService.js:212 | the rounded value is a whole number of cents, and rounding it again changes nothing |
| Numeric.Round2Monotone | backend/src/services/pricingService.js:212 | rounding to cents preserves order |
| Numeric.Round2NonNegative | backend/src/services/pricingService.js:212 | rounding a non-negative value gives a non-negative value |
| Elasticity.SortByDate | backend/src/services/pricingService.js:14 | the sorted history is ordered by date and has the same length |
| Elasticity.SortPermutes | backend/src/services/pricingService.js:14 | the sorted history is a permutation of the history |
| Elasticity.SortIsStable | backend/src/services/pricingService.js:14 | records with equal dates keep their original relative order, as in JavaScript's stable sort |
| Elasticity.LastN | backend/src/services/pricingService.js:17 | `slice(-n)`: the last min(n, length) elements, in order |
| Elasticity.PairElasticity | backend/src/services/pricingService.js:32-40 | a consecutive pair that counts (price move over 1%, finite ratio below zero) contributes a negative elasticity |
| Elasticity.AcceptedRatios | backend/src/services/pricingService.js:31-42 | a window of n records yields at most n-1 ratios, all negative |
| Elasticity.AccumulateRatios | backend/src/services/pricingService.js:28-42 | the loop's running total and count are the sum and the number of accepted ratios |
| Elasticity.CalculateElasticity | backend/src/services/pricingService.js:8-45 | calculateElasticity computes the mean of the accepted ratios of the sorted ten-record window, or -1.5 |
| Elasticity.EstimateElasticity | backend/src/services/pricingService.js:8-45 | the estimate is always negative: the mean of negative ratios, or -1.5 when there are none |
| Elasticity.ShortHistoryDefault | backend/src/services/pricingService.js:9-11 | a history of fewer than two records gives -1.5 |
| Elasticity.NoPairCounts | backend/src/services/pricingService.js:44 | when no pair is accepted the window yields no ratios |
| Elasticity.NoPairDefault | backend/src/services/pricingService.js:44 | when no pair of the window is accepted the estimate is -1.5 |
| Elasticity.SmallStepsDefault | backend/src/services/pricingService.js:32-44 | when every consecutive pair of the window moves the price by at most 1% or has a zero previous price or units, the estimate is -1.5 |
| Elasticity.FlatHistoryDefault | backend/src/services/pricingService.js:35 | a history at one constant price gives -1.5 |
| Elasticity.MeanOfNegatives | backend/src/services/pricingService.js:44 | the mean of negative ratios is negative |
| Forecast.SumUnitsNonNegative | backend/src/services/pricingService.js:114 | the total units sold of an in-schema history is non-negative |
| Forecast.AverageUnitsSold | backend/src/services/pricingService.js:109-116 | no history averages 10 units; an in-schema history averages a non-negative number |
| Forecast.InventoryRatio | backend/src/services/pricingService.js:134 | the days-of-inventory ratio has the sign of the inventory and is at most the inventory in magnitude |
| Forecast.RecentDemand | backend/src/services/pricingService.js:135-137 | no history falls back to the average; an in-schema history has non-negative recent demand |
| Forecast.AverageOfConstantHistory | backend/src/services/pricingService.js:114-115 | a non-empty history selling u units every period averages u |
| Forecast.SumUnitsAppend | backend/src/services/pricingService.js:114 | total units sold distribute over concatenation |
| Forecast.ShortHistoryRecentDemand | backend/src/services/pricingService.js:135-137 | a history of n < 7 records selling u units each has recent demand n*u/7, since the sum is still divided by 7, which is below u (its average) whenever u > 0 |
| Forecast.NewQuantity | backend/src/services/pricingService.js:64 | the forecast quantity is never negative |
| Forecast.RevenueChange | backend/src/services/pricingService.js:55-73 | with a non-negative new price and average the revenue forecast is never below -100% |
| Forecast.RevenueUnchangedAtSamePrice | backend/src/services/pricingService.js:55-73 | keeping the price forecasts a 0% revenue change |
| Forecast.RevenueWithoutSales | backend/src/services/pricingService.js:68-70 | with no sales the revenue forecast is 0 |
| Forecast.MarginChange | backend/src/services/pricingService.js:84-102 | above cost, and with a new price not below cost, the margin forecast is never below -100% |
| Forecast.MarginUnchangedAtSamePrice | backend/src/services/pricingService.js:84-102 | keeping the price forecasts a 0% margin change |
| Forecast.MarginFromZero | backend/src/services/pricingService.js:97-99 | with zero current margin the forecast is 100 when the new margin is positive, else 0 |
| Competitor.CompetitorPrice | backend/src/utils/fakeCompetitorData.js:10-14 | the competitor price is at least 0.01, and is either 0.01 or the current price moved by the variation |
| Competitor.VariationBounds | backend/src/utils/fakeCompetitorData.js:12 | the variation is 5% to under 20% in magnitude, and positive exactly when the sign draw exceeds 0.5 |
| Competitor.CompetitorPriceBand | backend/src/utils/fakeCompetitorData.js:10-14 | unless the floor binds, the competitor price lies in (0.80p, 0.95p] or [1.05p, 1.20p) |
| Competitor.CompetitorHint | backend/src/utils/fakeCompetitorData.js:22-33 | the hint is "similar" exactly when the difference is under 2% in magnitude, otherwise "higher" or "lower" by its sign, with the percentage |
| Competitor.HintIgnoresSuggestedPrice | backend/src/utils/fakeCompetitorData.js:22-33 | the hint does not depend on the suggested-price argument |
| Competitor.SimilarOnlyAtFloor | backend/src/utils/fakeCompetitorData.js:23-27 | unless the 0.01 floor binds, the difference is at least 5%, so the hint is never "similar" |
| Pricing.RevenueSearchFirstBest | backend/src/services/pricingService.js:164-179 | rule 5 picks the first candidate factor whose forecast revenue change is at least every other candidate's |
| Pricing.BestIndex | backend/src/services/pricingService.js:170-177 | the scan picks a maximum that is strictly above every earlier value |
| Pricing.FirstMaximumUnique | backend/src/services/pricingService.js:173-176 | any index that is a maximum and strictly above all earlier values is the one the scan picks |
| Pricing.RevenueSearchFactor | backend/src/services/pricingService.js:164-179 | rule 5 always picks one of the five candidate factors |
| Pricing.BestAdjustment | backend/src/services/pricingService.js:166-179 | rule 5's loop picks the first candidate with the highest forecast revenue |
| Pricing.Ladder | backend/src/services/pricingService.js:143-181 | each rule fires exactly when its condition holds and no earlier rule fires; fixed factors 0.10, -0.15, 0.20 and -0.10; rule 5 says "increase" exactly for a positive factor |
| Pricing.Decide | backend/src/services/pricingService.js:143-181 | the if/else chain with rule 5's loop decides what the ladder specifies |
| Pricing.RuleOneBeforeRuleThree | backend/src/services/pricingService.js:143-157 | when rules 1 and 3 both apply, rule 1 (factor 0.10) wins |
| Pricing.LadderFactorChoices | backend/src/services/pricingService.js:143-181 | the chosen factor is a fixed rule's factor or a candidate |
| Pricing.ZeroFactorReadsAsDecrease | backend/src/services/pricingService.js:180 | a zero factor from rule 5 is reported as a decrease |
| Pricing.CompetitorStep | backend/src/services/pricingService.js:188-202 | the bump up (capped at 0.15), the bump down (capped at -0.15) and the plain hint happen under exactly the source's conditions |
| Pricing.CompetitorStepMoves | backend/src/services/pricingService.js:188-196 | for any factor the ladder can choose, the step moves it by exactly 0.05 or not at all, and keeps it in [-0.15, 0.20] |
| Pricing.ApplyCompetitor | backend/src/services/pricingService.js:183-202 | the competitor block computes the specified step from the drawn competitor price |
| Pricing.FinalFactor | backend/src/services/pricingService.js:183-202 | the applied factor lies in [-0.15, 0.20] and is the ladder's factor moved by at most 0.05 |
| Pricing.CompetitorBumpConditions | backend/src/services/pricingService.js:188-199 | the factor rises exactly when the competitor is over 15% higher and the factor is below 0.1; it falls exactly when the competitor is over 15% lower and the factor is above -0.1 |
| Pricing.SuggestedPrice | backend/src/services/pricingService.js:205-212 | the suggested price is whole cents, at least the rounded margin floor and at least the rounded scaled price |
| Pricing.FloorIdle | backend/src/services/pricingService.js:209 | when the margin floor does not bind, the price is the scaled price rounded to cents |
| Pricing.SuggestedPriceBand | backend/src/services/pricingService.js:205-212 | unless the floor decides, the suggested price lies between the rounded 85% and 120% of the current price |
| Pricing.ComputeSignals | backend/src/services/pricingService.js:131-137 | the metrics computed first are the elasticity, the average, the inventory ratio and the recent demand |
| Pricing.SignalsOf | backend/src/services/pricingService.js:131-137 | the elasticity is negative; with no history the average is 10 and recent demand equals it; within the schema average, ratio and recent demand are non-negative |
| Pricing.Optimize | backend/src/services/pricingService.js:139-239 | the suggested price is the final factor's price raised to the margin floor and rounded to cents; both forecasts are taken at that final price and rounded to cents; the reason names the rule the ladder chose and the competitor step's note |
| Pricing.OptimizeProduct | backend/src/services/pricingService.js:123-240 | optimizePrice of a product keeps the same promises for its own metrics: margin floor, whole cents, forecasts at the suggested price, the ladder's rule and the competitor note |
| Pricing.OptimizeRevenueFloor | backend/src/services/pricingService.js:204-232 | with a non-negative average the reported revenue change is never below -100%, because the suggested price is not negative |
| Pricing.RevenueFloorAt | backend/src/services/pricingService.js:204-232 | a suggested price whose factor is at least -1 rounds to a revenue forecast at or above -100% |
| Pricing.Suggest | backend/src/services/pricingService.js:183-239 | the steps after the metrics produce the specified optimization |
| Pricing.OptimizePrice | backend/src/services/pricingService.js:123-240 | optimizePrice run step by step gives the specified optimization of the product |
| Pricing.CriticalStockExample | backend/src/services/pricingService.js:153-212 | cost 10, price 20, one unit in stock and no history: rule 3 fires and the price is 24.00, or 23.00 when the competitor is over 15% lower |
| Pricing.SlowHistoryDemand | backend/src/services/pricingService.js:109-137 | one sale of 8 units then seven empty periods averages 1 with no recent demand |
| Pricing.OverstockFloorExample | backend/src/services/pricingService.js:148-212 | cost 10 at price 10 with 1000 in stock: rule 2 fires and the margin floor sets 10.50 |
| Store.SkuOwner | backend/src/controllers/productController.js:79 | `findOne({ sku })` finds a stored product with that sku, or reports that none exists |
| Store.Database.NewId | backend/src/controllers/optimizeController.js:41-51 | a new document id is fresh in both collections and the counter advances by one |
| SuggestionController.StatusOf | backend/src/controllers/suggestionController.js:48-90 | missing ids, already applied and mismatch answer 400; unknown ids answer 404; a failing save answers 500 |
| SuggestionController.ApplyGuard | backend/src/controllers/suggestionController.js:48-72 | each refusal holds exactly when every earlier check passes and its own check fails |
| SuggestionController.Repriced | backend/src/controllers/suggestionController.js:75 | only the current price changes, and it becomes the suggested price |
| SuggestionController.ApplySuggestion | backend/src/controllers/suggestionController.js:44-91 | a refusal or a failing product save changes nothing; a failing flag save keeps the new price; success reprices the product and marks the suggestion applied; no applied flag is ever reset |
| SuggestionController.ApplyTwice | backend/src/controllers/suggestionController.js:59-61 | applying the same suggestion again is refused as already applied, and the first price stays |
| SuggestionController.ReapplyIsRejected | backend/src/controllers/suggestionController.js:59-80 | after a successful apply the guard answers "already applied" for the same pair |
| SuggestionController.QueryOf | backend/src/controllers/suggestionController.js:13-19 | only the exact text "true" filters for applied suggestions; any other present value filters for unapplied ones |
| SuggestionController.FilterMeaning | backend/src/controllers/suggestionController.js:13-21 | a suggestion is listed exactly when it is stored, belongs to the requested product when one is given, and, when the parameter is present, is applied exactly when the parameter is the text "true"; without the parameter applied and unapplied ones are both listed |
| OptimizeController.SelectionOf | backend/src/controllers/optimizeController.js:14-27 | `all` wins over a category, which wins over a non-empty id list; anything else is refused |
| OptimizeController.Scan | backend/src/controllers/optimizeController.js:16-22 | the query returns exactly the stored products the selection picks, in increasing id order |
| OptimizeController.Selected | backend/src/controllers/optimizeController.js:14-29 | an invalid request selects nothing; otherwise the selection is the scan's result |
| OptimizeController.CreateSuggestion | backend/src/controllers/optimizeController.js:38-62 | one iteration stores an unapplied suggestion under a fresh id, and its entries describe the product, its optimization and that id |
| OptimizeController.Outcomes | backend/src/controllers/optimizeController.js:36-38 | one optimization per product processed so far |
| OptimizeController.OutcomeAt | backend/src/controllers/optimizeController.js:36-38 | the k-th optimization is the engine's output for the k-th product with the k-th draws |
| OptimizeController.Assemble | backend/src/controllers/optimizeController.js:53-75 | one result entry and one suggestion entry per optimization |
| OptimizeController.AssembleSnoc | backend/src/controllers/optimizeController.js:53-62 | each iteration appends exactly the entries of its own product |
| OptimizeController.AssembledEntries | backend/src/controllers/optimizeController.js:41-75 | the k-th entries describe the k-th product, its optimization and the id base + k |
| OptimizeController.PlannedEntry | backend/src/controllers/optimizeController.js:36-75 | the k-th response entry holds the k-th product's optimization with the k-th draws, its current price and its new suggestion id |
| OptimizeController.StoredFresh | backend/src/controllers/optimizeController.js:41-51 | storing under consecutive fresh ids adds exactly those ids and keeps every earlier suggestion |
| OptimizeController.StoredAssembled | backend/src/controllers/optimizeController.js:41-62 | the stored suggestions are the old ones plus exactly the response's suggestions |
| OptimizeController.CreateSuggestions | backend/src/controllers/optimizeController.js:36-63 | the loop builds the planned response, stores its suggestions and advances the counter by the number of products |
| OptimizeController.OptimizeSelected | backend/src/controllers/optimizeController.js:33-76 | the response is the planned one and the suggestions extend the old ones by exactly its entries |
| OptimizeController.OptimizePrices | backend/src/controllers/optimizeController.js:8-81 | an invalid request answers 400 and an empty selection 404, storing nothing; a valid request with a non-empty selection always succeeds with the planned response and stores exactly its suggestions; products are never modified |
| ProductController.TrimStart | backend/src/controllers/productController.js:214 | strips exactly the leading whitespace: the result is a suffix that starts with a non-space |
| ProductController.TrimEnd | backend/src/controllers/productController.js:214 | strips exactly the trailing whitespace: the result is a prefix that ends with a non-space |
| ProductController.Trim | backend/src/controllers/productController.js:214 | the trimmed text is no longer than the text and is empty or starts and ends with a non-space |
| ProductController.TrimSuffixBlank | backend/src/controllers/productController.js:214 | everything cut from the end of the text by `trim()` is whitespace |
| ProductController.TrimSlice | backend/src/controllers/productController.js:59-61 | the trimmed text is a contiguous slice of the original |
| ProductController.TrimEmptyIffBlank | backend/src/controllers/productController.js:214-222 | `trim()` is empty exactly when the text is all whitespace |
| ProductController.TrimIdempotent | backend/src/models/Product.js:24-35 | trimming again, as the schema does on save, changes nothing |
| ProductController.TruncInt | backend/src/controllers/productController.js:229 | `parseInt` of a number truncates toward zero |
| ProductController.ValidateProduct | backend/src/controllers/productController.js:213-233 | a record passes exactly when no check fails; otherwise the reported error fails and no earlier check fails |
| ProductController.SmallNegativeInventoryPasses | backend/src/controllers/productController.js:229 | an inventory of -0.5 passes, since `parseInt` truncates it to 0 |
| ProductController.Normalize | backend/src/controllers/productController.js:58-66 | a validated record becomes a product whose texts are the trimmed inputs and non-empty, whose cost and price are the inputs, whose inventory is the truncated input or 0 by default, and whose history is the input or empty by default |
| ProductController.ValidRows | backend/src/controllers/productController.js:51-68 | at most one valid row per record, each a normalized product with non-empty texts and non-negative numbers |
| ProductController.ErrorRows | backend/src/controllers/productController.js:51-56 | at most one error row per record, each naming an index within the batch |
| ProductController.PartitionProducts | backend/src/controllers/productController.js:51-68 | the loop produces the valid rows and the error rows of the batch |
| ProductController.PartitionCounts | backend/src/controllers/productController.js:51-68 | every record is either valid or reported |
| ProductController.ErrorRowsFaithful | backend/src/controllers/productController.js:53-56 | every error row reports the first failing check of the record at its index and labels it by the record's name, or by its sku when the name is falsy; indices increase |
| ProductController.ErrorRowOf | backend/src/controllers/productController.js:53-56 | an invalid record has an error row with its index |
| ProductController.ErrorRowsComplete | backend/src/controllers/productController.js:51-56 | a record is rejected exactly when some error row carries its index |
| ProductController.Lookup | backend/src/controllers/productController.js:79 | the found product has the sku; when none is found, no stored product has it |
| ProductController.OwnerIsUnique | backend/src/models/Product.js:29 | under the unique index, looking up a stored product's sku finds that product |
| ProductController.Upsert | backend/src/controllers/productController.js:79-91 | each record counts as exactly one insert or one update, and only inserts take new ids |
| ProductController.UpsertStocked | backend/src/controllers/productController.js:79-91 | an upsert keeps skus unique and ids below the counter |
| ProductController.UpsertHolds | backend/src/controllers/productController.js:81-90 | after an upsert the record's sku finds exactly that record |
| ProductController.UpsertKeepsLookup | backend/src/controllers/productController.js:79-91 | an upsert does not change what any other sku finds |
| ProductController.UpsertKeepsProduct | backend/src/controllers/productController.js:81-84 | an upsert leaves every product with another sku in place |
| ProductController.UpsertKeys | backend/src/controllers/productController.js:86-90 | an upsert adds only a fresh id |
| ProductController.UpsertAll | backend/src/controllers/productController.js:78-92 | every record counts once, as an insert or an update, and the counter grows by exactly the number inserted |
| ProductController.UpsertAllStocked | backend/src/controllers/productController.js:78-92 | the whole loop keeps skus unique and ids below the counter |
| ProductController.UpsertAllIds | backend/src/controllers/productController.js:78-92 | the counter never goes back, and exactly the ids it passes over are new |
| ProductController.LastRecordWins | backend/src/controllers/productController.js:78-92 | when a sku repeats within a batch, its last record is the one stored |
| ProductController.UntouchedOutsideBatch | backend/src/controllers/productController.js:78-92 | products whose sku is not in the batch are left unchanged |
| ProductController.SavedPrefix | backend/src/models/Product.js:3-18 | the records saved before the first save that the history schema rejects |
| ProductController.UpsertProducts | backend/src/controllers/productController.js:78-92 | the store holds the saved prefix upserted in order; counts are reported exactly when every save succeeds |
| ProductController.RequestBatch | backend/src/controllers/productController.js:15-45 | a file wins over a products array, which wins over a single record with a name and a sku |
| ProductController.UploadProducts | backend/src/controllers/productController.js:8-105 | no batch answers 400, and so does no valid record (with the error rows), both unchanged; otherwise the valid rows are upserted, answering 201 with the counts and the error rows, or 500 when a save fails |
| ProductController.UploadAccounts | backend/src/controllers/productController.js:51-97 | a fully saved upload counts every record once: inserted + updated + rejected = batch size |
| ProductController.SetText | backend/src/models/Product.js:21-36 | an assigned name or category is stored trimmed and must be a non-blank text |
| ProductController.SetAmount | backend/src/models/Product.js:37-46 | an assigned cost or price must be a number of at least 0 |
| ProductController.SetCount | backend/src/models/Product.js:47-52 | an assigned inventory must be a whole number of at least 0 |
| ProductController.SetHistory | backend/src/models/Product.js:53-56 | an assigned history must be records within the schema |
| ProductController.ApplyUpdate | backend/src/controllers/productController.js:184-185 | an accepted update never changes the sku |
| ProductController.UpdateKeeps | backend/src/controllers/productController.js:184 | fields not in the body keep their values, and a product in the schema stays in it |
| ProductController.EmptyUpdate | backend/src/controllers/productController.js:184 | an empty body changes nothing |
| ProductController.SameSkuKeepsUnique | backend/src/models/Product.js:29 | replacing a product by one with the same sku keeps the ids and every sku, so skus stay unique |
| ProductController.Save | backend/src/controllers/productController.js:184-185 | saving an updated product with the same sku replaces only that entry, keeps every id and sku, and keeps the store valid |
| ProductController.UpdateProduct | backend/src/controllers/productController.js:168-192 | an unknown id answers 404 and a key outside the whitelist (`sku` included) answers 400, both unchanged; a failing save changes nothing; otherwise only that product is replaced by the updated one; ids and skus never change |

## Left out

- Floating point: numbers are exact reals. IEEE rounding error, NaN and Infinity are not
  modelled. The `isFinite` guards at pricingService.js:56, 85 and 231-235 therefore never fire.
  In calculateElasticity a zero previous price or zero previous units makes a ratio
  non-finite or zero, so that pair is skipped.
- Pricing.OptimizePrice: requires a positive current price. At price 0 the source divides by
  zero and relies on IEEE infinities, so the zero-price path is not modelled.
- Forecast.RevenueChange, Forecast.MarginChange and Competitor.CompetitorHint require a
  positive current price for the same reason.
- OptimizeController.OptimizePrices: requires every selected product to have a positive
  price, for the same reason.
- The reason text: `toFixed(1)`, the sentences, and the `'Price optimization applied'`
  fallback are left out. The reason is a tagged value carrying the unformatted percentage.
  The fallback can never apply, because every reason is non-empty.
- `Math.random`: each draw is a parameter. Which of 0.05-0.20 or the 0.5 sign split a draw
  gives is modelled; randomness itself is not.
- Date parsing: dates are integer timestamps, and `new Date(...)` is not modelled.
- CSV input: parsing, the column-name fallbacks (`row.name || row.Name ...`), `parseFloat`
  and `parseInt` coercion, and `parseSalesHistory` (JSON.parse) are not modelled. A file
  arrives as rows already mapped to raw records. A raw number is either NaN or a value.
- ProductController.Normalize: `parseFloat` and `parseInt` of a text field are not modelled.
  Only numbers and NaN reach validation.
- ProductController.TruncInt: `parseInt` of a number reads its decimal text, so a number
  written in exponent notation is not truncated: `parseInt(-5e-7)` is -5, which rejects the
  record, `parseInt(5e-7)` is 5 and `parseInt(1e21)` is 1. The model truncates toward zero,
  which matches only for magnitudes from 1e-6 up to 1e21.
- ProductController.ValidateProduct: a name, sku or category that is present but not a text
  makes `trim()` throw, which answers 500 for the whole upload. A raw record holds only
  texts in those fields, so that path is not modelled.
- ProductController.SetAmount, ProductController.SetCount, ProductController.SetText and
  ProductController.SetHistory: Mongoose's casting of a text to a number and back is not
  modelled. A value of the wrong JSON kind is treated as a failing save.
- ProductController.SetCount: a fractional inventory fails the update in the model, while
  Mongoose stores it. The schema declares only `Number`, not an integer, but the model stores
  inventory as an integer.
- Malformed ids: the cast errors that Mongoose raises for them (answered with 500) are
  not modelled. An id is a natural number.
- OptimizeController.Scan: the category match is a case-sensitive substring test. The
  source builds a case-insensitive regular expression from the category (optimizeController.js:19),
  so case folding and regular-expression syntax in the category are not modelled.
- Query order and paging: results come in id order. Sorting by `createdAt`, `limit`, `skip`,
  `populate` and `countDocuments` in getSuggestions are not modelled.
- getProducts, getProductById, deleteProduct and getSuggestionById are plain reads and
  deletes and are not modelled. Suggestion.js is not part of this model beyond the fields of
  `Store.Suggestion`.
- ProductController.UploadProducts: the `products` list in the 201 response (the saved
  documents) and the `message` texts are not modelled.
- OptimizeController.OptimizePrices: a suggestion save that throws mid-loop (a 500 after
  earlier suggestions were stored) is not modelled. Every save in that loop succeeds.
- Concurrency: every handler runs alone. Two concurrent apply requests could both pass the
  "already applied" check in the source; the model makes no claim about that.
- The unused `avgPrice` and `avgUnits` of calculateElasticity (pricingService.js:24-25) are
  not modelled.
- Logging (`console.log` and `console.error`) and the HTTP framework are not modelled.
  Responses are results.

# Sales bonus report — a Dafny model

This project models `analyzeSalesData` from `src/main.js` of the sales-bonus
repository, together with its two default strategies, `calculateSimpleRevenue`
and `calculateBonusByProfit`. The function takes sellers, products and
purchase records and returns one report row per seller. It runs in five steps:

1. **Validate.** The input shape is checked. Bad data is reported before bad options.
2. **Index.** One zeroed statistics record is built per seller, plus a seller index and a product index.
3. **Aggregate.** The purchase records are processed once, in order.
   - A record whose seller id is unknown is skipped whole.
   - An item whose SKU is unknown is skipped on its own.
   - Otherwise `sales_count`, `revenue`, `profit` and the per-SKU `products_sold` tallies grow.
4. **Rank.** Sellers are sorted by profit, largest first. The sort is stable.
5. **Report.** Each seller gets a bonus from its rank and a top-10 product list by quantity, and is projected into a report row.

Modules, one per stage or concept:

| file | module | models |
|---|---|---|
| `wrappers.dfy` | `Wrappers` | `Option`, and `Result` for the thrown errors |
| `money.dfy` | `Money` | `toFixed(2)` rounding on exact amounts |
| `seqs.dfy` | `Seqs` | images and sums over sequences |
| `sorting.dfy` | `Sorting` | the stable sort behind both `Array.prototype.sort` calls |
| `sales_types.dfy` | `SalesTypes` | sellers, products, items, records, statistics, report rows |
| `tally.dfy` | `Tally` | a seller's `products_sold` object |
| `strategies.dfy` | `Strategies` | `calculateSimpleRevenue`, `calculateBonusByProfit` |
| `validation.dfy` | `Validation` | the input checks |
| `indexing.dfy` | `Indexing` | `sellerStats`, `sellerIndex`, `productIndex` |
| `aggregation.dfy` | `Aggregation` | the `purchase_records.forEach` pass |
| `top_products.dfy` | `TopSelling` | `top_products` |
| `report.dfy` | `Report` | ranking, bonus, projection, the whole pipeline |

Modelling choices:

- Money is `real`. It is exact, not IEEE double.
- `toFixed(2)` is `Money.Round2`. It picks the nearest whole cent, and a half cent goes away from zero. That is what `toFixed` does to the exact value it is given.
- Quantities are `int` and `sales_count` is `nat`.
- Seller ids and SKUs are strings, because the indexes are plain JavaScript objects and their keys are strings.
- `products_sold` is an association list. It holds one entry per SKU, in the order each SKU was first sold. That is the order `Object.entries` reports for non-numeric keys.
- The seller index maps an id to a *position* in the statistics sequence. Both indexes are filled left to right, so a repeated key ends up naming its **last** seller or product card.
- The two strategies are function parameters: `(Item, Product) -> real` and `(nat, nat, SellerStat) -> real`. The defaults are the concrete functions `SimpleRevenue` and `BonusByProfit`.
- The three thrown `Error`s are three failures, one per message. `Failure(InvalidData)` comes from src/main.js:51, `Failure(OptionsNotObject)` from src/main.js:57 and `Failure(MissingStrategy)` from src/main.js:63.

Behaviours of `src/main.js` worth noting:

- Duplicate **seller** ids are accepted. The last seller with an id receives all of that id's records. Earlier sellers with the same id stay at zero but still get a report row (`Report.ShadowedSellerStaysZero`).
- The seller and product indexes are built without checking that each entry has a key.
- A lone seller (rank 0 of 1) gets the 15% top-rank bonus, not 0, because the rank-0 rule is tried before the last-rank rule.
- Among products with equal quantities, `top_products` keeps the ones sold first. New SKUs are appended to `products_sold` and the sort is stable.

## Model

| member | source | states |
|---|---|---|
| `Validation.Validate` | src/main.js:47-64 | Absent data, or a `sellers`/`products`/`purchase_records` that is missing, not an array or empty, fails with `InvalidData` whatever the options are. Exactly when the data passes, absent or non-object options fail with `OptionsNotObject`, and an options object lacking either strategy fails with `MissingStrategy`. On success the three collections and both strategies are passed on unchanged. |
| `Validation.ValidateAcceptsExactlyWellShapedInput` | src/main.js:47-64 | Validation succeeds if and only if all three collections are non-empty arrays and the options object carries both strategies. |
| `Indexing.InitStats` | src/main.js:68-75 | There is one record per seller, in input order. Each has the seller's id and the name `first_name + " " + last_name`. Revenue, profit and count are zero, and `products_sold` is empty. |
| `Indexing.LastPositions` | src/main.js:84-87 | The seller index has exactly the seller ids as keys. Each id names a record with that id, and no later record has that id (last one wins). |
| `Indexing.ProductIndex` | src/main.js:89-92 | The product index has exactly the SKUs as keys. Each SKU maps to the last product card with that SKU. |
| `Strategies.SimpleRevenue` | src/main.js:7-12 | With no discount, item revenue is sale price times quantity. With a 100% discount it is 0. For a discount in [0, 100] with non-negative price and quantity it lies between 0 and price times quantity. |
| `Strategies.BonusByProfit` | src/main.js:21-36 | The rules apply in order and the first match wins. Rank 0 gets 15% of profit. Ranks 1 and 2 get 10%. Any other last rank gets 0. Every other rank gets 5%. The result is rounded to whole cents. |
| `Strategies.LoneSellerGetsTopShare` | src/main.js:25-30 | A single seller (rank 0 of 1) gets the 15% share instead of the last-rank 0. The share is positive for a profit of at least 0.04; a smaller positive profit can round it to 0. |
| `Strategies.BonusNonIncreasingByRank` | src/main.js:21-33 | With non-negative profits in non-increasing order, a better rank never earns a smaller default bonus. |
| `Money.Round2` | src/main.js:35 | The result is a whole number of cents within half a cent of the input. A tie goes away from zero. Together these fix the result uniquely. |
| `Money.Round2Idempotent` | src/main.js:162 | Rounding an already rounded amount changes nothing, so the report's second rounding of the bonus is harmless. |
| `Money.Round2Monotone` | src/main.js:158-159 | Rounding preserves order, so profit order survives the report's rounding. |
| `Money.Round2Examples` | src/main.js:35 | 5% of 33.335 shows as 1.67, 0.125 as 0.13, and -0.125 as -0.13. |
| `Tally.AddQty` | src/main.js:125-128 | Adding `q` to one SKU raises only that SKU's quantity, by `q`. A missing SKU gets a new entry at the end; otherwise the SKUs keep their order. The entries stay one per SKU. |
| `Aggregation.ApplyItem` | src/main.js:110-128 | An unknown SKU leaves the seller unchanged. A known SKU adds `calculateRevenue(item, product) - purchase_price * quantity` to profit and `quantity` to that SKU's tally, and touches nothing else. |
| `Aggregation.ApplyItems` | src/main.js:109-129 | After a record's items, profit has grown by the profit of its known items, and each SKU's tally by the quantities of its known items. Revenue and count are untouched. |
| `Aggregation.ApplyRecord` | src/main.js:97-107 | A record with an unknown seller changes nothing. Otherwise exactly that seller's record changes: `sales_count` goes up by 1 and `revenue` by `total_amount`. |
| `Aggregation.AggregatePerSeller` | src/main.js:97-123 | After the pass, a seller's count, revenue and profit are its start values plus the number, total amounts and known-item profits of exactly the records whose seller id resolves to it. |
| `Aggregation.AggregateTallyPerSeller` | src/main.js:109-128 | After the pass, `products_sold[sku]` is the sum of `quantity` over that seller's items with that known SKU. A SKU has an entry exactly when such an item exists, and entries stay one per SKU. |
| `Aggregation.AggregateCountsKnownRecords` | src/main.js:97-105 | The sales counts grow in total by the number of records whose seller is known. |
| `Aggregation.UnknownItemsContributeNothing` | src/main.js:110-115 | Dropping the items with unknown SKUs from a record gives the same statistics. |
| `Aggregation.UnknownSellersContributeNothing` | src/main.js:98-103 | Dropping the records with unknown sellers gives the same statistics. |
| `Sorting.InsertionSort` | src/main.js:134-136 | The sort returns a permutation of its input with keys non-increasing. |
| `Sorting.InsertionSortIsStable` | src/main.js:134-136 | Among elements with equal keys, the output keeps the input order. |
| `Sorting.SortPermutesImage` | src/main.js:134-136 | Sorting only reorders: any projection of the output is a permutation of the same projection of the input. |
| `Report.Rank` | src/main.js:134-136 | Ranking is a permutation of the statistics, ordered by profit with the largest first. Sellers with equal profit stay in sellers-input order. |
| `TopSelling.TopProducts` | src/main.js:144-150 | `top_products` has `min(10, number of SKUs)` entries, ordered by quantity with the largest first. Every entry comes from `products_sold`, and no entry left out has a larger quantity than one kept. For each quantity, the entries kept are the earliest entries of `products_sold` with that quantity, in the same order. |
| `TopSelling.TopProductsAreTallyEntries` | src/main.js:144-148 | Each `top_products` entry is a distinct SKU paired with its accumulated quantity. |
| `Report.Row` | src/main.js:141-162 | A seller's row carries its id, name and count. Revenue, profit and bonus are whole cents, and a profit already in whole cents is kept exactly. `top_products` holds at most 10 of its `products_sold` entries, in quantity order. |
| `Report.Rows` | src/main.js:155-163 | There is one row per ranked seller. If the ranking is ordered by profit, so are the rounded row profits. |
| `Report.SellerIndexOf` | src/main.js:84-87 | The seller index built from the fresh statistics has exactly the input seller ids as keys, and every position is in range. |
| `Report.Statistics` | src/main.js:68-130 | After indexing and the pass there is still one record per seller, in input order, with its id and display name. |
| `Report.SalesReport` | src/main.js:68-163 | For validated input there is one row per seller. Rows are ordered by profit with the largest first, and every `top_products` has at most 10 entries in quantity order. |
| `Aggregation.Aggregate` | src/main.js:97-130 | The pass keeps the number of records and each record's id and name. What it adds to each seller is stated by `Aggregation.AggregatePerSeller`, `Aggregation.AggregateTallyPerSeller` and `Aggregation.AggregateCountsKnownRecords`. |
| `Report.AnalyzeSalesData` | src/main.js:44-166 | It fails exactly when validation fails, with the same error. On success there is one row per seller, rows are ordered by profit with the largest first, and every `top_products` has at most 10 entries in quantity order. |
| `Report.ReportIsRankedRows` | src/main.js:141-163 | Row `i` is the seller at rank `i`: its id, name and count, its revenue and profit rounded, and its `top_products`. Its bonus is the rounded result of one call to `calculateBonus(i, number of sellers, seller)`. |
| `Report.ReportHasOneRowPerSeller` | src/main.js:68-75 | The report's (seller_id, name) pairs are a permutation of the input sellers' (id, first + " " + last) pairs. |
| `Report.ReportCountsKnownRecords` | src/main.js:97-105 | The report's `sales_count` values add up to the number of purchase records whose seller id is some seller's id. |
| `Report.StatisticsPerSeller` | src/main.js:97-130 | Starting from zero, each seller's count, revenue, profit and tally are the sums over exactly the records routed to it. Its tally has one entry per SKU. |
| `Report.ShadowedSellerStaysZero` | src/main.js:84-87 | A seller followed by another with the same id receives no records and keeps its zero statistics. |
| `Report.ReportTopProductsAreTallyEntries` | src/main.js:144-150 | Each row's `top_products` are distinct SKUs carrying that seller's accumulated quantities. |
| `Report.DefaultBonusSurvivesReport` | src/main.js:162 | With the default bonus strategy, each row's bonus equals `calculateBonusByProfit(rank, total, seller)`. |
| `Report.SingleSellerScenario` | src/main.js:7-36 | One seller with one record of `total_amount` 180, holding 2 units at 100 with 10% off and a purchase price of 50, reports revenue 180, profit 80, one top product, and bonus 12. |

## Left out

- `console.warn` on an unknown seller or SKU (src/main.js:101, src/main.js:113) is a logging side channel. Skips are modelled as no-ops.
- IEEE double arithmetic. Amounts are exact reals, so sums do not depend on order and `toFixed` rounds the exact value. For example, `(1.005).toFixed(2)` is `"1.00"` in JavaScript but `Round2(1.005)` is 1.01.
- Money.Round2: rounds the exact real, not the nearest double, for the reason above.
- JavaScript dynamic typing is encoded in datatypes. `Missing`, `NotArray` and `Array` stand for the falsy, non-array and array cases. A strategy that is present is assumed to be a function. A truthy non-function value would pass validation and then throw when called; that is not modelled.
- Strategies are pure functions. A caller-supplied strategy that mutates the seller or throws is not modelled.
- Lookups through the object prototype are not modelled. In the code, a seller id or SKU such as `constructor` or `__proto__` finds an inherited property; the model's maps hold only the real keys.
- Key coercion is not modelled. Ids and SKUs are strings, so the numeric id `1` and the string `"1"` are not identified as they are in JavaScript.
- `Object.entries` lists integer-like keys first, in numeric order. The tally keeps first-sold order for every key. This only matters for which equal-quantity entries `top_products` keeps and the order they come out in, so `TopSelling.TopProducts` is exact only for SKUs that are not integer-like.
- The `sellerStatsMap` built at src/main.js:77-80 is never read, so it is not modelled.
- `Aggregation.Aggregate` itself only promises that ids, names and length are kept. Its content is stated by `AggregatePerSeller`, `AggregateTallyPerSeller` and `AggregateCountsKnownRecords`.
- Running the pipeline twice on the same input gives the same report because every member is a pure function. No separate lemma states it.
- Quantities are integers. JavaScript numbers could hold a fractional or `NaN` quantity. The reset at src/main.js:125-127 fires on a falsy tally. That is 0 or `NaN`, and with integer quantities it only turns 0 into 0, so `Tally.AddQty` adds straight to the entry.

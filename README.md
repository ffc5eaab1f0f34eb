# sales-bonus, modelled in Dafny

`analyzeSalesData(data, options)` turns three collections into a ranked
list of per-seller results:

- the collections are the sellers, the product catalogue and the purchase
  records;
- each result carries revenue, profit, number of sales, the ten best-selling
  products and a bonus.

The run has five stages:

1. fail-fast validation of the input and the options;
2. one zeroed stat per seller, plus two lookup tables: seller id to seller
   and SKU to product;
3. the record loop, with the item loop inside it, which adds into the stat
   of each record's seller;
4. a stable sort by profit from highest to lowest; the ranking loop then
   writes each stat's bonus, which comes from the injected `calculateBonus`,
   and its `top_products`;
5. the projection onto the output records.

The two default strategies are part of the model:

- `calculateSimpleRevenue` prices a line item at discounted sale price;
- `calculateBonusByProfit` is a rank-based bonus policy.

Files:

- `types.dfy`, module `SalesTypes`: the entities.
- `strategies.dfy`, module `Strategies`: the two default strategies.
- `stablesort.dfy`, module `StableSort`: the stable descending sort that
  `Array.prototype.sort` performs with a `b - a` comparator.
- `indexing.dfy`, module `Indexing`: the two lookup tables and the loop that
  fills the product table.
- `accumulation.dfy`, module `Accumulation`: the record and item loops.
  They are written twice:
  - as folds over the records (`Accumulate`, `ApplyRecord`, `ApplyItems`),
    with closed-form totals proved about them;
  - as methods that update an `array<SellerStat>` in place (`ProcessRecord`,
    `AccumulateRecords`), proved to give the same stats.
- `ranking.dfy`, module `Ranking`: the profit sort, `top_products`, the
  ranking loop (`AssignBonuses`, on an array) and the projection.
- `pipeline.dfy`, module `Pipeline`: validation and the whole run.
  - `Analyze` is the run as a function.
  - `AnalyzeSalesData` is the run step by step, as the source runs it.
  - The end-to-end lemmas state what the output is in terms of the inputs.
- `scenarios.dfy`, module `Scenarios`: one worked run, and one run that
  aborts on an unknown SKU.

Modelling choices:

- Money and quantities are exact `real`s.
- A falsy string field is the empty string.
- A field that is undefined or non-numeric is `None`.
- The two strategies are function-valued parameters.
- `products_sold` is a sequence of `(sku, quantity)` pairs in key insertion
  order. An existing key keeps its place; a new key goes last. This is the
  order `Object.entries` gives for non-numeric keys.

The exceptions the source throws are `Err` values of one `Error` type, one
constructor per `throw`. This includes the `TypeError` that an unknown SKU
raises in the item loop.

## Model

| member | source | states |
|---|---|---|
| Pipeline.AnalyzeSalesData | src/main.js:41-147 | The step-by-step run returns exactly what the functional model `Analyze` returns, error or list. |
| Pipeline.ValidateAccepts | src/main.js:43-60 | About the validation function `Validate`: the run gets past validation if and only if every check holds: there is a dataset, all three collections are arrays and non-empty, the options are an object with both strategies, and every seller has a non-empty id, first name and last name. |
| Pipeline.AnalyzeFailsFast | src/main.js:43-55 | A missing collection gives `InvalidInput`. An empty collection gives `EmptyArrays`. Any failed check ends the run with that check's error, and never with an unknown-product error. |
| Pipeline.AnalyzeNeedsStrategies | src/main.js:50-55 | Options that are not an object give `OptionsNotObject`. A missing `calculateRevenue` or `calculateBonus` gives `MissingStrategies`. |
| Pipeline.AnalyzeRejectsSeller | src/main.js:57-61 | With valid collections and options, the first seller lacking an id, first name or last name aborts the run with that seller. |
| Pipeline.FirstInvalidSeller | src/main.js:57-61 | Gives the position of the first malformed seller, with every seller before it well formed. Gives None exactly when every seller is well formed. |
| Accumulation.InitialStats | src/main.js:57-71 | One stat per seller, in seller order. Each has the seller's id, the name "first last", zero revenue, profit, sales and bonus, and empty `products_sold`. |
| Pipeline.AccumulatedSellers | src/main.js:57-71 | After the record loop, stat `k` still carries seller `k`'s id and full name. |
| Indexing.BuildProductIndex | src/main.js:74-77 | The loop leaves exactly the table `ProductIndex(products)`. |
| Indexing.IndexByKeys | src/main.js:73-77 | A key is in an index exactly when some element carries it. |
| Indexing.IndexByLastWins | src/main.js:73-77 | A repeated key maps to the last element that carries it. |
| Indexing.SellerIndexKeys | src/main.js:73 | `sellerIndex[id]` is defined exactly for the ids of the input sellers. |
| Indexing.ProductIndexKeys | src/main.js:74-77 | `productIndex[sku]` is defined exactly for the SKUs of the catalogue. |
| Indexing.ProductIndexLastWins | src/main.js:74-77 | With duplicate SKUs, the product looked up is the last catalogue entry. |
| Accumulation.FindStat | src/main.js:86 | Gives the first stat with the id, with no earlier stat carrying it. Gives None exactly when no stat carries it. |
| Accumulation.ApplyRecordUnknownSeller | src/main.js:80-84 | A record whose seller id is not in the seller index leaves every stat unchanged. |
| Accumulation.ApplyRecordKnownSeller | src/main.js:79-90 | For a known seller, the first stat with that id gains `total_amount` (0 when non-numeric) and exactly one sale, whatever the items. Every other stat is unchanged. |
| Accumulation.ApplyRecordEffect | src/main.js:79-120 | About `ApplyRecord`, the body of the record loop: only the record's target stat changes. It gains the amount, one sale, the items' summed profit and, per SKU, their summed quantity. Its bonus and top products are untouched. |
| Accumulation.ApplyRecordFails | src/main.js:79-120 | A record fails the run exactly when it is matched to a stat and holds a counted item whose SKU is not in the catalogue. |
| Accumulation.ApplyItemSkipped | src/main.js:100-105 | About `ApplyItem`, the item callback: an item with an empty SKU or without a quantity changes nothing. |
| Accumulation.ApplyItemCounted | src/main.js:100-119 | About `ApplyItem`: let q be the quantity, or 1 when it is 0. A counted item with a catalogue SKU adds q under its SKU in `products_sold`, leaves every other SKU alone, and adds `revenue(item) - purchase_price * q` to profit. A counted item with an unknown SKU fails with that SKU. |
| Accumulation.CoerceQuantity | src/main.js:107 | A quantity of 0 becomes 1; any other quantity stays as it is. |
| Accumulation.ApplyItemsFails | src/main.js:100-119 | The item loop, `ApplyItems`, fails if and only if some item is counted with an unknown SKU. The error names the first such item. |
| Accumulation.ApplyItemsErrExtends | src/main.js:100-119 | Once the item loop fails on a prefix of the items, it fails with the same error on the whole list. |
| Accumulation.ApplyItemsTotals | src/main.js:100-119 | A successful item loop adds the items' summed profit and per-SKU quantities. Revenue, sales count, id, name, bonus and top products are unchanged. |
| Accumulation.BumpLookup | src/main.js:110-113 | `Bump`, that is `products_sold[sku] += q`, raises that SKU's entry by q and no other. |
| Accumulation.BumpKeys | src/main.js:110-113 | Under `Bump`, an existing key keeps its place. A new key goes last. |
| Accumulation.ItemsKeys | src/main.js:100-119 | After a successful item loop, the keys of `products_sold` are the old keys followed by the SKU of each counted item not seen before, in item order (`SeenItems`). |
| Accumulation.BumpWellFormed | src/main.js:110-113 | Bumping a catalogue SKU keeps the keys distinct and within the catalogue. |
| Accumulation.ApplyItemsWellFormed | src/main.js:100-119 | The item loop keeps `products_sold` free of duplicate keys and unknown SKUs. |
| Accumulation.AccumulateErrExtends | src/main.js:79-120 | Once the record loop fails on a prefix of the records, that error is the result of the whole loop. |
| Accumulation.AccumulateSameSellers | src/main.js:79-120 | The record loop keeps one stat per position, with its id and name. |
| Accumulation.AccumulateFails | src/main.js:79-120 | The record loop, `Accumulate`, fails exactly when some record fails. |
| Accumulation.AccumulateFirstOwner | src/main.js:79-120 | The first stat with a known seller id ends with its starting values plus that id's totals over all records: summed amounts, record count, item profit and per-SKU quantities. |
| Accumulation.RecordsKeys | src/main.js:79-120 | For the first stat with a known seller id, the keys of `products_sold` after the record loop are its starting keys followed by the SKUs of that id's counted items, in order of first appearance across its records (`SeenRecords`). |
| Accumulation.AccumulateLaterDuplicate | src/main.js:73-86 | A stat whose seller id repeats an earlier stat's id is never accumulated into. |
| Accumulation.AccumulateWellFormed | src/main.js:79-120 | Every stat's `products_sold` stays free of duplicate keys and unknown SKUs. |
| Accumulation.ProcessItem | src/main.js:100-119 | The in-place item callback leaves the stat `ApplyItem` gives and touches no other stat, or reports the unknown SKU. |
| Accumulation.ProcessRecord | src/main.js:79-120 | The in-place body of the record loop leaves exactly the stats `ApplyRecord` gives, or reports its error. |
| Accumulation.AccumulateRecords | src/main.js:79-120 | The in-place record loop leaves exactly the stats `Accumulate` gives, or reports its error. |
| Pipeline.RunSellerTotals | src/main.js:79-120 | For the first seller with a given id, the stat after the record loop holds that id's totals over all records: summed `total_amount`, record count, summed item profit and, per SKU, summed item quantity. The keys of `products_sold` are that id's counted SKUs in order of first appearance across its records. |
| Accumulation.TotalPermutes | src/main.js:79-120 | A sum over the records does not depend on the order of its terms. |
| Accumulation.RecordsTotalsAreSums | src/main.js:79-120 | Each per-seller total (amount, record count, item profit, per-SKU quantity) is a sum with one term per record. |
| Accumulation.RecordsTotalsPermute | src/main.js:79-120 | Reordering the records leaves every seller's summed amount, record count, item profit and per-SKU quantity unchanged. |
| Pipeline.AccumulatedFailsRecordOrder | src/main.js:79-120 | Reordering the records does not change whether the record loop fails. |
| Pipeline.AccumulatedStatRecordOrder | src/main.js:79-120 | Whatever the order of the records, stat `k` ends with the same id, name, revenue, profit, sales count and per-SKU quantities. |
| Pipeline.AccumulatedRecordOrder | src/main.js:79-120 | Reordering the records changes neither whether the record loop fails nor any stat's id, name, revenue, profit, sales count or per-SKU quantity sold. |
| Pipeline.RunDuplicateSellerStaysZero | src/main.js:73-86 | A seller whose id repeats an earlier seller's keeps its zeroed stat. |
| Pipeline.RunFailsOnUnknownSku | src/main.js:100-108 | After validation, the run fails exactly when a record of a known seller holds a counted item whose SKU is not in the catalogue. |
| StableSort.SortPermutes | src/main.js:122 | The insertion sort `SortDesc` returns a permutation of its input. |
| StableSort.SortSorted | src/main.js:122 | The sort's output is ordered by the key, from highest to lowest. |
| StableSort.SortStable | src/main.js:122 | Elements with equal keys keep their input order. |
| StableSort.DistinctPositionsDiffer | src/main.js:129-135 | A permutation of a list whose entries all have different ids holds no entry twice. |
| StableSort.OnceInDistinct | src/main.js:129-135 | In a list whose entries all have different ids, an entry occurs at most once. |
| StableSort.SortMapPermutes | src/main.js:122 | Any projection of the sorted list is a permutation of the same projection of the input. |
| StableSort.WithKeyPrefix | src/main.js:134-135 | Cutting a list after `n` elements keeps, for each key, a prefix of the elements with that key. |
| StableSort.SortAgrees | src/main.js:122 | The order the sort produces depends only on the keys. Lists that agree position by position on the key and on any projection sort into lists that again agree position by position. |
| Ranking.SortByProfitCorrect | src/main.js:122 | The ranked copy is the stats rearranged, by profit from highest to lowest, with equal-profit stats in seller order. |
| Ranking.RankAssigns | src/main.js:125-136 | The ranking loop, `Rank`, gives rank `i` of `n` the bonus `calculateBonus(i, n, stat)` and its top products. Every other field is unchanged. |
| Ranking.AssignBonuses | src/main.js:123-136 | The in-place ranking loop leaves exactly `Rank` of the sorted stats. |
| Ranking.TopProducts | src/main.js:129-135 | `top_products` has `min(n, 10)` entries, ordered by quantity from highest to lowest. It is a sub-multiset of `products_sold`, and it is empty exactly when nothing was sold. |
| Ranking.TopProductsAreLargest | src/main.js:129-135 | No entry left out of `top_products` outsold one kept in it. |
| Ranking.TopProductsDistinct | src/main.js:129-135 | When `products_sold` has distinct keys, so does `top_products`. |
| Ranking.TopProductsStable | src/main.js:129-135 | For every quantity, the top list's products with that quantity are a prefix of `products_sold`'s products with that quantity, in key order: the cut at ten keeps the earliest ties. With at most ten entries, all of them are kept in that order. |
| Ranking.Project | src/main.js:138-146 | One output record per stat, in rank order, carrying the stat's fields. |
| Pipeline.RunRanksEverySeller | src/main.js:122-146 | There is one result per input seller. Every seller id occurs as often as in the input. The results run by profit from highest to lowest. |
| Pipeline.RunOutputIsRankedStats | src/main.js:122-146 | Result `i` is the stat at rank `i` of the stable profit sort of the accumulated stats. It carries the strategy's bonus for `(i, total, stat)` and that stat's top products. |
| Pipeline.RunTopProducts | src/main.js:129-144 | Every result's `top_products` holds at most ten distinct catalogue SKUs from the seller's own `products_sold`. They run by quantity from highest to lowest, and the list is empty exactly when the seller sold nothing. |
| Pipeline.DefaultBonusByRank | src/main.js:20-128 | With the default policy, each result's bonus is its rank's rate times its profit. |
| Pipeline.DefaultBonusesNonIncreasing | src/main.js:20-128 | With the default policy and no negative profit, bonuses never grow down the ranking. |
| Pipeline.RunRecordOrder | src/main.js:79-146 | Reordering the records changes neither whether the run fails nor, rank by rank, the output's seller id, name, revenue, profit and sales count. |
| Pipeline.DefaultBonusRecordOrder | src/main.js:20-147 | Under the default policy, reordering the records leaves every rank's bonus unchanged. |
| Strategies.SimpleRevenue | src/main.js:7-11 | Revenue plus the discounted share equals `sale_price * quantity`. With discount 0 it is `sale_price * quantity`; with discount 100 it is 0. |
| Strategies.SimpleRevenueBounded | src/main.js:7-11 | A discount between 0 and 100 keeps the revenue between 0 and the gross line price. |
| Strategies.BonusRate | src/main.js:20-32 | The rate by position: 15% for rank 0, 10% for ranks 1 and 2, 0 for the last of four or more, and 5% otherwise. |
| Strategies.BonusByProfitIsRate | src/main.js:20-32 | Taken in the source's order, the branches of the policy `BonusByProfit` pay exactly the rank's rate on profit. With one seller, rank 0 gets 15%. Ranks 1 and 2 get 10% even when last. |
| Strategies.BonusRateNonIncreasing | src/main.js:20-32 | The rate never grows with the rank. |
| Strategies.BonusRateZeroOnlyLast | src/main.js:25-27 | The rate is 0 if and only if the list has at least four sellers and the rank is the last. |
| Scenarios.OneSale | src/main.js:41-147 | One seller sells 2 units bought at 60 for 100 each. The result has revenue 200, profit 80, one sale, the product in `top_products` and bonus 12. An item without a quantity changes nothing, and neither does a record of an unknown seller. |
| Scenarios.UnknownSkuAborts | src/main.js:100-108 | A counted item with a SKU missing from the catalogue aborts the run with that SKU. |

## Left out

- Diagnostics: `console.error` and `console.warn` have no effect on the result.
- Rounding: `toFixed(2)` is decimal formatting of floating-point values. Revenue, profit and bonus are kept unrounded.
- IEEE-754 arithmetic: amounts are exact reals. Overflow, rounding and NaN do not arise.
- JavaScript coercion details: values come already typed.
  - A non-numeric `total_amount` is `None` and counts as 0.
  - An undefined quantity is `None`.
  - Non-numeric quantities that are present are not modelled.
  - Ids are strings, so a number id and a string id cannot mismatch.
  - Because of this, the `if (!sellerStat) return;` branch (src/main.js:87) is modelled, but it cannot be reached: a seller in the seller index always has a stat.
- The `typeof ... === 'function'` and `typeof options !== "object"` checks are modelled as `None`/`Some`.
- Keys inherited from `Object.prototype` are not modelled.
- Integer-like SKUs are not modelled. `Object.entries` would list them in numeric order, not insertion order.
- `record.items` is always a sequence. A missing items array, which raises a `TypeError`, is not modelled.
- Dead locals: `totalCost` and `totalRevenue` are computed in `ProcessRecord`, and `itemPrice` in `ProcessItem`; none of them is read. The `totalItemsPrice` reduce (src/main.js:94-98) has no effect and cannot throw, so it is not modelled.
- Strategy behaviour: the injected strategies are total, pure functions. A strategy that throws or has side effects is not modelled.
- The unused `_product` parameter of `calculateSimpleRevenue` is not modelled, because the pipeline passes only the item.
- Strategies.SimpleRevenue: reads an undefined quantity as 0, giving revenue 0 where JavaScript gives NaN. The pipeline never calls the strategy on such an item.
- Unknown SKUs: the item loop has no `!product` guard, unlike the `reduce` at src/main.js:96. Reading `product.purchase_price` of `undefined` (src/main.js:108) throws, so `Err(UnknownProduct(sku))` ends the whole run instead of skipping the item.
- Record order and `top_products`: reordering the purchase records leaves every total, profit and default bonus unchanged, but it can change the key order of `products_sold`, since that order is the order of first appearance across the records (`RecordsKeys`). The tie order of `top_products`, and which tied products survive the cut at ten, therefore depend on record order. A custom bonus strategy sees the whole stat, including `products_sold`, so its bonuses are not covered by the order lemmas.

/**
 * `analyzeSalesData`: fail-fast validation, the seller and product
 * indexes, the accumulation loops, the ranking loop and the projection.
 * `Analyze` is the whole run as a function; `AnalyzeSalesData` is the
 * run as the source performs it, on arrays updated in place, and is
 * proved to return exactly what `Analyze` does. The lemmas below state
 * what the run promises about its output in terms of its inputs.
 */
module Pipeline {
  import opened SalesTypes
  import opened Indexing
  import opened Accumulation
  import opened StableSort
  import opened Ranking
  import Strategies

  /** The inputs once every fail-fast check has passed. */
  datatype Checked = Checked(
    sellers: seq<Seller>,
    products: seq<Product>,
    records: seq<PurchaseRecord>,
    revenue: RevenueFn,
    bonus: BonusFn)

  /** The seller has a truthy `id`, `first_name` and `last_name`. */
  predicate WellFormedSeller(s: Seller)
  {
    s.id != "" && s.firstName != "" && s.lastName != ""
  }

  /** The position of the first malformed seller, where the seller `map` throws. */
  function FirstInvalidSeller(sellers: seq<Seller>): (r: Option<nat>)
    ensures r.Some? ==> r.value < |sellers| && !WellFormedSeller(sellers[r.value])
                        && forall k :: 0 <= k < r.value ==> WellFormedSeller(sellers[k])
    ensures r.None? ==> forall k :: 0 <= k < |sellers| ==> WellFormedSeller(sellers[k])
  {
    if sellers == [] then None
    else if !WellFormedSeller(sellers[0]) then Some(0)
    else
      match FirstInvalidSeller(sellers[1..])
      case None => None
      case Some(k) => Some(k + 1)
  }

  /** The checks of the source, in its order; the first that fails decides the error. */
  function Validate(data: Option<Dataset>, options: Option<Options>): Result<Checked, Error>
  {
    if data.None? || data.value.sellers.None? || data.value.products.None? || data.value.purchaseRecords.None? then
      Err(InvalidInput)
    else
      var sellers := data.value.sellers.value;
      var products := data.value.products.value;
      var records := data.value.purchaseRecords.value;
      if |sellers| == 0 || |products| == 0 || |records| == 0 then Err(EmptyArrays)
      else if options.None? then Err(OptionsNotObject)
      else if options.value.calculateRevenue.None? || options.value.calculateBonus.None? then Err(MissingStrategies)
      else
        match FirstInvalidSeller(sellers)
        case Some(k) => Err(InvalidSeller(sellers[k]))
        case None =>
          Ok(Checked(sellers, products, records, options.value.calculateRevenue.value, options.value.calculateBonus.value))
  }

  /** Every condition under which the run does not fail fast. */
  ghost predicate Acceptable(data: Option<Dataset>, options: Option<Options>)
  {
    && data.Some?
    && data.value.sellers.Some? && data.value.products.Some? && data.value.purchaseRecords.Some?
    && |data.value.sellers.value| > 0 && |data.value.products.value| > 0 && |data.value.purchaseRecords.value| > 0
    && options.Some?
    && options.value.calculateRevenue.Some? && options.value.calculateBonus.Some?
    && forall k :: 0 <= k < |data.value.sellers.value| ==> WellFormedSeller(data.value.sellers.value[k])
  }

  function TablesOf(c: Checked): Tables
  {
    Tables(SellerIndex(c.sellers), ProductIndex(c.products), c.revenue)
  }

  /** The stats after the record loop, or the error it raised. */
  function Accumulated(c: Checked): Result<seq<SellerStat>, Error>
  {
    Accumulate(InitialStats(c.sellers), c.records, TablesOf(c))
  }

  /** Everything after validation. */
  function Run(c: Checked): Result<seq<SellerResult>, Error>
  {
    match Accumulated(c)
    case Err(e) => Err(e)
    case Ok(stats) => Ok(Project(Rank(SortByProfit(stats), c.bonus)))
  }

  /** The whole run: validation, then accumulation and ranking. */
  function Analyze(data: Option<Dataset>, options: Option<Options>): Result<seq<SellerResult>, Error>
  {
    match Validate(data, options)
    case Err(e) => Err(e)
    case Ok(c) => Run(c)
  }

  /** `analyzeSalesData(data, options)`, step by step as the source runs it. */
  method AnalyzeSalesData(data: Option<Dataset>, options: Option<Options>) returns (r: Result<seq<SellerResult>, Error>)
    ensures r == Analyze(data, options)
  {
    if data.None? || data.value.sellers.None? || data.value.products.None? || data.value.purchaseRecords.None? {
      return Err(InvalidInput);
    }
    var sellers := data.value.sellers.value;
    var products := data.value.products.value;
    var records := data.value.purchaseRecords.value;
    if |sellers| == 0 || |products| == 0 || |records| == 0 {
      return Err(EmptyArrays);
    }
    if options.None? {
      return Err(OptionsNotObject);
    }
    if options.value.calculateRevenue.None? || options.value.calculateBonus.None? {
      return Err(MissingStrategies);
    }
    var calculateRevenue := options.value.calculateRevenue.value;
    var calculateBonus := options.value.calculateBonus.value;

    // sellers.map: check each seller, then create its zeroed stat
    var sellerStats := new SellerStat[|sellers|];
    var i := 0;
    while i < |sellers|
      invariant 0 <= i <= |sellers|
      invariant forall k :: 0 <= k < i ==> WellFormedSeller(sellers[k]) && sellerStats[k] == NewStat(sellers[k])
    {
      var seller := sellers[i];
      if seller.id == "" || seller.firstName == "" || seller.lastName == "" {
        return Err(InvalidSeller(seller));
      }
      sellerStats[i] := SellerStat(seller.id, seller.firstName + " " + seller.lastName, 0.0, 0.0, 0, [], 0.0, []);
      i := i + 1;
    }
    assert sellerStats[..] == InitialStats(sellers);

    var sellerIndex := SellerIndex(sellers);
    var productIndex := BuildProductIndex(products);
    var failure := AccumulateRecords(sellerStats, records, Tables(sellerIndex, productIndex, calculateRevenue));
    if failure.Some? {
      return Err(failure.value);
    }

    var sorted := SortByProfit(sellerStats[..]);
    var sortedSellers := new SellerStat[|sorted|](k requires 0 <= k < |sorted| => sorted[k]);
    assert sortedSellers[..] == sorted;
    AssignBonuses(sortedSellers, calculateBonus);
    r := Ok(Project(sortedSellers[..]));
  }

  // ----- validation -----

  /** The run gets past validation exactly when every check holds. */
  lemma ValidateAccepts(data: Option<Dataset>, options: Option<Options>)
    ensures Validate(data, options).Ok? <==> Acceptable(data, options)
  {
  }

  /**
   * Each fail-fast check aborts the run with its own error, before any
   * record is read: a missing collection, an empty one, options that are no
   * object, a missing strategy, and the first malformed seller.
   */
  lemma AnalyzeFailsFast(data: Option<Dataset>, options: Option<Options>)
    ensures data.None? || data.value.sellers.None? || data.value.products.None? || data.value.purchaseRecords.None?
            ==> Analyze(data, options) == Err(InvalidInput)
    ensures data.Some? && data.value.sellers.Some? && data.value.products.Some? && data.value.purchaseRecords.Some?
            && (|data.value.sellers.value| == 0 || |data.value.products.value| == 0 || |data.value.purchaseRecords.value| == 0)
            ==> Analyze(data, options) == Err(EmptyArrays)
    ensures !Acceptable(data, options) ==>
            Analyze(data, options).Err? && !Analyze(data, options).error.UnknownProduct?
            && Analyze(data, options) == Err(Validate(data, options).error)
  {
  }

  /** Options that pass the shape checks but lack a strategy abort the run. */
  lemma AnalyzeNeedsStrategies(data: Option<Dataset>, options: Option<Options>)
    requires data.Some? && data.value.sellers.Some? && data.value.products.Some? && data.value.purchaseRecords.Some?
    requires |data.value.sellers.value| > 0 && |data.value.products.value| > 0 && |data.value.purchaseRecords.value| > 0
    ensures options.None? ==> Analyze(data, options) == Err(OptionsNotObject)
    ensures options.Some? && (options.value.calculateRevenue.None? || options.value.calculateBonus.None?)
            ==> Analyze(data, options) == Err(MissingStrategies)
  {
  }

  /** With valid collections and options, the first malformed seller aborts the run. */
  lemma AnalyzeRejectsSeller(data: Option<Dataset>, options: Option<Options>, k: nat)
    requires data.Some? && data.value.sellers.Some? && data.value.products.Some? && data.value.purchaseRecords.Some?
    requires |data.value.products.value| > 0 && |data.value.purchaseRecords.value| > 0
    requires options.Some? && options.value.calculateRevenue.Some? && options.value.calculateBonus.Some?
    requires k < |data.value.sellers.value| && !WellFormedSeller(data.value.sellers.value[k])
    requires forall m :: 0 <= m < k ==> WellFormedSeller(data.value.sellers.value[m])
    ensures Analyze(data, options) == Err(InvalidSeller(data.value.sellers.value[k]))
  {
    var r := FirstInvalidSeller(data.value.sellers.value);
    assert r == Some(k);
  }

  // ----- shape of the output -----

  function StatId(s: SellerStat): string
  {
    s.sellerId
  }

  function ResultId(r: SellerResult): string
  {
    r.sellerId
  }

  /** The accumulated stats are the initial ones position by position: same ids and names. */
  lemma AccumulatedSellers(c: Checked)
    requires Accumulated(c).Ok?
    ensures |Accumulated(c).value| == |c.sellers|
    ensures Map(Accumulated(c).value, StatId) == Map(c.sellers, IdOf)
    ensures forall k :: 0 <= k < |c.sellers| ==>
      Accumulated(c).value[k].name == c.sellers[k].firstName + " " + c.sellers[k].lastName
  {
    AccumulateSameSellers(InitialStats(c.sellers), c.records, TablesOf(c));
  }

  /**
   * One result per input seller: the output lists every seller id as often
   * as the input does, ranked by profit from highest to lowest.
   */
  lemma RunRanksEverySeller(c: Checked)
    requires Run(c).Ok?
    ensures |Run(c).value| == |c.sellers|
    ensures multiset(Map(Run(c).value, ResultId)) == multiset(Map(c.sellers, IdOf))
    ensures forall i, j :: 0 <= i < j < |Run(c).value| ==> Run(c).value[i].profit >= Run(c).value[j].profit
  {
    var stats := Accumulated(c).value;
    AccumulatedSellers(c);
    var sorted := SortByProfit(stats);
    SortByProfitCorrect(stats, 0.0);
    var out := Run(c).value;
    forall i | 0 <= i < |sorted| ensures out[i].sellerId == sorted[i].sellerId && out[i].profit == sorted[i].profit {
      RankAssigns(sorted, c.bonus, i);
    }
    assert Map(out, ResultId) == Map(sorted, StatId);
    SortMapPermutes(stats, Profit, StatId);
  }

  /**
   * The output is the ranked stats projected: rank `i` shows the stat at
   * position `i` of the stable profit sort of the accumulated stats, with
   * the bonus strategy's value for `(i, total, stat)` and that stat's top
   * products; equal-profit stats keep their seller-list order.
   */
  lemma RunOutputIsRankedStats(c: Checked, i: nat, v: real)
    requires Run(c).Ok? && i < |Run(c).value|
    ensures var stats := Accumulated(c).value;
      var sorted := SortByProfit(stats);
      var out := Run(c).value;
      && multiset(sorted) == multiset(stats)
      && WithKey(sorted, Profit, v) == WithKey(stats, Profit, v)
      && |sorted| == |out|
      && out[i].sellerId == sorted[i].sellerId && out[i].name == sorted[i].name
      && out[i].revenue == sorted[i].revenue && out[i].profit == sorted[i].profit
      && out[i].salesCount == sorted[i].salesCount
      && out[i].bonus == c.bonus(i, |out|, sorted[i])
      && out[i].topProducts == TopProducts(sorted[i].productsSold)
  {
    var stats := Accumulated(c).value;
    SortByProfitCorrect(stats, v);
    RankAssigns(SortByProfit(stats), c.bonus, i);
  }

  // ----- per-seller totals -----

  lemma SellerKnown(sellers: seq<Seller>, k: nat)
    requires k < |sellers|
    ensures sellers[k].id in SellerIndex(sellers)
  {
    IndexByKeys(sellers, IdOf, sellers[k].id);
    assert IdOf(sellers[k]) == sellers[k].id;
  }

  /**
   * The stat of the first seller with a given id ends with that id's totals
   * over all records: summed `total_amount`, number of records, summed item
   * profit and, per SKU, summed item quantity, with the keys of
   * `products_sold` in order of first appearance across its records.
   */
  lemma RunSellerTotals(c: Checked, k: nat)
    requires Accumulated(c).Ok?
    requires k < |c.sellers|
    requires forall m :: 0 <= m < k ==> c.sellers[m].id != c.sellers[k].id
    ensures |Accumulated(c).value| == |c.sellers|
    ensures var id := c.sellers[k].id;
      var s := Accumulated(c).value[k];
      && s.sellerId == id
      && s.revenue == RecordsRevenue(c.records, id)
      && s.salesCount == RecordsCount(c.records, id)
      && s.profit == RecordsProfit(c.records, id, TablesOf(c))
      && (forall sku :: Lookup(s.productsSold, sku) == RecordsQuantity(c.records, id, sku))
      && Map(s.productsSold, SoldSku) == SeenRecords([], c.records, id)
  {
    var init := InitialStats(c.sellers);
    SellerKnown(c.sellers, k);
    AccumulateSameSellers(init, c.records, TablesOf(c));
    AccumulateFirstOwner(init, c.records, TablesOf(c), k);
    RecordsKeys(init, c.records, TablesOf(c), k);
    assert Map(init[k].productsSold, SoldSku) == [];
  }

  /** A seller whose id repeats an earlier seller's keeps its zeroed stat: the records go to the first one. */
  lemma RunDuplicateSellerStaysZero(c: Checked, m: nat, k: nat)
    requires Accumulated(c).Ok?
    requires m < k < |c.sellers| && c.sellers[m].id == c.sellers[k].id
    ensures |Accumulated(c).value| == |c.sellers|
    ensures Accumulated(c).value[k] == NewStat(c.sellers[k])
    ensures var s := Accumulated(c).value[k];
      s.revenue == 0.0 && s.profit == 0.0 && s.salesCount == 0 && s.productsSold == []
  {
    AccumulateLaterDuplicate(InitialStats(c.sellers), c.records, TablesOf(c), m, k);
  }

  // ----- unknown SKUs -----

  /** A counted item with a SKU missing from the catalogue, in a record of a known seller. */
  ghost predicate ThrowingItem(c: Checked, r: int, i: int)
  {
    && 0 <= r < |c.records| && 0 <= i < |c.records[r].items|
    && KnownSeller(c.sellers, c.records[r].sellerId)
    && Counted(c.records[r].items[i])
    && !KnownSku(c.products, c.records[r].items[i].sku)
  }

  /**
   * The record loop has no guard against an unknown product: the run fails
   * exactly when a record of a known seller holds a counted item whose SKU
   * is not in the catalogue.
   */
  lemma RunFailsOnUnknownSku(c: Checked)
    ensures Run(c).Err? <==> exists r, i :: ThrowingItem(c, r, i)
  {
    var init := InitialStats(c.sellers);
    var t := TablesOf(c);
    AccumulateFails(init, c.records, t);
    forall r | 0 <= r < |c.records|
      ensures RecordFails(init, c.records[r], t) <==> exists i :: ThrowingItem(c, r, i)
    {
      var rec := c.records[r];
      SellerIndexKeys(c.sellers, rec.sellerId);
      if KnownSeller(c.sellers, rec.sellerId) {
        var k :| 0 <= k < |c.sellers| && c.sellers[k].id == rec.sellerId;
        assert init[k].sellerId == rec.sellerId;
      }
      if Owns(init, rec.sellerId) {
        var k :| 0 <= k < |init| && init[k].sellerId == rec.sellerId;
        assert c.sellers[k].id == rec.sellerId;
      }
      assert Owns(init, rec.sellerId) <==> KnownSeller(c.sellers, rec.sellerId);
      forall i | 0 <= i < |rec.items|
        ensures KnownSeller(c.sellers, rec.sellerId) ==> (Unknown(rec.items[i], t) <==> ThrowingItem(c, r, i))
      {
        ProductIndexKeys(c.products, rec.items[i].sku);
      }
      if RecordFails(init, rec, t) {
        var i :| 0 <= i < |rec.items| && Unknown(rec.items[i], t);
        assert ThrowingItem(c, r, i);
      }
      if exists i :: ThrowingItem(c, r, i) {
        var i :| ThrowingItem(c, r, i);
        assert Unknown(rec.items[i], t);
      }
    }
  }

  // ----- top products -----

  /**
   * Every seller's `top_products` holds at most ten distinct catalogue SKUs
   * taken from its own `products_sold`, by quantity from highest to lowest,
   * and is empty exactly when the seller sold nothing.
   */
  lemma RunTopProducts(c: Checked, i: nat)
    requires Run(c).Ok? && i < |Run(c).value|
    ensures var stats := Accumulated(c).value;
      var sorted := SortByProfit(stats);
      var top := Run(c).value[i].topProducts;
      && |top| <= TopProductsLimit
      && (forall a, b :: 0 <= a < b < |top| ==> top[a].quantity >= top[b].quantity)
      && multiset(top) <= multiset(sorted[i].productsSold)
      && (top == [] <==> sorted[i].productsSold == [])
      && (forall a :: 0 <= a < |top| ==> KnownSku(c.products, top[a].sku))
      && (forall a, b :: 0 <= a < b < |top| ==> top[a].sku != top[b].sku)
  {
    var stats := Accumulated(c).value;
    var t := TablesOf(c);
    var init := InitialStats(c.sellers);
    AccumulateWellFormed(init, c.records, t);
    SortByProfitCorrect(stats, 0.0);
    var sorted := SortByProfit(stats);
    RankAssigns(sorted, c.bonus, i);
    assert sorted[i] in multiset(stats);
    var j :| 0 <= j < |stats| && stats[j] == sorted[i];
    var sold := sorted[i].productsSold;
    assert SoldWellFormed(sold, t.products);
    var top := TopProducts(sold);
    forall a | 0 <= a < |top| ensures top[a].sku in t.products && exists x :: 0 <= x < |sold| && sold[x] == top[a] {
      assert top[a] in multiset(sold);
    }
    forall a | 0 <= a < |top| ensures KnownSku(c.products, top[a].sku) {
      ProductIndexKeys(c.products, top[a].sku);
    }
    forall a, b | 0 <= a < b < |top| ensures top[a].sku != top[b].sku {
      TopProductsDistinct(sold, a, b);
    }
  }

  // ----- the default bonus policy -----

  /**
   * Under the default policy, and with no negative profit, bonuses never
   * grow down the ranking.
   */
  lemma DefaultBonusesNonIncreasing(c: Checked, i: nat, j: nat)
    requires c.bonus == Strategies.BonusByProfit
    requires Run(c).Ok? && i < j < |Run(c).value|
    requires Run(c).value[j].profit >= 0.0
    ensures Run(c).value[i].bonus >= Run(c).value[j].bonus
  {
    var out := Run(c).value;
    RunProfitOrder(c, i, j);
    DefaultBonusByRank(c, i);
    DefaultBonusByRank(c, j);
    Strategies.RatedBonusOrder(|out|, i, j, out[i].profit, out[j].profit, out[i].bonus, out[j].bonus);
  }

  lemma RunProfitOrder(c: Checked, i: nat, j: nat)
    requires Run(c).Ok? && i < j < |Run(c).value|
    ensures Run(c).value[i].profit >= Run(c).value[j].profit
  {
    RunRanksEverySeller(c);
  }

  /**
   * Under the default policy, rank `i` of `n` is paid its rate on its own
   * profit: 15% for rank 0, 10% for ranks 1 and 2, nothing for the last of
   * four or more, 5% otherwise.
   */
  lemma DefaultBonusByRank(c: Checked, i: nat)
    requires c.bonus == Strategies.BonusByProfit
    requires Run(c).Ok? && i < |Run(c).value|
    ensures Run(c).value[i].bonus == Strategies.BonusRate(i, |Run(c).value|) * Run(c).value[i].profit
  {
    var out := Run(c).value;
    var sorted := SortByProfit(Accumulated(c).value);
    RunOutputIsRankedStats(c, i, 0.0);
    assert out[i].bonus == Strategies.BonusByProfit(i, |out|, sorted[i]);
    Strategies.BonusByProfitIsRate(i, |out|, sorted[i]);
  }

  // ----- order of the purchase records -----

  /** What a stat reports apart from `products_sold`, bonus and top products. */
  function StatStanding(s: SellerStat): (string, string, real, real, nat)
  {
    (s.sellerId, s.name, s.revenue, s.profit, s.salesCount)
  }

  /** What a result reports apart from bonus and top products. */
  function Standing(r: SellerResult): (string, string, real, real, nat)
  {
    (r.sellerId, r.name, r.revenue, r.profit, r.salesCount)
  }

  /** One stat is the same, up to the key order of `products_sold`, whatever the order of the records. */
  lemma AccumulatedStatRecordOrder(c: Checked, records: seq<PurchaseRecord>, k: nat)
    requires multiset(records) == multiset(c.records)
    requires Accumulated(c).Ok? && Accumulated(c.(records := records)).Ok?
    requires k < |c.sellers|
    ensures |Accumulated(c).value| == |Accumulated(c.(records := records)).value| == |c.sellers|
    ensures var a := Accumulated(c).value[k];
      var b := Accumulated(c.(records := records)).value[k];
      && StatStanding(a) == StatStanding(b)
      && forall sku :: Lookup(a.productsSold, sku) == Lookup(b.productsSold, sku)
  {
    var d := c.(records := records);
    assert TablesOf(d) == TablesOf(c);
    AccumulatedSellers(c);
    AccumulatedSellers(d);
    var id := c.sellers[k].id;
    if m :| 0 <= m < k && c.sellers[m].id == id {
      RunDuplicateSellerStaysZero(c, m, k);
      RunDuplicateSellerStaysZero(d, m, k);
    } else {
      RunSellerTotals(c, k);
      RunSellerTotals(d, k);
      RecordsTotalsPermute(c.records, records, id, TablesOf(c), "");
      forall sku ensures RecordsQuantity(records, id, sku) == RecordsQuantity(c.records, id, sku) {
        RecordsTotalsPermute(c.records, records, id, TablesOf(c), sku);
      }
    }
  }

  /**
   * Reordering the purchase records changes neither whether the record loop
   * fails nor any stat's id, name, revenue, profit, sales count or per-SKU
   * quantity sold.
   */
  lemma AccumulatedRecordOrder(c: Checked, records: seq<PurchaseRecord>)
    requires multiset(records) == multiset(c.records)
    ensures Accumulated(c).Err? <==> Accumulated(c.(records := records)).Err?
    ensures Accumulated(c).Ok? ==>
      && |Accumulated(c).value| == |Accumulated(c.(records := records)).value|
      && forall k :: 0 <= k < |Accumulated(c).value| ==>
           && StatStanding(Accumulated(c).value[k]) == StatStanding(Accumulated(c.(records := records)).value[k])
           && forall sku :: Lookup(Accumulated(c).value[k].productsSold, sku)
                            == Lookup(Accumulated(c.(records := records)).value[k].productsSold, sku)
  {
    AccumulatedFailsRecordOrder(c, records);
    var d := c.(records := records);
    if Accumulated(c).Ok? {
      AccumulatedSellers(c);
      AccumulatedSellers(d);
      forall k | 0 <= k < |Accumulated(c).value|
        ensures StatStanding(Accumulated(c).value[k]) == StatStanding(Accumulated(d).value[k])
        ensures forall sku :: Lookup(Accumulated(c).value[k].productsSold, sku)
                              == Lookup(Accumulated(d).value[k].productsSold, sku)
      {
        AccumulatedStatRecordOrder(c, records, k);
      }
    }
  }

  lemma AccumulatedFailsRecordOrder(c: Checked, records: seq<PurchaseRecord>)
    requires multiset(records) == multiset(c.records)
    ensures Accumulated(c).Err? <==> Accumulated(c.(records := records)).Err?
  {
    var init := InitialStats(c.sellers);
    var t := TablesOf(c);
    assert TablesOf(c.(records := records)) == t;
    AccumulateFails(init, c.records, t);
    AccumulateFails(init, records, t);
    if r :| 0 <= r < |c.records| && RecordFails(init, c.records[r], t) {
      assert c.records[r] in multiset(records);
      var q :| 0 <= q < |records| && records[q] == c.records[r];
    }
    if r :| 0 <= r < |records| && RecordFails(init, records[r], t) {
      assert records[r] in multiset(c.records);
      var q :| 0 <= q < |c.records| && c.records[q] == records[r];
    }
  }

  /**
   * Reordering the purchase records changes neither whether the run fails
   * nor, rank by rank, the seller, name, revenue, profit and sales count of
   * the output. Bonus and top products are not covered here: a strategy sees
   * the whole stat, and `products_sold` key order follows the records.
   */
  lemma RunRecordOrder(c: Checked, records: seq<PurchaseRecord>)
    requires multiset(records) == multiset(c.records)
    ensures Run(c).Err? <==> Run(c.(records := records)).Err?
    ensures Run(c).Ok? ==>
      && |Run(c).value| == |Run(c.(records := records)).value|
      && forall i :: 0 <= i < |Run(c).value| ==> Standing(Run(c).value[i]) == Standing(Run(c.(records := records)).value[i])
  {
    var d := c.(records := records);
    AccumulatedRecordOrder(c, records);
    if Run(c).Ok? {
      var a := Accumulated(c).value;
      var b := Accumulated(d).value;
      SortAgrees(a, b, Profit, StatStanding);
      RunRanksEverySeller(c);
      RunRanksEverySeller(d);
      forall i | 0 <= i < |Run(c).value| ensures Standing(Run(c).value[i]) == Standing(Run(d).value[i]) {
        RunOutputIsRankedStats(c, i, 0.0);
        RunOutputIsRankedStats(d, i, 0.0);
      }
    }
  }

  /** Under the default policy the bonuses do not depend on the order of the records either. */
  lemma DefaultBonusRecordOrder(c: Checked, records: seq<PurchaseRecord>)
    requires c.bonus == Strategies.BonusByProfit
    requires multiset(records) == multiset(c.records)
    requires Run(c).Ok?
    ensures Run(c.(records := records)).Ok?
    ensures |Run(c).value| == |Run(c.(records := records)).value|
    ensures forall i :: 0 <= i < |Run(c).value| ==> Run(c).value[i].bonus == Run(c.(records := records)).value[i].bonus
  {
    var d := c.(records := records);
    RunRecordOrder(c, records);
    forall i | 0 <= i < |Run(c).value| ensures Run(c).value[i].bonus == Run(d).value[i].bonus {
      DefaultBonusByRank(c, i);
      DefaultBonusByRank(d, i);
      assert Standing(Run(c).value[i]) == Standing(Run(d).value[i]);
    }
  }
}

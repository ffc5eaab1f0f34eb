/**
 * The accumulator stage: one zeroed stat per seller, then every purchase
 * record (in order) and every line item within it (in order) folded into
 * the stat of the record's seller. The fold is given here as functions,
 * with closed-form totals and the facts the stage promises proved about
 * them; `ProcessRecord` and `AccumulateRecords` are the in-place loops,
 * proved to compute the same stats.
 */
module Accumulation {
  import opened SalesTypes
  import opened Indexing
  import opened StableSort

  /** What the accumulation loops read: both lookup tables and the revenue strategy. */
  datatype Tables = Tables(sellers: map<string, Seller>, products: map<string, Product>, revenue: RevenueFn)

  function FullName(s: Seller): string
  {
    s.firstName + " " + s.lastName
  }

  /** The stat created for a seller before any record is read. */
  function NewStat(s: Seller): SellerStat
  {
    SellerStat(s.id, FullName(s), 0.0, 0.0, 0, [], 0.0, [])
  }

  /** One fresh stat per seller, in seller order. */
  function InitialStats(sellers: seq<Seller>): (stats: seq<SellerStat>)
    ensures |stats| == |sellers|
    ensures forall k :: 0 <= k < |sellers| ==>
      && stats[k].sellerId == sellers[k].id
      && stats[k].name == sellers[k].firstName + " " + sellers[k].lastName
      && stats[k].revenue == 0.0 && stats[k].profit == 0.0 && stats[k].salesCount == 0
      && stats[k].productsSold == [] && stats[k].bonus == 0.0 && stats[k].topProducts == []
  {
    seq(|sellers|, k requires 0 <= k < |sellers| => NewStat(sellers[k]))
  }

  /** `Number(record.total_amount) || 0`. */
  function AmountOf(a: Option<real>): real
  {
    match a
    case Some(v) => v
    case None => 0.0
  }

  /** `Number(item.quantity) || 1`: a zero quantity counts as one. */
  function CoerceQuantity(q: real): (r: real)
    ensures q == 0.0 ==> r == 1.0
    ensures q != 0.0 ==> r == q
  {
    if q == 0.0 then 1.0 else q
  }

  /** The item passes the `!item.sku || quantity undefined` guard. */
  predicate Counted(item: LineItem)
  {
    item.sku != "" && item.quantity.Some?
  }

  /** The item passes the guard and names a SKU outside the catalogue: the run throws on it. */
  predicate Unknown(item: LineItem, t: Tables)
  {
    Counted(item) && item.sku !in t.products
  }

  // ----- products_sold as an insertion-ordered dictionary -----

  /** `products_sold[sku]`, read as 0 when the key is absent. */
  function Lookup(ps: seq<SkuQty>, sku: string): real
  {
    if ps == [] then 0.0
    else if ps[0].sku == sku then ps[0].quantity
    else Lookup(ps[1..], sku)
  }

  /** `products_sold[sku] = (products_sold[sku] || 0) + q`: an existing key keeps its place, a new one goes last. */
  function Bump(ps: seq<SkuQty>, sku: string, q: real): seq<SkuQty>
  {
    if ps == [] then [SkuQty(sku, q)]
    else if ps[0].sku == sku then [SkuQty(sku, ps[0].quantity + q)] + ps[1..]
    else [ps[0]] + Bump(ps[1..], sku, q)
  }

  /** Bumping adds `q` under `sku` and leaves every other key's quantity alone. */
  lemma {:induction false} BumpLookup(ps: seq<SkuQty>, sku: string, q: real, other: string)
    ensures Lookup(Bump(ps, sku, q), other) == Lookup(ps, other) + (if other == sku then q else 0.0)
  {
    if ps != [] && ps[0].sku != sku {
      assert ([ps[0]] + Bump(ps[1..], sku, q))[1..] == Bump(ps[1..], sku, q);
      BumpLookup(ps[1..], sku, q, other);
    } else if ps != [] {
      assert ([SkuQty(sku, ps[0].quantity + q)] + ps[1..])[1..] == ps[1..];
    }
  }

  /** Bumping keeps the key order; a key seen for the first time is appended. */
  lemma {:induction false} BumpKeys(ps: seq<SkuQty>, sku: string, q: real)
    ensures Map(Bump(ps, sku, q), SoldSku) == if sku in Map(ps, SoldSku) then Map(ps, SoldSku) else Map(ps, SoldSku) + [sku]
  {
    if ps != [] {
      assert Map(ps, SoldSku) == [ps[0].sku] + Map(ps[1..], SoldSku);
      if ps[0].sku == sku {
        assert ([SkuQty(sku, ps[0].quantity + q)] + ps[1..])[1..] == ps[1..];
      } else {
        assert ([ps[0]] + Bump(ps[1..], sku, q))[1..] == Bump(ps[1..], sku, q);
        BumpKeys(ps[1..], sku, q);
        assert sku in Map(ps, SoldSku) <==> sku in Map(ps[1..], SoldSku);
      }
    }
  }

  /** `products_sold` has each key once, and only catalogue SKUs. */
  ghost predicate SoldWellFormed(ps: seq<SkuQty>, products: map<string, Product>)
  {
    && (forall i, j :: 0 <= i < j < |ps| ==> ps[i].sku != ps[j].sku)
    && (forall i :: 0 <= i < |ps| ==> ps[i].sku in products)
  }

  lemma BumpWellFormed(ps: seq<SkuQty>, sku: string, q: real, products: map<string, Product>)
    requires SoldWellFormed(ps, products) && sku in products
    ensures SoldWellFormed(Bump(ps, sku, q), products)
  {
    BumpKeys(ps, sku, q);
    var r := Bump(ps, sku, q);
    var ks := Map(r, SoldSku);
    forall i | 0 <= i < |r| ensures r[i].sku in products {
      assert ks[i] == r[i].sku;
      if i < |ps| {
        assert ks[i] == Map(ps, SoldSku)[i];
      }
    }
    forall i, j | 0 <= i < j < |r| ensures r[i].sku != r[j].sku {
      assert ks[i] == r[i].sku && ks[j] == r[j].sku;
      if j < |ps| {
        assert ks[i] == Map(ps, SoldSku)[i] && ks[j] == Map(ps, SoldSku)[j];
      } else {
        assert sku !in Map(ps, SoldSku) && ks[j] == sku;
        assert ks[i] == Map(ps, SoldSku)[i];
      }
    }
  }

  // ----- line items -----

  /** The body of the item loop for one item of the record. */
  function ApplyItem(stat: SellerStat, item: LineItem, t: Tables): Result<SellerStat, Error>
  {
    if !Counted(item) then Ok(stat)
    else
      var quantity := CoerceQuantity(item.quantity.value);
      if item.sku !in t.products then Err(UnknownProduct(item.sku))
      else
        var cost := t.products[item.sku].purchasePrice * quantity;
        Ok(stat.(productsSold := Bump(stat.productsSold, item.sku, quantity),
                 profit := stat.profit + (t.revenue(item) - cost)))
  }

  /** The item loop over a prefix of the items; it stops at the first failing item. */
  function ApplyItems(stat: SellerStat, items: seq<LineItem>, t: Tables): Result<SellerStat, Error>
  {
    if items == [] then Ok(stat)
    else
      match ApplyItems(stat, items[..|items| - 1], t)
      case Err(e) => Err(e)
      case Ok(s) => ApplyItem(s, items[|items| - 1], t)
  }

  /** The profit one item contributes: strategy revenue less purchase price times coerced quantity. */
  function ItemProfit(item: LineItem, t: Tables): real
  {
    if Unknown(item, t) || !Counted(item) then 0.0
    else t.revenue(item) - t.products[item.sku].purchasePrice * CoerceQuantity(item.quantity.value)
  }

  function ItemsProfit(items: seq<LineItem>, t: Tables): real
  {
    if items == [] then 0.0
    else ItemsProfit(items[..|items| - 1], t) + ItemProfit(items[|items| - 1], t)
  }

  /** The units of `sku` the items add to `products_sold`. */
  function ItemsQuantity(items: seq<LineItem>, sku: string): real
  {
    if items == [] then 0.0
    else
      var item := items[|items| - 1];
      ItemsQuantity(items[..|items| - 1], sku)
      + (if Counted(item) && item.sku == sku then CoerceQuantity(item.quantity.value) else 0.0)
  }

  /** Everything but `profit` and `products_sold`. */
  predicate SameTotals(a: SellerStat, b: SellerStat)
  {
    && a.sellerId == b.sellerId && a.name == b.name
    && a.revenue == b.revenue && a.salesCount == b.salesCount
    && a.bonus == b.bonus && a.topProducts == b.topProducts
  }

  /** An item the guard rejects changes nothing. */
  lemma ApplyItemSkipped(stat: SellerStat, item: LineItem, t: Tables)
    requires item.sku == "" || item.quantity.None?
    ensures ApplyItem(stat, item, t) == Ok(stat)
  {
  }

  /**
   * A counted item with a catalogue SKU adds its coerced quantity to
   * `products_sold[sku]` and `revenue(item) - purchase_price * quantity`
   * to `profit`; a counted item with an unknown SKU fails the run.
   */
  lemma ApplyItemCounted(stat: SellerStat, item: LineItem, t: Tables)
    requires Counted(item)
    ensures item.sku !in t.products <==> ApplyItem(stat, item, t) == Err(UnknownProduct(item.sku))
    ensures item.sku in t.products ==>
      var q := if item.quantity.value == 0.0 then 1.0 else item.quantity.value;
      var r := ApplyItem(stat, item, t);
      && r.Ok?
      && SameTotals(r.value, stat)
      && r.value.profit == stat.profit + t.revenue(item) - t.products[item.sku].purchasePrice * q
      && Lookup(r.value.productsSold, item.sku) == Lookup(stat.productsSold, item.sku) + q
      && (forall other :: other != item.sku ==>
            Lookup(r.value.productsSold, other) == Lookup(stat.productsSold, other))
  {
    if item.sku in t.products {
      var q := CoerceQuantity(item.quantity.value);
      BumpLookup(stat.productsSold, item.sku, q, item.sku);
      forall other | other != item.sku
        ensures Lookup(Bump(stat.productsSold, item.sku, q), other) == Lookup(stat.productsSold, other)
      {
        BumpLookup(stat.productsSold, item.sku, q, other);
      }
    }
  }

  /** Once the item loop has failed on a prefix, it fails with the same error on the whole list. */
  lemma {:induction false} ApplyItemsErrExtends(stat: SellerStat, items: seq<LineItem>, t: Tables, n: nat)
    requires n <= |items| && ApplyItems(stat, items[..n], t).Err?
    ensures ApplyItems(stat, items, t) == ApplyItems(stat, items[..n], t)
  {
    if n == |items| {
      assert items[..n] == items;
    } else {
      var init := items[..|items| - 1];
      assert init[..n] == items[..n];
      ApplyItemsErrExtends(stat, init, t, n);
    }
  }

  /** The item loop fails exactly when some item is counted but unknown, with the first such item's SKU. */
  lemma {:induction false} ApplyItemsFails(stat: SellerStat, items: seq<LineItem>, t: Tables)
    ensures ApplyItems(stat, items, t).Err? <==> exists i :: 0 <= i < |items| && Unknown(items[i], t)
    ensures ApplyItems(stat, items, t).Err? ==>
      exists i :: 0 <= i < |items| && Unknown(items[i], t)
        && (forall j :: 0 <= j < i ==> !Unknown(items[j], t))
        && ApplyItems(stat, items, t).error == UnknownProduct(items[i].sku)
  {
    if items != [] {
      var init := items[..|items| - 1];
      var last := items[|items| - 1];
      ApplyItemsFails(stat, init, t);
      forall i | 0 <= i < |init| ensures init[i] == items[i] { }
      match ApplyItems(stat, init, t)
      case Err(e) =>
        var i :| 0 <= i < |init| && Unknown(init[i], t)
          && (forall j :: 0 <= j < i ==> !Unknown(init[j], t))
          && e == UnknownProduct(init[i].sku);
        assert Unknown(items[i], t);
      case Ok(s) =>
        assert forall i :: 0 <= i < |init| ==> !Unknown(items[i], t);
        if Unknown(last, t) {
          assert ApplyItems(stat, items, t).error == UnknownProduct(items[|items| - 1].sku);
        }
    }
  }

  /**
   * When the item loop succeeds it has added `ItemsProfit` to `profit` and
   * `ItemsQuantity` to every key of `products_sold`, and touched nothing else.
   */
  lemma {:induction false} ApplyItemsTotals(stat: SellerStat, items: seq<LineItem>, t: Tables)
    requires ApplyItems(stat, items, t).Ok?
    ensures SameTotals(ApplyItems(stat, items, t).value, stat)
    ensures ApplyItems(stat, items, t).value.profit == stat.profit + ItemsProfit(items, t)
    ensures forall sku :: Lookup(ApplyItems(stat, items, t).value.productsSold, sku)
                          == Lookup(stat.productsSold, sku) + ItemsQuantity(items, sku)
  {
    if items != [] {
      var init := items[..|items| - 1];
      var last := items[|items| - 1];
      ApplyItemsTotals(stat, init, t);
      var s := ApplyItems(stat, init, t).value;
      var r := ApplyItem(s, last, t).value;
      if Counted(last) {
        ApplyItemCounted(s, last, t);
      }
      forall sku ensures Lookup(r.productsSold, sku) == Lookup(stat.productsSold, sku) + ItemsQuantity(items, sku) {
        assert Lookup(s.productsSold, sku) == Lookup(stat.productsSold, sku) + ItemsQuantity(init, sku);
      }
    }
  }

  /** The item loop keeps `products_sold` free of duplicate keys and unknown SKUs. */
  lemma {:induction false} ApplyItemsWellFormed(stat: SellerStat, items: seq<LineItem>, t: Tables)
    requires SoldWellFormed(stat.productsSold, t.products)
    requires ApplyItems(stat, items, t).Ok?
    ensures SoldWellFormed(ApplyItems(stat, items, t).value.productsSold, t.products)
  {
    if items != [] {
      var init := items[..|items| - 1];
      var last := items[|items| - 1];
      ApplyItemsWellFormed(stat, init, t);
      var s := ApplyItems(stat, init, t).value;
      if Counted(last) {
        BumpWellFormed(s.productsSold, last.sku, CoerceQuantity(last.quantity.value), t.products);
      }
    }
  }

  /**
   * The keys of `products_sold` after the item loop: the SKU of each counted
   * item not seen before is appended, left to right.
   */
  function SeenItems(ks: seq<string>, items: seq<LineItem>): seq<string>
  {
    if items == [] then ks
    else
      var prev := SeenItems(ks, items[..|items| - 1]);
      var item := items[|items| - 1];
      if Counted(item) && item.sku !in prev then prev + [item.sku] else prev
  }

  /** The item loop leaves `products_sold` with the keys `SeenItems` lists, in that order. */
  lemma {:induction false} ItemsKeys(stat: SellerStat, items: seq<LineItem>, t: Tables)
    requires ApplyItems(stat, items, t).Ok?
    ensures Map(ApplyItems(stat, items, t).value.productsSold, SoldSku) == SeenItems(Map(stat.productsSold, SoldSku), items)
  {
    if items != [] {
      var init := items[..|items| - 1];
      var last := items[|items| - 1];
      ItemsKeys(stat, init, t);
      var s := ApplyItems(stat, init, t).value;
      if Counted(last) {
        BumpKeys(s.productsSold, last.sku, CoerceQuantity(last.quantity.value));
      }
    }
  }

  // ----- purchase records -----

  /** `sellerStats.find(s => s.seller_id === id)`: the index of the first stat with that id. */
  function FindStat(stats: seq<SellerStat>, id: string): (r: Option<nat>)
    ensures r.Some? ==> r.value < |stats| && stats[r.value].sellerId == id
                        && forall k :: 0 <= k < r.value ==> stats[k].sellerId != id
    ensures r.None? ==> forall k :: 0 <= k < |stats| ==> stats[k].sellerId != id
  {
    if stats == [] then None
    else if stats[0].sellerId == id then Some(0)
    else
      match FindStat(stats[1..], id)
      case None => None
      case Some(k) => Some(k + 1)
  }

  /**
   * The body of the record loop: skip a record whose seller is not in the
   * seller index, otherwise add `total_amount` and one sale to the first
   * stat with that id and run the item loop on it.
   */
  function ApplyRecord(stats: seq<SellerStat>, rec: PurchaseRecord, t: Tables): Result<seq<SellerStat>, Error>
  {
    if rec.sellerId !in t.sellers then Ok(stats)
    else
      match FindStat(stats, rec.sellerId)
      case None => Ok(stats)
      case Some(j) =>
        var begun := stats[j].(revenue := stats[j].revenue + AmountOf(rec.totalAmount),
                                salesCount := stats[j].salesCount + 1);
        (match ApplyItems(begun, rec.items, t)
         case Err(e) => Err(e)
         case Ok(s) => Ok(stats[j := s]))
  }

  /** The record loop over a prefix of the records; it stops at the first failure. */
  function Accumulate(stats: seq<SellerStat>, records: seq<PurchaseRecord>, t: Tables): Result<seq<SellerStat>, Error>
  {
    if records == [] then Ok(stats)
    else
      match Accumulate(stats, records[..|records| - 1], t)
      case Err(e) => Err(e)
      case Ok(s) => ApplyRecord(s, records[|records| - 1], t)
  }

  /** The sum of `total_amount` over the records of seller `id`. */
  function RecordsRevenue(records: seq<PurchaseRecord>, id: string): real
  {
    if records == [] then 0.0
    else
      var rec := records[|records| - 1];
      RecordsRevenue(records[..|records| - 1], id) + (if rec.sellerId == id then AmountOf(rec.totalAmount) else 0.0)
  }

  /** The number of records of seller `id`. */
  function RecordsCount(records: seq<PurchaseRecord>, id: string): nat
  {
    if records == [] then 0
    else RecordsCount(records[..|records| - 1], id) + (if records[|records| - 1].sellerId == id then 1 else 0)
  }

  /** The profit of the items of every record of seller `id`. */
  function RecordsProfit(records: seq<PurchaseRecord>, id: string, t: Tables): real
  {
    if records == [] then 0.0
    else
      var rec := records[|records| - 1];
      RecordsProfit(records[..|records| - 1], id, t) + (if rec.sellerId == id then ItemsProfit(rec.items, t) else 0.0)
  }

  /** The units of `sku` in the items of every record of seller `id`. */
  function RecordsQuantity(records: seq<PurchaseRecord>, id: string, sku: string): real
  {
    if records == [] then 0.0
    else
      var rec := records[|records| - 1];
      RecordsQuantity(records[..|records| - 1], id, sku) + (if rec.sellerId == id then ItemsQuantity(rec.items, sku) else 0.0)
  }

  /** Same length, and every position keeps its seller id and name. */
  ghost predicate SameSellers(a: seq<SellerStat>, b: seq<SellerStat>)
  {
    |a| == |b| && forall k :: 0 <= k < |a| ==> a[k].sellerId == b[k].sellerId && a[k].name == b[k].name
  }

  ghost predicate Owns(stats: seq<SellerStat>, id: string)
  {
    exists k :: 0 <= k < |stats| && stats[k].sellerId == id
  }

  /** The record is matched to a stat and one of its items fails the run. */
  ghost predicate RecordFails(stats: seq<SellerStat>, rec: PurchaseRecord, t: Tables)
  {
    && rec.sellerId in t.sellers
    && Owns(stats, rec.sellerId)
    && exists i :: 0 <= i < |rec.items| && Unknown(rec.items[i], t)
  }

  /** The stat position a record is accumulated into, if any. */
  function Target(stats: seq<SellerStat>, rec: PurchaseRecord, t: Tables): Option<nat>
  {
    if rec.sellerId in t.sellers then FindStat(stats, rec.sellerId) else None
  }

  /**
   * What one record does: only the target stat changes; it gains the
   * record's amount, one sale, and the item loop's profit and quantities.
   */
  lemma ApplyRecordEffect(stats: seq<SellerStat>, rec: PurchaseRecord, t: Tables)
    requires ApplyRecord(stats, rec, t).Ok?
    ensures SameSellers(ApplyRecord(stats, rec, t).value, stats)
    ensures forall k :: 0 <= k < |stats| && Target(stats, rec, t) != Some(k) ==>
              ApplyRecord(stats, rec, t).value[k] == stats[k]
    ensures Target(stats, rec, t).Some? ==>
      var j := Target(stats, rec, t).value;
      var r := ApplyRecord(stats, rec, t).value[j];
      && r.revenue == stats[j].revenue + AmountOf(rec.totalAmount)
      && r.salesCount == stats[j].salesCount + 1
      && r.profit == stats[j].profit + ItemsProfit(rec.items, t)
      && r.bonus == stats[j].bonus && r.topProducts == stats[j].topProducts
      && forall sku :: Lookup(r.productsSold, sku) == Lookup(stats[j].productsSold, sku) + ItemsQuantity(rec.items, sku)
  {
    if Target(stats, rec, t).Some? {
      var j := Target(stats, rec, t).value;
      var begun := stats[j].(revenue := stats[j].revenue + AmountOf(rec.totalAmount),
                              salesCount := stats[j].salesCount + 1);
      ApplyItemsTotals(begun, rec.items, t);
    }
  }

  /** A record whose seller id is not in the seller index leaves every stat unchanged. */
  lemma ApplyRecordUnknownSeller(stats: seq<SellerStat>, rec: PurchaseRecord, t: Tables)
    requires rec.sellerId !in t.sellers
    ensures ApplyRecord(stats, rec, t) == Ok(stats)
  {
  }

  /**
   * A record of a known seller adds `total_amount` to the first stat with
   * that id and exactly one sale, whatever its items; no other stat changes.
   */
  lemma ApplyRecordKnownSeller(stats: seq<SellerStat>, rec: PurchaseRecord, t: Tables, j: nat)
    requires rec.sellerId in t.sellers
    requires j < |stats| && stats[j].sellerId == rec.sellerId
    requires forall k :: 0 <= k < j ==> stats[k].sellerId != rec.sellerId
    requires ApplyRecord(stats, rec, t).Ok?
    ensures var r := ApplyRecord(stats, rec, t).value;
      && |r| == |stats|
      && r[j].sellerId == stats[j].sellerId
      && r[j].revenue == stats[j].revenue + AmountOf(rec.totalAmount)
      && r[j].salesCount == stats[j].salesCount + 1
      && forall k :: 0 <= k < |stats| && k != j ==> r[k] == stats[k]
  {
    ApplyRecordEffect(stats, rec, t);
  }

  /** A record fails the run exactly when it is matched and holds a counted item with an unknown SKU. */
  lemma ApplyRecordFails(stats: seq<SellerStat>, rec: PurchaseRecord, t: Tables)
    ensures ApplyRecord(stats, rec, t).Err? <==> RecordFails(stats, rec, t)
  {
    if rec.sellerId in t.sellers && FindStat(stats, rec.sellerId).Some? {
      var j := FindStat(stats, rec.sellerId).value;
      var begun := stats[j].(revenue := stats[j].revenue + AmountOf(rec.totalAmount),
                              salesCount := stats[j].salesCount + 1);
      ApplyItemsFails(begun, rec.items, t);
    }
  }

  lemma {:induction false} AccumulateErrExtends(stats: seq<SellerStat>, records: seq<PurchaseRecord>, t: Tables, n: nat)
    requires n <= |records| && Accumulate(stats, records[..n], t).Err?
    ensures Accumulate(stats, records, t) == Accumulate(stats, records[..n], t)
  {
    if n == |records| {
      assert records[..n] == records;
    } else {
      var init := records[..|records| - 1];
      assert init[..n] == records[..n];
      AccumulateErrExtends(stats, init, t, n);
    }
  }

  /** The record loop keeps one stat per position, with its seller id and name. */
  lemma {:induction false} AccumulateSameSellers(stats: seq<SellerStat>, records: seq<PurchaseRecord>, t: Tables)
    requires Accumulate(stats, records, t).Ok?
    ensures SameSellers(Accumulate(stats, records, t).value, stats)
  {
    if records != [] {
      AccumulateSameSellers(stats, records[..|records| - 1], t);
      ApplyRecordEffect(Accumulate(stats, records[..|records| - 1], t).value, records[|records| - 1], t);
    }
  }

  lemma SameSellersOwns(a: seq<SellerStat>, b: seq<SellerStat>, id: string)
    requires SameSellers(a, b)
    ensures Owns(a, id) <==> Owns(b, id)
  {
    if Owns(a, id) {
      var k :| 0 <= k < |a| && a[k].sellerId == id;
      assert b[k].sellerId == id;
    }
    if Owns(b, id) {
      var k :| 0 <= k < |b| && b[k].sellerId == id;
      assert a[k].sellerId == id;
    }
  }

  /** The run fails in the record loop exactly when some record fails. */
  lemma {:induction false} AccumulateFails(stats: seq<SellerStat>, records: seq<PurchaseRecord>, t: Tables)
    ensures Accumulate(stats, records, t).Err? <==>
            exists r :: 0 <= r < |records| && RecordFails(stats, records[r], t)
  {
    if records != [] {
      var init := records[..|records| - 1];
      var last := records[|records| - 1];
      AccumulateFails(stats, init, t);
      forall r | 0 <= r < |init| ensures init[r] == records[r] { }
      match Accumulate(stats, init, t)
      case Err(e) =>
        var r :| 0 <= r < |init| && RecordFails(stats, init[r], t);
        assert RecordFails(stats, records[r], t);
      case Ok(s) =>
        AccumulateSameSellers(stats, init, t);
        SameSellersOwns(s, stats, last.sellerId);
        ApplyRecordFails(s, last, t);
        assert RecordFails(s, last, t) <==> RecordFails(stats, last, t);
    }
  }

  /**
   * Closed form of the record loop for the stat that first carries a known
   * seller id: it ends with that id's summed amounts, record count, item
   * profit and item quantities added to its starting values.
   */
  lemma {:induction false} AccumulateFirstOwner(stats: seq<SellerStat>, records: seq<PurchaseRecord>, t: Tables, k: nat)
    requires Accumulate(stats, records, t).Ok?
    requires k < |stats| && stats[k].sellerId in t.sellers
    requires forall m :: 0 <= m < k ==> stats[m].sellerId != stats[k].sellerId
    ensures var id := stats[k].sellerId;
      var r := Accumulate(stats, records, t).value;
      && |r| == |stats|
      && r[k].revenue == stats[k].revenue + RecordsRevenue(records, id)
      && r[k].salesCount == stats[k].salesCount + RecordsCount(records, id)
      && r[k].profit == stats[k].profit + RecordsProfit(records, id, t)
      && r[k].bonus == stats[k].bonus && r[k].topProducts == stats[k].topProducts
      && forall sku :: Lookup(r[k].productsSold, sku) == Lookup(stats[k].productsSold, sku) + RecordsQuantity(records, id, sku)
  {
    AccumulateSameSellers(stats, records, t);
    if records != [] {
      var id := stats[k].sellerId;
      var init := records[..|records| - 1];
      var last := records[|records| - 1];
      AccumulateFirstOwner(stats, init, t, k);
      AccumulateSameSellers(stats, init, t);
      var s := Accumulate(stats, init, t).value;
      ApplyRecordEffect(s, last, t);
      var r := ApplyRecord(s, last, t).value;
      if last.sellerId == id {
        assert Target(s, last, t) == Some(k);
      } else {
        assert Target(s, last, t) != Some(k);
        assert r[k] == s[k];
      }
      forall sku ensures Lookup(r[k].productsSold, sku) == Lookup(stats[k].productsSold, sku) + RecordsQuantity(records, id, sku) {
        assert Lookup(s[k].productsSold, sku) == Lookup(stats[k].productsSold, sku) + RecordsQuantity(init, id, sku);
      }
    }
  }

  /** The keys of seller `id`'s `products_sold` after the record loop: `SeenItems` over its records in order. */
  function SeenRecords(ks: seq<string>, records: seq<PurchaseRecord>, id: string): seq<string>
  {
    if records == [] then ks
    else
      var prev := SeenRecords(ks, records[..|records| - 1], id);
      var rec := records[|records| - 1];
      if rec.sellerId == id then SeenItems(prev, rec.items) else prev
  }

  /**
   * The stat that first carries a known seller id ends with the keys of its
   * `products_sold` in order of first appearance across that id's records.
   */
  lemma {:induction false} RecordsKeys(stats: seq<SellerStat>, records: seq<PurchaseRecord>, t: Tables, k: nat)
    requires Accumulate(stats, records, t).Ok?
    requires k < |stats| && stats[k].sellerId in t.sellers
    requires forall m :: 0 <= m < k ==> stats[m].sellerId != stats[k].sellerId
    ensures |Accumulate(stats, records, t).value| == |stats|
    ensures Map(Accumulate(stats, records, t).value[k].productsSold, SoldSku)
            == SeenRecords(Map(stats[k].productsSold, SoldSku), records, stats[k].sellerId)
  {
    AccumulateSameSellers(stats, records, t);
    if records != [] {
      var id := stats[k].sellerId;
      var init := records[..|records| - 1];
      var last := records[|records| - 1];
      RecordsKeys(stats, init, t, k);
      AccumulateSameSellers(stats, init, t);
      var s := Accumulate(stats, init, t).value;
      ApplyRecordEffect(s, last, t);
      if last.sellerId == id {
        assert FindStat(s, id) == Some(k);
        var begun := s[k].(revenue := s[k].revenue + AmountOf(last.totalAmount),
                            salesCount := s[k].salesCount + 1);
        ItemsKeys(begun, last.items, t);
      } else {
        assert Target(s, last, t) != Some(k);
      }
    }
  }

  /** A stat whose seller id already belongs to an earlier stat is never accumulated into. */
  lemma {:induction false} AccumulateLaterDuplicate(stats: seq<SellerStat>, records: seq<PurchaseRecord>, t: Tables, m: nat, k: nat)
    requires Accumulate(stats, records, t).Ok?
    requires m < k < |stats| && stats[m].sellerId == stats[k].sellerId
    ensures |Accumulate(stats, records, t).value| == |stats|
    ensures Accumulate(stats, records, t).value[k] == stats[k]
  {
    AccumulateSameSellers(stats, records, t);
    if records != [] {
      var init := records[..|records| - 1];
      AccumulateLaterDuplicate(stats, init, t, m, k);
      AccumulateSameSellers(stats, init, t);
      var s := Accumulate(stats, init, t).value;
      ApplyRecordEffect(s, records[|records| - 1], t);
      assert s[m].sellerId == s[k].sellerId;
      assert Target(s, records[|records| - 1], t) != Some(k);
    }
  }

  /** Every stat's `products_sold` stays free of duplicate keys and unknown SKUs. */
  lemma {:induction false} AccumulateWellFormed(stats: seq<SellerStat>, records: seq<PurchaseRecord>, t: Tables)
    requires forall k :: 0 <= k < |stats| ==> SoldWellFormed(stats[k].productsSold, t.products)
    requires Accumulate(stats, records, t).Ok?
    ensures var r := Accumulate(stats, records, t).value;
      forall k :: 0 <= k < |r| ==> SoldWellFormed(r[k].productsSold, t.products)
  {
    if records != [] {
      var init := records[..|records| - 1];
      var last := records[|records| - 1];
      AccumulateWellFormed(stats, init, t);
      var s := Accumulate(stats, init, t).value;
      ApplyRecordEffect(s, last, t);
      if Target(s, last, t).Some? {
        var j := Target(s, last, t).value;
        var begun := s[j].(revenue := s[j].revenue + AmountOf(last.totalAmount),
                            salesCount := s[j].salesCount + 1);
        ApplyItemsWellFormed(begun, last.items, t);
      }
    }
  }

  // ----- independence of record order -----

  /** The sum of `f` over a list, left to right. */
  function Total<T>(s: seq<T>, f: T -> real): real
  {
    if s == [] then 0.0 else Total(s[..|s| - 1], f) + f(s[|s| - 1])
  }

  /** Taking out the element at `k` takes its term out of the sum. */
  lemma {:induction false} TotalRemove<T>(s: seq<T>, f: T -> real, k: nat)
    requires k < |s|
    ensures Total(s, f) == Total(s[..k] + s[k + 1..], f) + f(s[k])
  {
    var init := s[..|s| - 1];
    if k == |s| - 1 {
      assert s[..k] + s[k + 1..] == init;
    } else {
      TotalRemove(init, f, k);
      var rest := init[..k] + init[k + 1..];
      assert s[..k] + s[k + 1..] == rest + [s[|s| - 1]];
      assert (rest + [s[|s| - 1]])[..|rest|] == rest;
    }
  }

  /** A sum does not depend on the order of its terms. */
  lemma {:induction false} TotalPermutes<T>(s: seq<T>, r: seq<T>, f: T -> real)
    requires multiset(s) == multiset(r)
    ensures Total(s, f) == Total(r, f)
  {
    if s == [] {
      assert |r| == |multiset(r)| == 0;
    } else {
      var x := s[|s| - 1];
      var init := s[..|s| - 1];
      assert s == init + [x];
      assert x in multiset(r);
      var k :| 0 <= k < |r| && r[k] == x;
      var rest := r[..k] + r[k + 1..];
      assert r == r[..k] + [x] + r[k + 1..];
      assert multiset(r) == multiset(r[..k]) + multiset{x} + multiset(r[k + 1..]);
      assert multiset(rest) == multiset(r[..k]) + multiset(r[k + 1..]);
      assert multiset(s) == multiset(init) + multiset{x};
      assert multiset(init) == multiset(s) - multiset{x};
      assert multiset(rest) == multiset(r) - multiset{x};
      TotalPermutes(init, rest, f);
      TotalRemove(r, f, k);
    }
  }

  function RevenueTerm(id: string): PurchaseRecord -> real
  {
    (rec: PurchaseRecord) => if rec.sellerId == id then AmountOf(rec.totalAmount) else 0.0
  }

  function CountTerm(id: string): PurchaseRecord -> real
  {
    (rec: PurchaseRecord) => if rec.sellerId == id then 1.0 else 0.0
  }

  function ProfitTerm(id: string, t: Tables): PurchaseRecord -> real
  {
    (rec: PurchaseRecord) => if rec.sellerId == id then ItemsProfit(rec.items, t) else 0.0
  }

  function QuantityTerm(id: string, sku: string): PurchaseRecord -> real
  {
    (rec: PurchaseRecord) => if rec.sellerId == id then ItemsQuantity(rec.items, sku) else 0.0
  }

  /** Each per-seller total is a sum with one term per record. */
  lemma {:induction false} RecordsTotalsAreSums(records: seq<PurchaseRecord>, id: string, t: Tables, sku: string)
    ensures RecordsRevenue(records, id) == Total(records, RevenueTerm(id))
    ensures RecordsCount(records, id) as real == Total(records, CountTerm(id))
    ensures RecordsProfit(records, id, t) == Total(records, ProfitTerm(id, t))
    ensures RecordsQuantity(records, id, sku) == Total(records, QuantityTerm(id, sku))
  {
    if records != [] {
      RecordsTotalsAreSums(records[..|records| - 1], id, t, sku);
    }
  }

  /** Reordering the records leaves every seller's totals unchanged. */
  lemma RecordsTotalsPermute(records: seq<PurchaseRecord>, other: seq<PurchaseRecord>, id: string, t: Tables, sku: string)
    requires multiset(other) == multiset(records)
    ensures RecordsRevenue(other, id) == RecordsRevenue(records, id)
    ensures RecordsCount(other, id) == RecordsCount(records, id)
    ensures RecordsProfit(other, id, t) == RecordsProfit(records, id, t)
    ensures RecordsQuantity(other, id, sku) == RecordsQuantity(records, id, sku)
  {
    RecordsTotalsAreSums(records, id, t, sku);
    RecordsTotalsAreSums(other, id, t, sku);
    TotalPermutes(records, other, RevenueTerm(id));
    TotalPermutes(records, other, CountTerm(id));
    TotalPermutes(records, other, ProfitTerm(id, t));
    TotalPermutes(records, other, QuantityTerm(id, sku));
  }

  // ----- the loops, updating the stats in place -----

  /**
   * One call of the `record.items.forEach` callback on the stat at
   * position `j`, updated in place. `cost` is the item's purchase cost
   * (0 for a skipped item), which the caller adds to `totalCost`; `itemPrice`
   * is computed as in the source and never read.
   */
  method ProcessItem(stats: array<SellerStat>, j: nat, item: LineItem, t: Tables) returns (failure: Option<Error>, cost: real)
    requires j < stats.Length
    modifies stats
    ensures failure.None? ==> ApplyItem(old(stats[j]), item, t) == Ok(stats[j]) && stats[..] == old(stats[..])[j := stats[j]]
    ensures failure.Some? ==> ApplyItem(old(stats[j]), item, t) == Err(failure.value)
  {
    failure, cost := None, 0.0;
    if item.sku == "" || item.quantity.None? {
      return;
    }
    var quantity := CoerceQuantity(item.quantity.value);
    if item.sku !in t.products {
      failure := Some(UnknownProduct(item.sku));
      return;
    }
    var product := t.products[item.sku];
    cost := product.purchasePrice * quantity;
    ghost var stat := stats[j];
    assert ApplyItem(stat, item, t).Ok?;
    assert ApplyItem(stat, item, t).value.profit == stat.profit + (t.revenue(item) - cost);
    assert ApplyItem(stat, item, t).value.productsSold == Bump(stat.productsSold, item.sku, quantity);
    stats[j] := stats[j].(productsSold := Bump(stats[j].productsSold, item.sku, quantity));
    var itemPrice := product.price * quantity;
    var revenue := t.revenue(item);
    var profit := revenue - cost;
    stats[j] := stats[j].(profit := stats[j].profit + profit);
  }

  /**
   * One iteration of `purchase_records.forEach`: the matched stat is
   * updated in place, first by the record's amount and sale, then by each
   * of its items. `totalCost` and `totalRevenue` are computed as in the
   * source and never read, so they cannot affect the stats.
   */
  method ProcessRecord(stats: array<SellerStat>, rec: PurchaseRecord, t: Tables) returns (failure: Option<Error>)
    modifies stats
    ensures failure.None? ==> ApplyRecord(old(stats[..]), rec, t) == Ok(stats[..])
    ensures failure.Some? ==> ApplyRecord(old(stats[..]), rec, t) == Err(failure.value)
  {
    failure := None;
    if rec.sellerId !in t.sellers {
      return;
    }
    var found := FindStat(stats[..], rec.sellerId);
    if found.None? {
      return;
    }
    var j := found.value;
    ghost var before := stats[..];
    stats[j] := stats[j].(revenue := stats[j].revenue + AmountOf(rec.totalAmount),
                          salesCount := stats[j].salesCount + 1);
    ghost var begun := stats[j];
    var totalCost := 0.0;
    var totalRevenue := AmountOf(rec.totalAmount);
    var k := 0;
    while k < |rec.items|
      invariant 0 <= k <= |rec.items|
      invariant stats[..] == before[j := stats[j]]
      invariant ApplyItems(begun, rec.items[..k], t) == Ok(stats[j])
    {
      assert rec.items[..k + 1][..k] == rec.items[..k];
      assert ApplyItems(begun, rec.items[..k + 1], t) == ApplyItem(stats[j], rec.items[k], t);
      var itemFailure, cost := ProcessItem(stats, j, rec.items[k], t);
      if itemFailure.Some? {
        failure := itemFailure;
        ApplyItemsErrExtends(begun, rec.items, t, k + 1);
        return;
      }
      totalCost := totalCost + cost;
      k := k + 1;
    }
    assert rec.items[..k] == rec.items;
  }

  /** `purchase_records.forEach(...)`: every record in order, stopping at the first failure. */
  method AccumulateRecords(stats: array<SellerStat>, records: seq<PurchaseRecord>, t: Tables) returns (failure: Option<Error>)
    modifies stats
    ensures failure.None? ==> Accumulate(old(stats[..]), records, t) == Ok(stats[..])
    ensures failure.Some? ==> Accumulate(old(stats[..]), records, t) == Err(failure.value)
  {
    var i := 0;
    while i < |records|
      invariant 0 <= i <= |records|
      invariant Accumulate(old(stats[..]), records[..i], t) == Ok(stats[..])
    {
      assert records[..i + 1][..i] == records[..i];
      failure := ProcessRecord(stats, records[i], t);
      if failure.Some? {
        AccumulateErrExtends(old(stats[..]), records, t, i + 1);
        return;
      }
      i := i + 1;
    }
    assert records[..i] == records;
    failure := None;
  }
}

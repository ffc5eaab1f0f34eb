/**
 * A small worked run of the whole pipeline with the default strategies,
 * written out as values: one seller, one product, a record with a counted
 * and a skipped item, and a record of an unknown seller.
 */
module Scenarios {
  import opened SalesTypes
  import opened Accumulation
  import opened StableSort
  import opened Ranking
  import opened Pipeline
  import Strategies

  function DefaultOptions(): Options
  {
    Options(Some(Strategies.SimpleRevenue), Some(Strategies.BonusByProfit))
  }

  function Ann(): Seller { Seller("s1", "Ann", "Lee") }

  function Widget(): Product { Product("p1", 100.0, 60.0) }

  function TwoUnits(): LineItem { LineItem("p1", Some(2.0), 100.0, 0.0) }

  function NoQuantity(): LineItem { LineItem("p1", None, 100.0, 0.0) }

  function Sale(): PurchaseRecord { PurchaseRecord("s1", Some(200.0), [TwoUnits(), NoQuantity()]) }

  function Stranger(): PurchaseRecord { PurchaseRecord("s9", Some(50.0), [LineItem("p1", Some(1.0), 100.0, 0.0)]) }

  function Data(records: seq<PurchaseRecord>): Dataset
  {
    Dataset(Some([Ann()]), Some([Widget()]), Some(records))
  }

  function Inputs(): Checked
  {
    Checked([Ann()], [Widget()], [Sale(), Stranger()], Strategies.SimpleRevenue, Strategies.BonusByProfit)
  }

  /** The stat of the seller once both records are read. */
  function SoldStat(): SellerStat
  {
    SellerStat("s1", "Ann Lee", 200.0, 80.0, 1, [SkuQty("p1", 2.0)], 0.0, [])
  }

  lemma SaleApplied()
    ensures ApplyRecord(InitialStats([Ann()]), Sale(), TablesOf(Inputs())) == Ok([SoldStat()])
  {
    var t := TablesOf(Inputs());
    assert t.sellers == map["s1" := Ann()];
    assert t.products == map["p1" := Widget()];
    var init := InitialStats([Ann()]);
    assert "Ann" + " " + "Lee" == "Ann Lee";
    assert init == [SellerStat("s1", "Ann Lee", 0.0, 0.0, 0, [], 0.0, [])];
    var begun := SellerStat("s1", "Ann Lee", 200.0, 0.0, 1, [], 0.0, []);
    assert Strategies.SimpleRevenue(TwoUnits()) == 200.0;
    assert [TwoUnits(), NoQuantity()][..1] == [TwoUnits()];
    assert ApplyItems(begun, [TwoUnits()], t) == Ok(SoldStat());
    assert ApplyItems(begun, Sale().items, t) == Ok(SoldStat());
    assert FindStat(init, "s1") == Some(0);
    assert init[0].(revenue := init[0].revenue + 200.0, salesCount := init[0].salesCount + 1) == begun;
    assert init[0 := SoldStat()] == [SoldStat()];
  }

  lemma BothApplied()
    ensures Accumulated(Inputs()) == Ok([SoldStat()])
  {
    var t := TablesOf(Inputs());
    assert t.sellers == map["s1" := Ann()];
    SaleApplied();
    assert [Sale(), Stranger()][..1] == [Sale()];
    assert Accumulate(InitialStats([Ann()]), [Sale()], t) == Ok([SoldStat()]);
    assert ApplyRecord([SoldStat()], Stranger(), t) == Ok([SoldStat()]);
  }

  lemma SoldRanked()
    ensures Rank([SoldStat()], Strategies.BonusByProfit)
         == [SoldStat().(bonus := 12.0, topProducts := [SkuQty("p1", 2.0)])]
  {
    var sold := SoldStat();
    var r := Rank([sold], Strategies.BonusByProfit);
    assert |r| == 1;
    assert r[0] == Finalize(sold, Strategies.BonusByProfit(0, 1, sold));
    assert Strategies.BonusByProfit(0, 1, sold) == 12.0;
    assert TopProducts(sold.productsSold) == [SkuQty("p1", 2.0)];
  }

  /**
   * Revenue 200 from the one record of the known seller, profit 200 less
   * 2 * 60, one sale, the product in `top_products`, and the rank-0 bonus of
   * 15%; the item without a quantity and the unknown seller's record change
   * nothing.
   */
  lemma OneSale()
    ensures Analyze(Some(Data([Sale(), Stranger()])), Some(DefaultOptions()))
         == Ok([SellerResult("s1", "Ann Lee", 200.0, 80.0, 1, [SkuQty("p1", 2.0)], 12.0)])
  {
    assert Validate(Some(Data([Sale(), Stranger()])), Some(DefaultOptions())) == Ok(Inputs());
    BothApplied();
    var sold := SoldStat();
    assert [sold][1..] == [];
    assert SortDesc([sold], Profit) == Insert(sold, [], Profit) == [sold];
    assert TopProducts([SkuQty("p1", 2.0)]) == [SkuQty("p1", 2.0)];
    assert Strategies.BonusByProfit(0, 1, sold) == 12.0;
    var ranked := sold.(bonus := 12.0, topProducts := [SkuQty("p1", 2.0)]);
    SoldRanked();
    assert Project([ranked]) == [SellerResult("s1", "Ann Lee", 200.0, 80.0, 1, [SkuQty("p1", 2.0)], 12.0)];
    assert Run(Inputs()) == Ok(Project([ranked]));
  }

  /** A counted item of a known seller whose SKU is not in the catalogue aborts the run. */
  lemma UnknownSkuAborts()
    ensures Analyze(Some(Data([PurchaseRecord("s1", Some(10.0), [LineItem("zz", Some(1.0), 10.0, 0.0)])])),
                    Some(DefaultOptions()))
         == Err(UnknownProduct("zz"))
  {
  }
}

/**
 * The two default strategies shipped next to the pipeline:
 * `calculateSimpleRevenue` (discounted line price) and
 * `calculateBonusByProfit` (rank-branch bonus policy).
 */
module Strategies {
  import opened SalesTypes

  /** The item's quantity as the revenue strategy reads it (no coercion). */
  function RawQuantity(item: LineItem): real
  {
    match item.quantity
    case Some(q) => q
    case None => 0.0
  }

  /**
   * calculateSimpleRevenue: sale price times quantity, reduced by the
   * discount percentage. The catalogue entry is not consulted.
   */
  function SimpleRevenue(item: LineItem): (r: real)
    ensures item.discount == 0.0 ==> r == item.salePrice * RawQuantity(item)
    ensures item.discount == 100.0 ==> r == 0.0
    ensures r + item.salePrice * RawQuantity(item) * item.discount / 100.0
            == item.salePrice * RawQuantity(item)
  {
    item.salePrice * RawQuantity(item) * (1.0 - item.discount / 100.0)
  }

  /** A discount between 0 and 100 percent keeps the revenue between 0 and the gross line price. */
  lemma SimpleRevenueBounded(item: LineItem)
    requires 0.0 <= item.discount <= 100.0
    requires 0.0 <= item.salePrice && 0.0 <= RawQuantity(item)
    ensures 0.0 <= SimpleRevenue(item) <= item.salePrice * RawQuantity(item)
  {
    var gross := item.salePrice * RawQuantity(item);
    assert 0.0 <= gross;
    assert SimpleRevenue(item) == gross * (1.0 - item.discount / 100.0);
    assert 0.0 <= 1.0 - item.discount / 100.0 <= 1.0;
    MulBetween(gross, 1.0 - item.discount / 100.0);
  }

  lemma MulBetween(x: real, f: real)
    requires 0.0 <= x && 0.0 <= f <= 1.0
    ensures 0.0 <= x * f <= x
  {
  }

  /** calculateBonusByProfit, with its branches tested in the source's order. */
  function BonusByProfit(index: nat, total: nat, seller: SellerStat): real
  {
    if index == 0 then seller.profit * 0.15
    else if index == 1 || index == 2 then seller.profit * 0.10
    else if index == total - 1 then 0.0
    else seller.profit * 0.05
  }

  /** The share of profit a rank earns, described by position rather than by branch. */
  function BonusRate(index: nat, total: nat): (rate: real)
    requires index < total
    ensures index == 0 ==> rate == 0.15
    ensures 1 <= index <= 2 ==> rate == 0.10
    ensures 3 <= index && index == total - 1 ==> rate == 0.0
    ensures 3 <= index < total - 1 ==> rate == 0.05
  {
    if index == 0 then 0.15
    else if index <= 2 then 0.10
    else if index + 1 == total then 0.0
    else 0.05
  }

  /**
   * The default policy pays the rank's rate on the seller's profit. Rank 0
   * gets 15% even when it is also the last rank, and ranks 1 and 2 get 10%
   * even when one of them is the last rank.
   */
  lemma BonusByProfitIsRate(index: nat, total: nat, seller: SellerStat)
    requires index < total
    ensures BonusByProfit(index, total, seller) == BonusRate(index, total) * seller.profit
  {
  }

  /** The rate never grows with the rank. */
  lemma BonusRateNonIncreasing(i: nat, j: nat, total: nat)
    requires i <= j < total
    ensures BonusRate(j, total) <= BonusRate(i, total)
  {
  }

  /** Only the last rank of a list of at least four earns nothing. */
  lemma BonusRateZeroOnlyLast(index: nat, total: nat)
    requires index < total
    ensures BonusRate(index, total) == 0.0 <==> (total >= 4 && index == total - 1)
  {
  }

  /** With non-negative profits in ranking order, the positional bonuses do not grow. */
  lemma RatedBonusOrder(n: nat, i: nat, j: nat, pi: real, pj: real, bi: real, bj: real)
    requires i < j < n && pi >= pj >= 0.0
    requires bi == BonusRate(i, n) * pi && bj == BonusRate(j, n) * pj
    ensures bi >= bj
  {
    BonusRateNonIncreasing(i, j, n);
    ScaledOrder(BonusRate(i, n), BonusRate(j, n), pi, pj);
  }

  /** Scaling the larger of two non-negative amounts by the larger non-negative rate keeps the order. */
  lemma ScaledOrder(ri: real, rj: real, pi: real, pj: real)
    requires ri >= rj >= 0.0 && pi >= pj >= 0.0
    ensures ri * pi >= rj * pj
  {
    assert ri * pi >= ri * pj;
  }
}

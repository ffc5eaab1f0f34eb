/**
 * The ranker stage: the stats sorted by profit (stable, descending), then
 * each stat given its bonus from the injected strategy and its top
 * products, then every stat projected onto the output record.
 */
module Ranking {
  import opened SalesTypes
  import opened StableSort

  function Profit(s: SellerStat): real
  {
    s.profit
  }

  function Quantity(p: SkuQty): real
  {
    p.quantity
  }

  /** `[...sellerStats].sort((a, b) => b.profit - a.profit)`. */
  function SortByProfit(stats: seq<SellerStat>): seq<SellerStat>
  {
    SortDesc(stats, Profit)
  }

  /** The ranked list is the stats rearranged, by profit from highest to lowest, ties in seller order. */
  lemma SortByProfitCorrect(stats: seq<SellerStat>, v: real)
    ensures multiset(SortByProfit(stats)) == multiset(stats)
    ensures |SortByProfit(stats)| == |stats|
    ensures forall i, j :: 0 <= i < j < |stats| ==> SortByProfit(stats)[i].profit >= SortByProfit(stats)[j].profit
    ensures WithKey(SortByProfit(stats), Profit, v) == WithKey(stats, Profit, v)
  {
    SortPermutes(stats, Profit);
    SortSorted(stats, Profit);
    SortStable(stats, Profit, v);
  }

  const TopProductsLimit: nat := 10

  function Min(a: nat, b: nat): nat
  {
    if a < b then a else b
  }

  /**
   * `Object.entries(products_sold)` as `{sku, quantity}` pairs, stably
   * sorted by quantity from highest to lowest, cut to the first ten.
   */
  function TopProducts(sold: seq<SkuQty>): (top: seq<SkuQty>)
    ensures |top| == Min(|sold|, TopProductsLimit)
    ensures forall i, j :: 0 <= i < j < |top| ==> top[i].quantity >= top[j].quantity
    ensures multiset(top) <= multiset(sold)
    ensures top == [] <==> sold == []
  {
    var sorted := SortDesc(sold, Quantity);
    SortPermutes(sold, Quantity);
    SortSorted(sold, Quantity);
    var n := Min(|sold|, TopProductsLimit);
    assert sorted == sorted[..n] + sorted[n..];
    assert multiset(sorted) == multiset(sorted[..n]) + multiset(sorted[n..]);
    sorted[..n]
  }

  /** No product outside the top list outsold one inside it. */
  lemma TopProductsAreLargest(sold: seq<SkuQty>, p: SkuQty, q: SkuQty)
    requires p in multiset(sold) - multiset(TopProducts(sold))
    requires q in TopProducts(sold)
    ensures p.quantity <= q.quantity
  {
    var sorted := SortDesc(sold, Quantity);
    SortPermutes(sold, Quantity);
    SortSorted(sold, Quantity);
    var n := Min(|sold|, TopProductsLimit);
    var top := sorted[..n];
    var rest := sorted[n..];
    assert sorted == top + rest;
    assert multiset(sold) == multiset(top) + multiset(rest);
    assert p in multiset(rest);
    var a :| 0 <= a < |rest| && rest[a] == p;
    var b :| 0 <= b < |top| && top[b] == q;
    assert sorted[n + a] == p && sorted[b] == q;
  }

  /**
   * The top list is a prefix of the stable sort: among products of equal
   * quantity, the ones kept are the earliest in key order, and with at most
   * ten entries all of them are kept in that order.
   */
  lemma TopProductsStable(sold: seq<SkuQty>, v: real)
    ensures WithKey(TopProducts(sold), Quantity, v) <= WithKey(sold, Quantity, v)
    ensures |sold| <= TopProductsLimit ==> WithKey(TopProducts(sold), Quantity, v) == WithKey(sold, Quantity, v)
  {
    var sorted := SortDesc(sold, Quantity);
    SortStable(sold, Quantity, v);
    SortPermutes(sold, Quantity);
    var n := Min(|sold|, TopProductsLimit);
    assert TopProducts(sold) == sorted[..n];
    WithKeyPrefix(sorted, Quantity, v, n);
    if |sold| <= TopProductsLimit {
      assert sorted[..|sold|] == sorted;
    }
  }

  /** A `products_sold` with distinct keys gives a top list with distinct keys. */
  lemma TopProductsDistinct(sold: seq<SkuQty>, a: nat, b: nat)
    requires forall i, j :: 0 <= i < j < |sold| ==> sold[i].sku != sold[j].sku
    requires a < b < |TopProducts(sold)|
    ensures TopProducts(sold)[a].sku != TopProducts(sold)[b].sku
  {
    var sorted := SortDesc(sold, Quantity);
    SortPermutes(sold, Quantity);
    var n := Min(|sold|, TopProductsLimit);
    assert TopProducts(sold) == sorted[..n];
    assert sorted[a] in multiset(sold) && sorted[b] in multiset(sold);
    var x :| 0 <= x < |sold| && sold[x] == sorted[a];
    var y :| 0 <= y < |sold| && sold[y] == sorted[b];
    if sorted[a].sku == sorted[b].sku {
      assert x == y;
      DistinctPositionsDiffer(sorted, sold, SoldSku, a, b);
    }
  }

  /** What the ranking loop writes on one stat. */
  function Finalize(stat: SellerStat, bonus: real): SellerStat
  {
    stat.(bonus := bonus, topProducts := TopProducts(stat.productsSold))
  }

  /** The stats after the ranking loop: rank `i` of `n` holds `calculateBonus(i, n, stat)`. */
  function Rank(sorted: seq<SellerStat>, calculateBonus: BonusFn): seq<SellerStat>
  {
    seq(|sorted|, i requires 0 <= i < |sorted| => Finalize(sorted[i], calculateBonus(i, |sorted|, sorted[i])))
  }

  /**
   * The ranking loop changes only `bonus` and `top_products`; the bonus of
   * rank `i` is the strategy's value for `(i, n, stat)`, where the stat is
   * still the accumulated one.
   */
  lemma RankAssigns(sorted: seq<SellerStat>, calculateBonus: BonusFn, i: nat)
    requires i < |sorted|
    ensures |Rank(sorted, calculateBonus)| == |sorted|
    ensures var r := Rank(sorted, calculateBonus)[i];
      && r.bonus == calculateBonus(i, |sorted|, sorted[i])
      && r.topProducts == TopProducts(sorted[i].productsSold)
      && r.sellerId == sorted[i].sellerId && r.name == sorted[i].name
      && r.revenue == sorted[i].revenue && r.profit == sorted[i].profit
      && r.salesCount == sorted[i].salesCount && r.productsSold == sorted[i].productsSold
  {
  }

  /** `sortedSellers.forEach((seller, index) => ...)`, writing each stat in place. */
  method AssignBonuses(ranked: array<SellerStat>, calculateBonus: BonusFn)
    modifies ranked
    ensures ranked[..] == Rank(old(ranked[..]), calculateBonus)
  {
    var total := ranked.Length;
    var index := 0;
    while index < total
      invariant 0 <= index <= total
      invariant forall k :: 0 <= k < index ==>
        ranked[k] == Finalize(old(ranked[k]), calculateBonus(k, total, old(ranked[k])))
      invariant forall k :: index <= k < total ==> ranked[k] == old(ranked[k])
    {
      var bonus := calculateBonus(index, total, ranked[index]);
      ranked[index] := ranked[index].(bonus := bonus);
      ranked[index] := ranked[index].(topProducts := TopProducts(ranked[index].productsSold));
      index := index + 1;
    }
  }

  function ToResult(s: SellerStat): SellerResult
  {
    SellerResult(s.sellerId, s.name, s.revenue, s.profit, s.salesCount, s.topProducts, s.bonus)
  }

  /** `sortedSellers.map(seller => ({...}))`: one output record per stat, same order. */
  function Project(stats: seq<SellerStat>): (out: seq<SellerResult>)
    ensures |out| == |stats|
    ensures forall i :: 0 <= i < |stats| ==> out[i] == ToResult(stats[i])
  {
    seq(|stats|, i requires 0 <= i < |stats| => ToResult(stats[i]))
  }
}

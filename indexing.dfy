/**
 * The two lookup tables: seller id -> seller (built with
 * `Object.fromEntries`) and product SKU -> product (filled by a loop).
 * Both are last-write-wins when a key repeats.
 */
module Indexing {
  import opened SalesTypes

  /** The table a left-to-right pass of `t[keyOf(x)] = x` leaves behind. */
  function IndexBy<T>(xs: seq<T>, keyOf: T -> string): map<string, T>
  {
    if xs == [] then map[]
    else IndexBy(xs[..|xs| - 1], keyOf)[keyOf(xs[|xs| - 1]) := xs[|xs| - 1]]
  }

  function SkuOf(p: Product): string { p.sku }

  function IdOf(s: Seller): string { s.id }

  function ProductIndex(products: seq<Product>): map<string, Product>
  {
    IndexBy(products, SkuOf)
  }

  function SellerIndex(sellers: seq<Seller>): map<string, Seller>
  {
    IndexBy(sellers, IdOf)
  }

  /** A key is in the table exactly when some element carries it. */
  lemma {:induction false} IndexByKeys<T>(xs: seq<T>, keyOf: T -> string, k: string)
    ensures k in IndexBy(xs, keyOf) <==> exists i :: 0 <= i < |xs| && keyOf(xs[i]) == k
  {
    if xs != [] {
      var init := xs[..|xs| - 1];
      IndexByKeys(init, keyOf, k);
      if k in IndexBy(xs, keyOf) && keyOf(xs[|xs| - 1]) != k {
        var i :| 0 <= i < |init| && keyOf(init[i]) == k;
        assert xs[i] == init[i];
      }
      if exists i :: 0 <= i < |xs| && keyOf(xs[i]) == k {
        var i :| 0 <= i < |xs| && keyOf(xs[i]) == k;
        if i < |xs| - 1 {
          assert init[i] == xs[i];
        }
      }
    }
  }

  /** A key maps to the LAST element that carries it. */
  lemma {:induction false} IndexByLastWins<T>(xs: seq<T>, keyOf: T -> string, i: nat)
    requires i < |xs|
    requires forall j :: i < j < |xs| ==> keyOf(xs[j]) != keyOf(xs[i])
    ensures keyOf(xs[i]) in IndexBy(xs, keyOf)
    ensures IndexBy(xs, keyOf)[keyOf(xs[i])] == xs[i]
  {
    var init := xs[..|xs| - 1];
    if i < |xs| - 1 {
      forall j | i < j < |init| ensures keyOf(init[j]) != keyOf(init[i]) {
        assert init[j] == xs[j];
      }
      IndexByLastWins(init, keyOf, i);
      assert init[i] == xs[i];
    }
  }

  /** The loop `products.forEach(p => productIndex[p.sku] = p)`. */
  method BuildProductIndex(products: seq<Product>) returns (index: map<string, Product>)
    ensures index == ProductIndex(products)
  {
    index := map[];
    var i := 0;
    while i < |products|
      invariant 0 <= i <= |products|
      invariant index == IndexBy(products[..i], SkuOf)
    {
      assert products[..i + 1][..i] == products[..i];
      index := index[products[i].sku := products[i]];
      i := i + 1;
    }
    assert products[..|products|] == products;
  }

  ghost predicate KnownSeller(sellers: seq<Seller>, id: string)
  {
    exists k :: 0 <= k < |sellers| && sellers[k].id == id
  }

  ghost predicate KnownSku(products: seq<Product>, sku: string)
  {
    exists k :: 0 <= k < |products| && products[k].sku == sku
  }

  /** `sellerIndex[id]` is defined exactly for the ids of the sellers. */
  lemma SellerIndexKeys(sellers: seq<Seller>, id: string)
    ensures id in SellerIndex(sellers) <==> KnownSeller(sellers, id)
  {
    IndexByKeys(sellers, IdOf, id);
    if KnownSeller(sellers, id) {
      var k :| 0 <= k < |sellers| && sellers[k].id == id;
      assert IdOf(sellers[k]) == id;
    }
  }

  /** `productIndex[sku]` is defined exactly for the SKUs of the catalogue. */
  lemma ProductIndexKeys(products: seq<Product>, sku: string)
    ensures sku in ProductIndex(products) <==> KnownSku(products, sku)
  {
    IndexByKeys(products, SkuOf, sku);
    if KnownSku(products, sku) {
      var k :| 0 <= k < |products| && products[k].sku == sku;
      assert SkuOf(products[k]) == sku;
    }
  }

  /** The product a SKU looks up is the last catalogue entry with that SKU. */
  lemma ProductIndexLastWins(products: seq<Product>, k: nat)
    requires k < |products|
    requires forall j :: k < j < |products| ==> products[j].sku != products[k].sku
    ensures products[k].sku in ProductIndex(products)
    ensures ProductIndex(products)[products[k].sku] == products[k]
  {
    IndexByLastWins(products, SkuOf, k);
  }
}

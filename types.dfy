/**
 * Entities of the sales-analysis pipeline: the three input collections,
 * the two pluggable strategies, the per-seller accumulator and the output
 * record. Money and quantities are exact reals (no floating point).
 */
module SalesTypes {

  datatype Option<+T> = None | Some(value: T)

  datatype Result<+T, +E> = Ok(value: T) | Err(error: E)

  /** A seller as supplied by the caller; an empty string stands for a falsy field. */
  datatype Seller = Seller(id: string, firstName: string, lastName: string)

  /** A catalogue entry keyed by `sku`: sale price and purchase (cost) price. */
  datatype Product = Product(sku: string, price: real, purchasePrice: real)

  /**
   * One line of a purchase record. `quantity` is `None` when the field is
   * undefined; `salePrice` and `discount` are what the default revenue
   * strategy reads.
   */
  datatype LineItem = LineItem(sku: string, quantity: Option<real>, salePrice: real, discount: real)

  /** One transaction; `totalAmount` is `None` when it is not numeric. */
  datatype PurchaseRecord = PurchaseRecord(sellerId: string, totalAmount: Option<real>, items: seq<LineItem>)

  /** A `(sku, quantity)` pair of `products_sold` or `top_products`. */
  datatype SkuQty = SkuQty(sku: string, quantity: real)

  /** The key of a `products_sold` entry; mapped over the entries it gives `Object.keys`. */
  function SoldSku(p: SkuQty): string
  {
    p.sku
  }

  /**
   * The mutable per-seller accumulator. `productsSold` is kept in key
   * insertion order, as the entries of a plain object with non-numeric keys.
   */
  datatype SellerStat = SellerStat(
    sellerId: string,
    name: string,
    revenue: real,
    profit: real,
    salesCount: nat,
    productsSold: seq<SkuQty>,
    bonus: real,
    topProducts: seq<SkuQty>)

  /** One element of the returned list. */
  datatype SellerResult = SellerResult(
    sellerId: string,
    name: string,
    revenue: real,
    profit: real,
    salesCount: nat,
    topProducts: seq<SkuQty>,
    bonus: real)

  type RevenueFn = LineItem -> real

  type BonusFn = (nat, nat, SellerStat) -> real

  /** The input collections; `None` when a field is missing or not an array. */
  datatype Dataset = Dataset(
    sellers: Option<seq<Seller>>,
    products: Option<seq<Product>>,
    purchaseRecords: Option<seq<PurchaseRecord>>)

  /** The options object; a strategy is `None` when it is absent or not a function. */
  datatype Options = Options(calculateRevenue: Option<RevenueFn>, calculateBonus: Option<BonusFn>)

  /** The exceptions the pipeline can raise, in the order it checks for them. */
  datatype Error =
    | InvalidInput          // data missing, or a collection not an array
    | EmptyArrays           // some collection is empty
    | OptionsNotObject      // options is not an object, or null
    | MissingStrategies     // calculateRevenue or calculateBonus is not a function
    | InvalidSeller(seller: Seller)   // a seller lacks id, first_name or last_name
    | UnknownProduct(sku: string)     // a valid line item names a SKU outside the catalogue
}

/** The entities of the sales report: inputs, the per-seller working record, and report rows. */
module SalesTypes {

  /** An input seller. */
  datatype Seller = Seller(id: string, firstName: string, lastName: string)

  /** A product card; only the SKU and the cost basis matter to the report. */
  datatype Product = Product(sku: string, purchasePrice: real)

  /** One line of a purchase: `discount` is a percentage. */
  datatype Item = Item(sku: string, quantity: int, salePrice: real, discount: real)

  /** One purchase: the seller who made it, the amount charged, and its lines. */
  datatype PurchaseRecord = PurchaseRecord(sellerId: string, totalAmount: real, items: seq<Item>)

  /** A SKU paired with a quantity: an entry of `products_sold` and of `top_products`. */
  datatype ProductQty = ProductQty(sku: string, quantity: int)

  /**
   * The running statistics of one seller. `productsSold` lists each SKU once,
   * in the order it was first sold, with its cumulative quantity.
   */
  datatype SellerStat = SellerStat(
    id: string,
    name: string,
    revenue: real,
    profit: real,
    salesCount: nat,
    productsSold: seq<ProductQty>)

  /** One row of the returned report. */
  datatype ReportRow = ReportRow(
    sellerId: string,
    name: string,
    revenue: real,
    profit: real,
    salesCount: nat,
    topProducts: seq<ProductQty>,
    bonus: real)

  /** The revenue strategy: `(item, product) -> revenue of that item`. */
  type RevenueFn = (Item, Product) -> real

  /** The bonus strategy: `(rank, number of sellers, seller) -> bonus`. */
  type BonusFn = (nat, nat, SellerStat) -> real

  /** The display name: first and last name joined by one space. */
  function FullName(s: Seller): string {
    s.firstName + " " + s.lastName
  }

  function ProfitKey(st: SellerStat): real {
    st.profit
  }

  function SalesCountOf(st: SellerStat): int {
    st.salesCount
  }

  function QuantityKey(e: ProductQty): real {
    e.quantity as real
  }

  function SkuOf(e: ProductQty): string {
    e.sku
  }
}

/** The product record the catalog API returns and the cart snapshots. */
module Products {
  import opened Wrappers

  /** The fields of a catalog product the storefront's logic reads; the
      optional ones are read through `|| 0` by their users. */
  datatype Product = Product(
    id: int,
    title: string,
    price: real,
    discountPercentage: Option<real>,
    rating: Option<real>,
    stock: Option<int>,
    category: string)

  /** `x || 0` for an optional number. */
  function OrZero(x: Option<real>): real {
    x.GetOr(0.0)
  }

  /** `product.stock || 0`. */
  function StockOrZero(p: Product): int {
    p.stock.GetOr(0)
  }
}

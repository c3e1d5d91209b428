/** Data shapes shared by the storefront: the catalog product, the raw record
    of the public product API, a cart line and the toast notification. */
module Types {

  datatype Option<+T> = None | Some(value: T)

  datatype Result<+T, +E> = Ok(value: T) | Err(error: E)

  /** The internal product shape every card and cart line is built from.
      `reviewCount` is optional in the source (`reviewCount?: number`). */
  datatype Product = Product(
    id: string,
    name: string,
    price: real,
    imageUrl: string,
    rating: real,
    reviewCount: Option<int>)

  /** The nested `rating` object of the public product API. */
  datatype ApiRating = ApiRating(rate: real, count: int)

  /** One record of the public product API; `id` is numeric there. */
  datatype ApiProduct = ApiProduct(
    id: int,
    title: string,
    price: real,
    image: string,
    rating: ApiRating)

  /** A cart line: a product together with the number of units held.
      The source spreads the product's fields into the line; here the
      product is kept whole and `quantity` sits beside it. */
  datatype CartItem = CartItem(product: Product, quantity: int) {
    function Id(): string { product.id }
  }

  /** The transient toast payload shown after an add. */
  datatype CartNotification = CartNotification(
    message: string,
    productName: string,
    imageUrl: string,
    quantity: int)

  function Max(a: int, b: int): (m: int)
    ensures m >= a && m >= b && (m == a || m == b)
  {
    if a >= b then a else b
  }
}

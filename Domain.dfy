/**
 * The records the cart logic works on: catalog products, cart lines of the server cart,
 * server cart snapshots, and what a failed request throws.
 *
 * Optional string fields of the source are modelled as strings that are "" when absent and
 * optional numbers as 0 when absent: the validation and the product pages read them through
 * `||`, which treats the empty string, 0 and `undefined` alike. (The cart page's own
 * `stockQuantity === 0` test tells an absent field from 0; that case is not modelled.)
 */
module Domain {
  import opened Wrappers
  import opened Text

  /** A product as the catalog returns it. Prices are whole paise. */
  datatype Product = Product(
    id: string,            // `_id`
    slug: string,
    sku: string,           // "" when the record carries none
    price: int,
    stockQuantity: int,
    stock: int,            // legacy stock figure, 0 when the record carries none
    status: string)

  /** One line of a cart that holds full product records. */
  datatype CartItem = CartItem(product: Product, quantity: int)

  /** A server-owned cart snapshot (`Cart`). */
  datatype ServerCart = ServerCart(id: string, user: string, items: seq<CartItem>)

  /** The body of a server cart response, `{ success, cart }`; `cart` may be missing. */
  datatype CartResponse = CartResponse(success: bool, cart: Option<ServerCart>)

  /** The catalog as seen through `productService.getProduct(slugOrId)`: a key that is absent
      is a lookup that throws (the product is gone or the request failed). */
  type Catalog = map<string, Product>

  /** `error.response.data`, with absent fields as "". */
  datatype ErrorBody = ErrorBody(error: string, message: string)

  /** What a failed request throws: `response` is present for HTTP errors, `isError` says
      whether it is an `Error` instance, and `message` is its `message` property ("" if none). */
  datatype Thrown = Thrown(response: Option<ErrorBody>, isError: bool, message: string)

  /** `product.slug || product._id`: the key a guest cart uses for a product. */
  function SlugOrId(p: Product): string {
    Or(p.slug, p.id)
  }

  /** `error?.response?.data?.error || fallback`, the message most handlers show. */
  function ResponseErrorOr(e: Thrown, fallback: string): (m: string)
    ensures m == fallback || (e.response.Some? && m == e.response.value.error)
    ensures e.response.None? ==> m == fallback
  {
    match e.response
    case Some(body) => Or(body.error, fallback)
    case None => fallback
  }
}

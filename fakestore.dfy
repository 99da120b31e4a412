/** The record shapes of the store: a catalog product as the external catalog
    returns it, one line of a cart, and a cart with its derived totals. */
module FakeStore {

  /** A catalog product, restricted to the fields the cart engine reads
      (description, category and rating are never used by the cart). */
  datatype Product = Product(id: int, title: string, price: real, image: string)

  /** One product's line in a cart: `price` is the unit price stored when the
      line was first created, `total` the line total last computed. */
  datatype CartItem = CartItem(
    productId: int,
    title: string,
    price: real,
    quantity: int,
    total: real,
    image: string)

  /** A user's cart: its ordered lines and four derived figures. */
  datatype Cart = Cart(
    items: seq<CartItem>,
    totalItems: int,
    subtotal: real,
    tax: real,
    total: real)
}

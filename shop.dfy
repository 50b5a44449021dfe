// Entities shared by the storefront's cart, order and recommendation
// handlers: identifiers, the product document, the product collection and
// the shape of a handler's reply.

module Shop {

  /** Opaque document identifiers (Mongo ObjectIds). */
  type ProductId = nat
  type UserId = nat
  type ItemId = nat

  datatype Option<T> = None | Some(value: T)

  /** A catalog product. Money and rating are exact reals; the stock is an
      unbounded integer, because checkout may drive it below zero. */
  datatype Product = Product(
    id: ProductId,
    name: string,
    price: real,
    image: string,
    stock: int,
    category: string,
    rating: real,
    numReviews: int,
    createdAt: int)

  /** The product collection, keyed by id. Checkout is the only handler
      that writes it (stock decrements). */
  class Catalog {
    var products: map<ProductId, Product>

    constructor (products: map<ProductId, Product>)
      ensures this.products == products
    {
      this.products := products;
    }
  }

  /** What a handler answers: a value, or one of the failures the routes
      return before anything is saved. */
  datatype Reply<T> =
    | Ok(value: T)
    | NotFound(message: string)     // 404
    | InsufficientStock             // 400 "Insufficient stock"
    | EmptyCart                     // 400 "Cart is empty"
    | NotAuthorized                 // 403 "Not authorized"
    | ServerError                   // 500, e.g. a line whose product was deleted

  const ProductNotFound := "Product not found"
  const CartNotFound := "Cart not found"
  const ItemNotFound := "Item not found in cart"
  const OrderNotFound := "Order not found"
  const CartCleared := "Cart cleared"
}

/**
 * Row shapes of the hosted tables the checkout reads and writes: `products`,
 * `cart_items` (as the cart context hands them out), `orders` and
 * `order_items`.  All money fields are integer cents.
 */
module Store {
  import opened Wrappers

  /** The product columns the cart and the order review join in. */
  datatype Product = Product(name: string, price: int, imageUrl: Option<string>)

  /** One cart line: a product and how many of it. */
  datatype CartItem = CartItem(id: string, productId: string, quantity: int, product: Product)

  /** A row of `orders`.  The store also sets `created_at`, which nothing here reads. */
  datatype Order = Order(id: string, userId: string, totalAmount: int, status: string, currency: string)

  /** A row of `order_items`: the unit price is a snapshot taken at checkout. */
  datatype OrderItem = OrderItem(orderId: string, productId: string, quantity: int, price: int)

  /** The signed-in identity; only its id is used. */
  datatype User = User(id: string)

  /** `id` names no row of `orders`. */
  predicate NoOrderWithId(orders: seq<Order>, id: string)
  {
    forall k :: 0 <= k < |orders| ==> orders[k].id != id
  }

  /** `id` owns no row of `order_items`. */
  predicate NoItemsForOrder(rows: seq<OrderItem>, id: string)
  {
    forall k :: 0 <= k < |rows| ==> rows[k].orderId != id
  }

  /** `orders.id` is a key. */
  predicate UniqueOrderIds(orders: seq<Order>)
  {
    forall i, j :: 0 <= i < j < |orders| ==> orders[i].id != orders[j].id
  }
}

/**
 * The checkout hook: `createOrder` turns the signed-in user's cart into one
 * pending order and one order item per cart line, then empties the cart and
 * moves to the order's review page.  The hosted tables are sequences held by
 * the session; each remote call's success or failure is a parameter.
 */
module CheckoutHook {
  import opened Wrappers
  import opened Money
  import opened Store

  /**
   * The cart total the cart context reports: the sum of unit price times
   * quantity over the lines.  The cart context itself is not part of this
   * model; this is the definition the cross-checks below assume of it.
   */
  function CartTotal(cart: seq<CartItem>): int
  {
    if cart == [] then 0 else cart[0].product.price * cart[0].quantity + CartTotal(cart[1..])
  }

  /** `cartItems.map(...)`: one order item per cart line, in cart order, with the unit price as of now. */
  function OrderItemsFor(orderId: string, cart: seq<CartItem>): (r: seq<OrderItem>)
    ensures |r| == |cart|
    ensures forall i :: 0 <= i < |cart| ==>
              r[i] == OrderItem(orderId, cart[i].productId, cart[i].quantity, cart[i].product.price)
  {
    if cart == [] then []
    else [OrderItem(orderId, cart[0].productId, cart[0].quantity, cart[0].product.price)]
         + OrderItemsFor(orderId, cart[1..])
  }

  /** The order row `createOrder` asks the store to insert (the store picks the id). */
  function PendingOrder(id: string, user: User, cartTotal: int): (o: Order)
    ensures o.id == id && o.userId == user.id
    ensures o.status == "pending" && o.currency == "usd"
    ensures 10 * o.totalAmount - 5 <= 11 * cartTotal < 10 * o.totalAmount + 5
  {
    Order(id, user.id, WithTax(cartTotal), "pending", "usd")
  }

  /** The review page of an order. */
  function ReviewPath(orderId: string): (p: string)
    ensures |p| == |"/checkout/"| + |orderId|
    ensures p[..|"/checkout/"|] == "/checkout/" && p[|"/checkout/"|..] == orderId
  {
    "/checkout/" + orderId
  }

  /** How one `createOrder` call ends. */
  datatype Outcome =
    | LoginRequired
    | CartEmpty
    | OrderInsertFailed
    | ItemsInsertFailed(orderId: string)
    | Created(orderId: string)

  /** The notification each outcome shows.  Both insert failures read the same to the user. */
  function Notice(outcome: Outcome): (text: string)
    ensures outcome.LoginRequired? <==> text == "Please login to checkout"
    ensures outcome.CartEmpty? <==> text == "Your cart is empty"
    ensures outcome.OrderInsertFailed? || outcome.ItemsInsertFailed? <==>
            text == "Failed to process checkout. Please try again."
    ensures outcome.Created? <==> text == "Order created! Review and complete payment."
  {
    match outcome
    case LoginRequired => "Please login to checkout"
    case CartEmpty => "Your cart is empty"
    case OrderInsertFailed => "Failed to process checkout. Please try again."
    case ItemsInsertFailed(_) => "Failed to process checkout. Please try again."
    case Created(_) => "Order created! Review and complete payment."
  }

  /** The observable steps of one checkout, in the order they happen. */
  datatype Step =
    | SetProcessing(on: bool)
    | InsertOrder
    | InsertItems
    | ClearCart
    | Navigate(path: string)

  /**
   * One browser session as the hook sees it: the cart, the two hosted tables
   * it writes, its `processing` flag and where the router currently is.
   * `trace` records the steps the hook has taken, for the contracts only.
   */
  class Session {
    var cart: seq<CartItem>
    var orders: seq<Order>
    var orderItems: seq<OrderItem>
    var processing: bool
    var location: string
    ghost var trace: seq<Step>

    constructor (cart: seq<CartItem>, orders: seq<Order>, orderItems: seq<OrderItem>, location: string)
      ensures this.cart == cart && this.orders == orders && this.orderItems == orderItems
      ensures this.location == location
      ensures !processing && trace == []
    {
      this.cart := cart;
      this.orders := orders;
      this.orderItems := orderItems;
      this.location := location;
      processing := false;
      trace := [];
    }

    /**
     * `createOrder`.  `user` is the signed-in identity, `cartTotal` the cart
     * context's total, `insertedId` the id the store gives the new order row
     * (None when that insert reports an error), `itemsInserted` whether the
     * batch insert of order items succeeds.  Neither failure rolls back.
     */
    method CreateOrder(user: Option<User>, cartTotal: int, insertedId: Option<string>, itemsInserted: bool)
      returns (outcome: Outcome)
      modifies this
      // the guards, user first: nothing is written, the flag is not touched
      ensures user.None? ==> outcome == LoginRequired
      ensures user.Some? && old(cart) == [] ==> outcome == CartEmpty
      ensures outcome.LoginRequired? || outcome.CartEmpty? ==>
                cart == old(cart) && orders == old(orders) && orderItems == old(orderItems) &&
                processing == old(processing) && location == old(location) && trace == old(trace)
      // past the guards, the flag is raised before the order insert and lowered last, on every outcome
      ensures user.Some? && old(cart) != [] ==> !processing
      // the order insert fails: nothing else happens
      ensures user.Some? && old(cart) != [] && insertedId.None? ==>
                outcome == OrderInsertFailed &&
                trace == old(trace) + [SetProcessing(true), InsertOrder, SetProcessing(false)] &&
                orders == old(orders) && orderItems == old(orderItems) &&
                cart == old(cart) && location == old(location)
      // the order row is in; the items insert fails: the row stays, the cart stays
      ensures user.Some? && old(cart) != [] && insertedId.Some? && !itemsInserted ==>
                outcome == ItemsInsertFailed(insertedId.value) &&
                trace == old(trace) + [SetProcessing(true), InsertOrder, InsertItems, SetProcessing(false)] &&
                orders == old(orders) + [PendingOrder(insertedId.value, user.value, cartTotal)] &&
                orderItems == old(orderItems) && cart == old(cart) && location == old(location)
      // full success
      ensures user.Some? && old(cart) != [] && insertedId.Some? && itemsInserted ==>
                outcome == Created(insertedId.value) &&
                trace == old(trace) + [SetProcessing(true), InsertOrder, InsertItems, ClearCart,
                                       Navigate(ReviewPath(insertedId.value)), SetProcessing(false)] &&
                orders == old(orders) + [PendingOrder(insertedId.value, user.value, cartTotal)] &&
                orderItems == old(orderItems) + OrderItemsFor(insertedId.value, old(cart)) &&
                cart == [] && location == ReviewPath(insertedId.value)
    {
      if user.None? {
        return LoginRequired;
      }
      if |cart| == 0 {
        return CartEmpty;
      }
      processing := true;
      trace := trace + [SetProcessing(true)];

      trace := trace + [InsertOrder];
      if insertedId.None? {
        outcome := OrderInsertFailed;
      } else {
        var order := PendingOrder(insertedId.value, user.value, cartTotal);
        orders := orders + [order];

        var items := OrderItemsFor(order.id, cart);
        trace := trace + [InsertItems];
        if !itemsInserted {
          outcome := ItemsInsertFailed(order.id);
        } else {
          orderItems := orderItems + items;
          cart := [];
          trace := trace + [ClearCart];
          location := ReviewPath(order.id);
          trace := trace + [Navigate(location)];
          outcome := Created(order.id);
        }
      }
      processing := false;
      trace := trace + [SetProcessing(false)];
    }

    /** `processStripePayment`: payment capture is not implemented; it only logs. */
    method ProcessStripePayment(orderId: string)
      ensures orders == old(orders) && orderItems == old(orderItems)
      ensures cart == old(cart) && processing == old(processing) && location == old(location)
    {
    }
  }
}

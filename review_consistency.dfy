/**
 * How the checkout hook and the review page fit together: the page recomputes
 * the total from the order-item rows the hook wrote, and when the cart total
 * it was given is the sum of those snapshot lines, the recomputed total is the
 * stored `total_amount`.
 */
module ReviewConsistency {
  import opened Wrappers
  import opened Money
  import opened Store
  import opened CheckoutHook
  import opened CheckoutPage

  /** The snapshot rows of a cart, read back, add up to the cart total. */
  lemma {:induction false} SnapshotSubtotalIsCartTotal(id: string, cart: seq<CartItem>, products: map<string, Product>)
    ensures |ItemRowsFor(OrderItemsFor(id, cart), products, id)| == |cart|
    ensures Subtotal(ItemRowsFor(OrderItemsFor(id, cart), products, id)) == CartTotal(cart)
  {
    if cart != [] {
      var items := OrderItemsFor(id, cart);
      assert items[1..] == OrderItemsFor(id, cart[1..]);
      var rest := ItemRowsFor(items[1..], products, id);
      var rows := ItemRowsFor(items, products, id);
      SnapshotSubtotalIsCartTotal(id, cart[1..], products);
      assert rows == [rows[0]] + rest;
      SubtotalAppend([rows[0]], rest);
      assert [rows[0]][..0] == [];
      assert LineAmount(rows[0]) == cart[0].product.price * cart[0].quantity;
    }
  }

  /** Appending a row with a new id makes that row the only match. */
  lemma {:induction false} FreshOrderIsOnlyMatch(orders: seq<Order>, o: Order)
    requires NoOrderWithId(orders, o.id)
    ensures OrdersWithId(orders + [o], o.id) == [o]
  {
    if orders == [] {
      assert orders + [o] == [o];
    } else {
      assert (orders + [o])[1..] == orders[1..] + [o];
      FreshOrderIsOnlyMatch(orders[1..], o);
    }
  }

  /** What the review page shows as total for the new order is its stored `total_amount`. */
  lemma ReviewTotalIsStoredTotal(table: seq<OrderItem>, products: map<string, Product>, id: string,
                                 user: User, cart: seq<CartItem>, cartTotal: int)
    requires NoItemsForOrder(table, id)
    requires cartTotal == CartTotal(cart)
    ensures Total(Subtotal(ItemRowsFor(table + OrderItemsFor(id, cart), products, id)))
            == PendingOrder(id, user, cartTotal).totalAmount
  {
    ItemRowsForAppend(table, OrderItemsFor(id, cart), products, id);
    assert ItemRowsFor(table, products, id) == [];
    assert [] + ItemRowsFor(OrderItemsFor(id, cart), products, id) == ItemRowsFor(OrderItemsFor(id, cart), products, id);
    SnapshotSubtotalIsCartTotal(id, cart, products);
  }

  /**
   * Checkout followed by review, on the tables as the hook leaves them: the
   * page finds the order and shows one line per cart line and the stored total.
   */
  lemma CheckoutThenReviewAgrees(orders: seq<Order>, table: seq<OrderItem>, products: map<string, Product>,
                                 id: string, user: User, cart: seq<CartItem>, cartTotal: int, s: PageState)
    requires id != ""
    requires NoOrderWithId(orders, id) && NoItemsForOrder(table, id)
    requires cartTotal == CartTotal(cart)
    ensures var order := PendingOrder(id, user, cartTotal);
            var view := Render(Settle(s, Classify(Some(id), orders + [order], table + OrderItemsFor(id, cart),
                                                  products, true, true)));
            view.Summary? && view.orderRef == OrderRef(id) && |view.lines| == |cart| &&
            view.total == order.totalAmount
  {
    var order := PendingOrder(id, user, cartTotal);
    FreshOrderIsOnlyMatch(orders, order);
    ReviewTotalIsStoredTotal(table, products, id, user, cart, cartTotal);
    ItemRowsForAppend(table, OrderItemsFor(id, cart), products, id);
    SnapshotSubtotalIsCartTotal(id, cart, products);
    assert ItemRowsFor(table, products, id) == [];
    assert [] + ItemRowsFor(OrderItemsFor(id, cart), products, id) == ItemRowsFor(OrderItemsFor(id, cart), products, id);
  }

  /**
   * A user's click on checkout followed, when it navigates, by the review
   * page's load on the same tables.  `view` is None when no navigation happens.
   */
  method CheckoutThenReview(cart: seq<CartItem>, orders: seq<Order>, orderItems: seq<OrderItem>,
                            products: map<string, Product>, user: Option<User>, insertedId: Option<string>,
                            itemsInserted: bool)
    returns (outcome: Outcome, view: Option<View>)
    requires insertedId.Some? ==> insertedId.value != "" &&
                                  NoOrderWithId(orders, insertedId.value) &&
                                  NoItemsForOrder(orderItems, insertedId.value)
    ensures view.Some? <==> outcome.Created?
    ensures outcome.Created? ==>
              view.value.Summary? && |view.value.lines| == |cart| &&
              view.value.total == WithTax(CartTotal(cart))
  {
    var session := new Session(cart, orders, orderItems, "/cart");
    outcome := session.CreateOrder(user, CartTotal(cart), insertedId, itemsInserted);
    if !outcome.Created? {
      return outcome, None;
    }
    var page := new OrderReview();
    // the review page reads its order id back from the route checkout navigated to
    var id := session.location[|"/checkout/"|..];
    assert id == insertedId.value;
    page.Load(Some(id), session.orders, session.orderItems, products, true, true);
    CheckoutThenReviewAgrees(orders, orderItems, products, id, user.value, cart, CartTotal(cart), Mounted);
    view := Some(Render(page.State()));
  }
}

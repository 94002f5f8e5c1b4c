/**
 * The order review page: it loads one order and its item rows by id, derives
 * subtotal, tax and total from the rows (not from the stored total) and picks
 * one of four views.  The hosted tables are parameters; whether each of the
 * two queries reaches the store is a parameter too.
 */
module CheckoutPage {
  import opened Wrappers
  import opened Money
  import opened Store

  /** An item row as the page fetches it: quantity and price of `order_items`, joined product. */
  datatype ItemRow = ItemRow(quantity: Option<int>, price: Option<int>, product: Option<Product>)

  /** `(it.price || 0) * (it.quantity || 0)`: a missing or zero field contributes nothing. */
  function LineAmount(row: ItemRow): (r: int)
    ensures row.price.None? || row.price == Some(0) || row.quantity.None? || row.quantity == Some(0) ==> r == 0
    ensures row.price.Some? && row.quantity.Some? ==> r == row.price.value * row.quantity.value
  {
    row.price.GetOr(0) * row.quantity.GetOr(0)
  }

  /** `items.reduce((sum, it) => sum + ..., 0)`: a left fold over the rows. */
  function Subtotal(rows: seq<ItemRow>): (r: int)
    ensures (forall k :: 0 <= k < |rows| ==> LineAmount(rows[k]) == 0) ==> r == 0
    ensures (forall k :: 0 <= k < |rows| ==> LineAmount(rows[k]) >= 0) ==> r >= 0
  {
    if rows == [] then 0 else Subtotal(rows[..|rows| - 1]) + LineAmount(rows[|rows| - 1])
  }

  /** `Math.round(subtotal * 0.1)`. */
  function Tax(subtotal: int): (t: int)
    ensures 10 * t - 5 <= subtotal < 10 * t + 5
  {
    RoundTenth(subtotal)
  }

  /** What the page shows as the total: the subtotal plus the rounded tax. */
  function Total(subtotal: int): (t: int)
    ensures t == WithTax(subtotal)
  {
    WithTaxIsAmountPlusRoundedTax(subtotal);
    subtotal + Tax(subtotal)
  }

  lemma {:induction false} SubtotalAppend(a: seq<ItemRow>, b: seq<ItemRow>)
    ensures Subtotal(a + b) == Subtotal(a) + Subtotal(b)
    decreases |b|
  {
    if b == [] {
      assert a + b == a;
    } else {
      var b' := b[..|b| - 1];
      assert (a + b)[..|a + b| - 1] == a + b';
      SubtotalAppend(a, b');
    }
  }

  /** The subtotal of one row is that row's amount. */
  lemma {:induction false} SubtotalOfOne(row: ItemRow)
    ensures Subtotal([row]) == LineAmount(row)
  {
    assert [row][..0] == [];
  }

  /** Taking row `j` out of the list takes its amount out of the subtotal. */
  lemma {:induction false} SubtotalWithout(b: seq<ItemRow>, j: nat)
    requires j < |b|
    ensures multiset(b) == multiset(b[..j] + b[j + 1..]) + multiset{b[j]}
    ensures Subtotal(b) == Subtotal(b[..j] + b[j + 1..]) + LineAmount(b[j])
  {
    var left, x, right := b[..j], b[j], b[j + 1..];
    assert b == (left + [x]) + right;
    SubtotalAppend(left + [x], right);
    SubtotalAppend(left, [x]);
    SubtotalAppend(left, right);
    SubtotalOfOne(x);
  }

  /** The subtotal does not depend on the order in which the rows come back. */
  lemma {:induction false} SubtotalPermutation(a: seq<ItemRow>, b: seq<ItemRow>)
    requires multiset(a) == multiset(b)
    ensures Subtotal(a) == Subtotal(b)
    decreases |a|
  {
    if a != [] {
      var n := |a| - 1;
      var init, x := a[..n], a[n];
      assert a == init + [x];
      assert multiset(a) == multiset(init) + multiset{x};
      assert x in b by {
        assert x in multiset(a);
      }
      var j :| 0 <= j < |b| && b[j] == x;
      SubtotalWithout(b, j);
      var rest := b[..j] + b[j + 1..];
      assert multiset(init) == multiset(a) - multiset{x};
      assert multiset(rest) == multiset(b) - multiset{x};
      SubtotalPermutation(init, rest);
      assert Subtotal(a) == Subtotal(init) + LineAmount(x);
    }
  }

  /** Adding rows that contribute nothing leaves the subtotal as it is. */
  lemma {:induction false} SubtotalIgnoresEmptyRows(rows: seq<ItemRow>, extra: seq<ItemRow>)
    requires forall k :: 0 <= k < |extra| ==> extra[k].price.None? || extra[k].quantity.None?
    ensures Subtotal(rows + extra) == Subtotal(rows)
    decreases |extra|
  {
    if extra == [] {
      assert rows + extra == rows;
    } else {
      var e' := extra[..|extra| - 1];
      assert (rows + extra)[..|rows + extra| - 1] == rows + e';
      assert (rows + extra)[|rows + extra| - 1] == extra[|extra| - 1];
      assert LineAmount(extra[|extra| - 1]) == 0;
      SubtotalIgnoresEmptyRows(rows, e');
      assert Subtotal(rows + extra) == Subtotal(rows + e') + LineAmount(extra[|extra| - 1]);
    }
  }

  lemma NoRowsNoCharge()
    ensures Subtotal([]) == 0 && Tax(Subtotal([])) == 0 && Total(Subtotal([])) == 0
  {
  }

  /** Two rows, 45.00 x 1 and 35.00 x 2: 115.00 + 11.50 = 126.50. */
  lemma TwoLineExample()
    ensures var rows := [ItemRow(Some(1), Some(4500), None), ItemRow(Some(2), Some(3500), None)];
            Subtotal(rows) == 11500 && Tax(Subtotal(rows)) == 1150 && Total(Subtotal(rows)) == 12650
  {
    var rows := [ItemRow(Some(1), Some(4500), None), ItemRow(Some(2), Some(3500), None)];
    assert rows[..1] == [rows[0]];
    assert rows[..1][..0] == [];
  }

  /** `.eq("order_id", id)`: the rows of `order_items` that belong to order `id`. */
  function OrderItemsOf(table: seq<OrderItem>, id: string): (r: seq<OrderItem>)
    ensures |r| <= |table|
    ensures forall k :: 0 <= k < |r| ==> r[k].orderId == id
    ensures NoItemsForOrder(table, id) ==> r == []
  {
    if table == [] then []
    else if table[0].orderId == id then [table[0]] + OrderItemsOf(table[1..], id)
    else OrderItemsOf(table[1..], id)
  }

  /** Every row of `order_items` that belongs to order `id` is kept, as often as it occurs, and no other. */
  lemma {:induction false} OrderItemsOfCounts(table: seq<OrderItem>, id: string)
    ensures forall x :: multiset(OrderItemsOf(table, id))[x] == if x.orderId == id then multiset(table)[x] else 0
  {
    if table != [] {
      OrderItemsOfCounts(table[1..], id);
      assert table == [table[0]] + table[1..];
    }
  }

  /** `product:products(...)`: the product row of `productId`, or null. */
  function Joined(products: map<string, Product>, productId: string): Option<Product>
  {
    if productId in products then Some(products[productId]) else None
  }

  /** The row the page shows for one `order_items` row: its quantity and price, and its product joined in. */
  function Shown(m: OrderItem, products: map<string, Product>): ItemRow
  {
    ItemRow(Some(m.quantity), Some(m.price), Joined(products, m.productId))
  }

  /** The rows of `order_items` whose `order_id` is `id`, each with its product joined in. */
  function ItemRowsFor(table: seq<OrderItem>, products: map<string, Product>, id: string): (r: seq<ItemRow>)
    ensures |r| <= |table|
    ensures NoItemsForOrder(table, id) ==> r == []
    ensures forall k :: 0 <= k < |r| ==> r[k].price.Some? && r[k].quantity.Some?
  {
    if table == [] then []
    else
      var rest := ItemRowsFor(table[1..], products, id);
      var row := table[0];
      if row.orderId == id then [Shown(row, products)] + rest
      else rest
  }

  /** The page shows one row per `order_items` row of the order: row `k` is that order's row `k`, with its
      product joined in. */
  lemma {:induction false} ItemRowsShowOrderItems(table: seq<OrderItem>, products: map<string, Product>, id: string)
    ensures |ItemRowsFor(table, products, id)| == |OrderItemsOf(table, id)|
    ensures forall k :: 0 <= k < |ItemRowsFor(table, products, id)| ==>
              ItemRowsFor(table, products, id)[k] == Shown(OrderItemsOf(table, id)[k], products)
  {
    if table != [] {
      ItemRowsShowOrderItems(table[1..], products, id);
      var rest, tail := ItemRowsFor(table[1..], products, id), OrderItemsOf(table[1..], id);
      if table[0].orderId == id {
        assert ItemRowsFor(table, products, id) == [Shown(table[0], products)] + rest;
        assert OrderItemsOf(table, id) == [table[0]] + tail;
      } else {
        assert ItemRowsFor(table, products, id) == rest;
        assert OrderItemsOf(table, id) == tail;
      }
    }
  }

  lemma {:induction false} ItemRowsForAppend(a: seq<OrderItem>, b: seq<OrderItem>, products: map<string, Product>, id: string)
    ensures ItemRowsFor(a + b, products, id) == ItemRowsFor(a, products, id) + ItemRowsFor(b, products, id)
  {
    if a == [] {
      assert a + b == b;
    } else {
      var ab := a + b;
      assert ab[0] == a[0] && ab[1..] == a[1..] + b;
      ItemRowsForAppend(a[1..], b, products, id);
      var rest := ItemRowsFor(a[1..], products, id) + ItemRowsFor(b, products, id);
      if a[0].orderId == id {
        assert ItemRowsFor(ab, products, id) == [Shown(a[0], products)] + rest;
        assert ItemRowsFor(a, products, id) == [Shown(a[0], products)] + ItemRowsFor(a[1..], products, id);
      } else {
        assert ItemRowsFor(ab, products, id) == rest;
        assert ItemRowsFor(a, products, id) == ItemRowsFor(a[1..], products, id);
      }
    }
  }

  /** The rows of `orders` whose id is `id`. */
  function OrdersWithId(orders: seq<Order>, id: string): (r: seq<Order>)
    ensures |r| <= |orders|
    ensures forall k :: 0 <= k < |r| ==> r[k].id == id && r[k] in orders
    ensures forall k :: 0 <= k < |orders| && orders[k].id == id ==> orders[k] in r
    ensures NoOrderWithId(orders, id) ==> r == []
  {
    if orders == [] then []
    else if orders[0].id == id then [orders[0]] + OrdersWithId(orders[1..], id)
    else OrdersWithId(orders[1..], id)
  }

  /** `.eq("id", id)` keeps each row with the id as often as it occurs in `orders`, and no other row. */
  lemma {:induction false} OrdersWithIdCounts(orders: seq<Order>, id: string)
    ensures forall x :: multiset(OrdersWithId(orders, id))[x] == if x.id == id then multiset(orders)[x] else 0
  {
    if orders != [] {
      OrdersWithIdCounts(orders[1..], id);
      assert orders == [orders[0]] + orders[1..];
    }
  }

  lemma {:induction false} KeyMeansAtMostOne(orders: seq<Order>, id: string)
    requires UniqueOrderIds(orders)
    ensures |OrdersWithId(orders, id)| <= 1
  {
    if orders != [] {
      KeyMeansAtMostOne(orders[1..], id);
      if orders[0].id == id {
        assert NoOrderWithId(orders[1..], id) by {
          forall k | 0 <= k < |orders[1..]| ensures orders[1..][k].id != id {
            assert orders[k + 1].id != orders[0].id;
          }
        }
      }
    }
  }

  /** A reply of the store: the data, or an error. */
  datatype Reply<T> = Ok(data: T) | Err

  /**
   * `select(...).eq("id", id).maybeSingle()`: no matching row is not an error
   * (the data is null), one row is the data, more than one row is an error,
   * and so is a store that cannot be reached.
   */
  function FetchOrder(orders: seq<Order>, id: string, reachable: bool): (r: Reply<Option<Order>>)
    ensures !reachable ==> r == Err
    ensures reachable && NoOrderWithId(orders, id) ==> r == Ok(None)
    ensures r.Ok? && r.data.Some? ==> r.data.value in orders && r.data.value.id == id
    ensures reachable && UniqueOrderIds(orders) ==> r.Ok?
    ensures reachable && UniqueOrderIds(orders) ==>
              forall k :: 0 <= k < |orders| && orders[k].id == id ==> r == Ok(Some(orders[k]))
    ensures reachable && |OrdersWithId(orders, id)| > 1 ==> r == Err
    // `maybeSingle` itself only asks that at most one row match
    ensures reachable && |OrdersWithId(orders, id)| <= 1 ==> r.Ok?
    ensures reachable && |OrdersWithId(orders, id)| <= 1 ==>
              forall k :: 0 <= k < |orders| && orders[k].id == id ==> r == Ok(Some(orders[k]))
  {
    var matching := OrdersWithId(orders, id);
    if !reachable then Err
    else if |matching| == 0 then Ok(None)
    else if |matching| == 1 then
      assert forall k :: 0 <= k < |orders| && orders[k].id == id ==> matching[0] == orders[k];
      assert UniqueOrderIds(orders) ==>
               forall k :: 0 <= k < |orders| && orders[k].id == id ==> matching[0] == orders[k] by {
        if UniqueOrderIds(orders) { KeyMeansAtMostOne(orders, id); }
      }
      Ok(Some(matching[0]))
    else
      assert UniqueOrderIds(orders) ==> |matching| <= 1 by {
        if UniqueOrderIds(orders) { KeyMeansAtMostOne(orders, id); }
      }
      Err
  }

  /** How one run of the page's `load` effect ends. */
  datatype LoadOutcome =
    | MissingId
    | OrderLoadFailed
    | ItemsLoadFailed(order: Option<Order>)
    | Loaded(order: Option<Order>, rows: seq<ItemRow>)

  /** `!orderId`: no route parameter, or an empty one. */
  predicate Missing(orderId: Option<string>)
  {
    orderId.None? || orderId.value == ""
  }

  /** The outcome of `load` for the route's `orderId`, the tables and which queries reach the store. */
  function Classify(orderId: Option<string>, orders: seq<Order>, orderItems: seq<OrderItem>,
                    products: map<string, Product>, ordersReachable: bool, itemsReachable: bool): (o: LoadOutcome)
    ensures Missing(orderId) <==> o.MissingId?
    ensures !Missing(orderId) && !ordersReachable ==> o.OrderLoadFailed?
    // `maybeSingle` on more than one matching row is an order-query failure too
    ensures !Missing(orderId) && |OrdersWithId(orders, orderId.value)| > 1 ==> o.OrderLoadFailed?
    ensures o.Loaded? ==> ordersReachable && itemsReachable &&
                          o.rows == ItemRowsFor(orderItems, products, orderId.value)
    ensures o.Loaded? || o.ItemsLoadFailed? ==>
              o.order.None? || (o.order.value in orders && o.order.value.id == orderId.value)
    // with `orders.id` a key and the order query answered, the items query decides the outcome
    ensures !Missing(orderId) && ordersReachable && UniqueOrderIds(orders) ==>
              if itemsReachable then o.Loaded? else o.ItemsLoadFailed?
    ensures !Missing(orderId) && ordersReachable && UniqueOrderIds(orders) ==>
              forall k :: 0 <= k < |orders| && orders[k].id == orderId.value ==>
                (o.Loaded? || o.ItemsLoadFailed?) && o.order == Some(orders[k])
    ensures !Missing(orderId) && ordersReachable && NoOrderWithId(orders, orderId.value) ==>
              (o.Loaded? || o.ItemsLoadFailed?) && o.order.None?
    // the same, needing only that at most one order row has the id
    ensures !Missing(orderId) && ordersReachable && |OrdersWithId(orders, orderId.value)| <= 1 ==>
              if itemsReachable then o.Loaded? else o.ItemsLoadFailed?
    ensures !Missing(orderId) && ordersReachable && |OrdersWithId(orders, orderId.value)| <= 1 ==>
              forall k :: 0 <= k < |orders| && orders[k].id == orderId.value ==>
                (o.Loaded? || o.ItemsLoadFailed?) && o.order == Some(orders[k])
  {
    if Missing(orderId) then MissingId
    else match FetchOrder(orders, orderId.value, ordersReachable)
      case Err => OrderLoadFailed
      case Ok(order) =>
        if !itemsReachable then ItemsLoadFailed(order)
        else Loaded(order, ItemRowsFor(orderItems, products, orderId.value))
  }

  /** The page's four pieces of state. */
  datatype PageState = PageState(loading: bool, error: Option<string>, order: Option<Order>, items: seq<ItemRow>)

  /** The state when the page mounts. */
  const Mounted := PageState(true, None, None, [])

  /** The state after `load` ends with `outcome`; what a branch does not set keeps its value. */
  function Settle(s: PageState, outcome: LoadOutcome): (t: PageState)
    ensures !t.loading
    ensures t.error.None? <==> outcome.Loaded?
    ensures outcome.Loaded? ==> t.order == outcome.order && t.items == outcome.rows
    ensures outcome.ItemsLoadFailed? ==> t.order == outcome.order && t.items == s.items
    ensures outcome.MissingId? || outcome.OrderLoadFailed? ==> t.order == s.order && t.items == s.items
    ensures outcome.MissingId? ==> t.error == Some("Missing order id.")
    ensures outcome.OrderLoadFailed? ==> t.error == Some("Failed to load order.")
    ensures outcome.ItemsLoadFailed? ==> t.error == Some("Failed to load order items.")
  {
    match outcome
    case MissingId => s.(error := Some("Missing order id."), loading := false)
    case OrderLoadFailed => s.(error := Some("Failed to load order."), loading := false)
    case ItemsLoadFailed(order) => s.(order := order, error := Some("Failed to load order items."), loading := false)
    case Loaded(order, rows) => s.(order := order, items := rows, error := None, loading := false)
  }

  /** The store tables `load` queries, in order, for each outcome. */
  function Queries(outcome: LoadOutcome): (q: seq<string>)
    ensures outcome.MissingId? <==> q == []
    ensures outcome.OrderLoadFailed? <==> q == ["orders"]
    ensures outcome.ItemsLoadFailed? || outcome.Loaded? <==> q == ["orders", "order_items"]
  {
    match outcome
    case MissingId => []
    case OrderLoadFailed => ["orders"]
    case _ => ["orders", "order_items"]
  }

  /** `order.id.slice(0, 8)`: the short order reference the summary shows. */
  function OrderRef(id: string): (r: string)
    ensures |r| <= 8 && r <= id
    ensures |id| <= 8 ==> r == id
    ensures |id| >= 8 ==> |r| == 8
  {
    if |id| <= 8 then id else id[..8]
  }

  /** What the page shows. */
  datatype View =
    | Spinner
    | ErrorNotice(message: string)
    | NotFound
    | Summary(orderRef: string, lines: seq<ItemRow>, subtotal: int, tax: int, total: int)

  /** The rendering precedence: loading, then an error, then a missing order, then the summary. */
  function Render(s: PageState): (v: View)
    ensures v.Spinner? <==> s.loading
    ensures v.ErrorNotice? <==> !s.loading && s.error.Some? && s.error.value != ""
    ensures v.ErrorNotice? ==> v.message == s.error.value
    ensures v.NotFound? <==> !s.loading && (s.error.None? || s.error.value == "") && s.order.None?
    ensures v.Summary? ==> v.orderRef == OrderRef(s.order.value.id) && v.lines == s.items &&
                           v.tax == Tax(v.subtotal) && v.total == v.subtotal + v.tax &&
                           v.subtotal == Subtotal(s.items)
  {
    if s.loading then Spinner
    else if s.error.Some? && s.error.value != "" then ErrorNotice(s.error.value)
    else if s.order.None? then NotFound
    else
      var sub := Subtotal(s.items);
      Summary(OrderRef(s.order.value.id), s.items, sub, Tax(sub), Total(sub))
  }

  /** A missing route parameter ends in the error view, whatever the page showed before. */
  lemma MissingIdShowsError(s: PageState, orderId: Option<string>, orders: seq<Order>, orderItems: seq<OrderItem>,
                            products: map<string, Product>, ordersReachable: bool, itemsReachable: bool)
    requires Missing(orderId)
    ensures var outcome := Classify(orderId, orders, orderItems, products, ordersReachable, itemsReachable);
            Render(Settle(s, outcome)) == ErrorNotice("Missing order id.") && Queries(outcome) == []
  {
  }

  /** An unknown id is "not found", not an error, once both queries succeed. */
  lemma UnknownIdIsNotFound(s: PageState, id: string, orders: seq<Order>, orderItems: seq<OrderItem>,
                            products: map<string, Product>)
    requires id != "" && NoOrderWithId(orders, id)
    ensures Render(Settle(s, Classify(Some(id), orders, orderItems, products, true, true))) == NotFound
  {
  }

  /** A failed items query shows its error, after both tables were asked. */
  lemma ItemsQueryFailureShowsError(s: PageState, id: string, orders: seq<Order>, orderItems: seq<OrderItem>,
                                    products: map<string, Product>)
    requires id != "" && UniqueOrderIds(orders)
    ensures var outcome := Classify(Some(id), orders, orderItems, products, true, false);
            outcome.ItemsLoadFailed? &&
            Render(Settle(s, outcome)) == ErrorNotice("Failed to load order items.") &&
            Queries(outcome) == ["orders", "order_items"]
  {
  }

  /** A known id, with both queries answered, shows the summary of that order's rows. */
  lemma KnownIdShowsSummary(s: PageState, orders: seq<Order>, k: nat, orderItems: seq<OrderItem>,
                            products: map<string, Product>)
    requires k < |orders| && orders[k].id != "" && UniqueOrderIds(orders)
    ensures var rows := ItemRowsFor(orderItems, products, orders[k].id);
            var view := Render(Settle(s, Classify(Some(orders[k].id), orders, orderItems, products, true, true)));
            view == Summary(OrderRef(orders[k].id), rows, Subtotal(rows), Tax(Subtotal(rows)), Total(Subtotal(rows)))
  {
  }

  /** A failed order query shows its error and never asks for the items. */
  lemma OrderQueryFailureStops(s: PageState, id: string, orders: seq<Order>, orderItems: seq<OrderItem>,
                               products: map<string, Product>, itemsReachable: bool)
    requires id != ""
    ensures var outcome := Classify(Some(id), orders, orderItems, products, false, itemsReachable);
            Render(Settle(s, outcome)) == ErrorNotice("Failed to load order.") && Queries(outcome) == ["orders"]
  {
  }

  /**
   * The page's state and its `load` effect.  `queried` records which tables
   * the effect asked the store for, for the contracts only.
   */
  class OrderReview {
    var loading: bool
    var error: Option<string>
    var order: Option<Order>
    var items: seq<ItemRow>
    ghost var queried: seq<string>

    function State(): PageState
      reads this
    {
      PageState(loading, error, order, items)
    }

    constructor ()
      ensures State() == Mounted && queried == []
    {
      loading := true;
      error := None;
      order := None;
      items := [];
      queried := [];
    }

    /** The `load` effect for the route's `orderId`. */
    method Load(orderId: Option<string>, orders: seq<Order>, orderItems: seq<OrderItem>,
                products: map<string, Product>, ordersReachable: bool, itemsReachable: bool)
      modifies this
      ensures var outcome := Classify(orderId, orders, orderItems, products, ordersReachable, itemsReachable);
              State() == Settle(old(State()), outcome) && queried == old(queried) + Queries(outcome)
    {
      if Missing(orderId) {
        error := Some("Missing order id.");
        loading := false;
        return;
      }
      loading := true;
      error := None;
      queried := queried + ["orders"];
      var reply := FetchOrder(orders, orderId.value, ordersReachable);
      if reply.Err? {
        error := Some("Failed to load order.");
        loading := false;
        return;
      }
      order := reply.data;
      queried := queried + ["order_items"];
      if !itemsReachable {
        error := Some("Failed to load order items.");
        loading := false;
        return;
      }
      items := ItemRowsFor(orderItems, products, orderId.value);
      loading := false;
    }
  }
}

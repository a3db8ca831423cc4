/** `POST /api/orders` (app/api/orders/route.ts): insert the order as `pending`,
    insert its lines tagged with the new order's id, and delete the order again
    if the line insert fails.  The hosted database is a class whose three calls
    either succeed or fail, nondeterministically; it records every call made. */
module OrdersRoute {
  import opened Types
  import opened CheckoutValidation

  /** One entry of the request's `items` array. */
  datatype RequestItem = RequestItem(product_id: string, quantity: int, price: real)

  /** The fields the route reads from the JSON body.  `items` is None when
      `items.map` throws: the body's value is not an array, or it holds an
      entry such as `null` whose fields cannot be read. */
  datatype OrderRequest = OrderRequest(
    customer_name: string,
    customer_email: string,
    customer_phone: Option<string>,
    total_amount: real,
    items: Option<seq<RequestItem>>,
    shipping_address: Address,
    billing_address: Address,
    payment_method: string)

  /** The columns written into `orders`; the database adds `id` and `created_at`. */
  datatype NewOrder = NewOrder(
    customer_name: string,
    customer_email: string,
    customer_phone: Option<string>,
    total_amount: real,
    status: string)

  /** A call made to the database, in the order made. */
  datatype Call = OrderInsert(row: NewOrder) | ItemsInsert(rows: seq<OrderItem>) | OrderDelete(id: string)

  datatype Body = OrderBody(order: Order) | ErrorBody(error: string)

  datatype Response = Response(status: int, body: Body)

  /** The row the route inserts for a request. */
  function NewOrderFor(req: OrderRequest): (row: NewOrder)
    ensures row.status == "pending"
    ensures row.customer_name == req.customer_name && row.customer_email == req.customer_email
    ensures row.customer_phone == req.customer_phone && row.total_amount == req.total_amount
  {
    NewOrder(req.customer_name, req.customer_email, req.customer_phone, req.total_amount, "pending")
  }

  /** The addresses and the payment method are read from the body but never stored. */
  lemma AddressesAndPaymentNotStored(req: OrderRequest, ship: Address, bill: Address, pay: string)
    ensures NewOrderFor(req.(shipping_address := ship, billing_address := bill, payment_method := pay))
            == NewOrderFor(req)
  {
  }

  /** The order a successful insert of `row` returns. */
  predicate CreatedFrom(o: Order, row: NewOrder) {
    && o.customer_name == row.customer_name
    && o.customer_email == row.customer_email
    && o.customer_phone == row.customer_phone
    && o.total_amount == row.total_amount
    && o.status == row.status
  }

  /** `items.map(...)`: one row per request item, in order, under `orderId`. */
  function ItemRows(orderId: string, items: seq<RequestItem>): (rows: seq<OrderItem>)
    ensures |rows| == |items|
    ensures forall k :: 0 <= k < |items| ==> rows[k].order_id == orderId
  {
    if items == [] then []
    else [OrderItem(orderId, items[0].product_id, items[0].quantity, items[0].price)] + ItemRows(orderId, items[1..])
  }

  /** The request item a stored row was made from. */
  function RequestItemOf(row: OrderItem): RequestItem {
    RequestItem(row.product_id, row.quantity, row.price)
  }

  /** Rows and request items correspond one to one and in order: reading the
      request items back out of the rows gives the request's items. */
  lemma {:induction false} ItemRowsRoundTrip(orderId: string, items: seq<RequestItem>)
    ensures forall k :: 0 <= k < |items| ==> RequestItemOf(ItemRows(orderId, items)[k]) == items[k]
  {
    if items != [] {
      ItemRowsRoundTrip(orderId, items[1..]);
      var rows := ItemRows(orderId, items);
      assert rows[1..] == ItemRows(orderId, items[1..]);
      forall k | 0 <= k < |items|
        ensures RequestItemOf(rows[k]) == items[k]
      {
        if k > 0 {
          assert rows[k] == rows[1..][k - 1];
        }
      }
    }
  }

  /** The hosted database: the `orders` table keyed by its primary key, the
      `order_items` table, and the log of calls the route made. */
  class Database {
    var orders: map<string, Order>
    var items: seq<OrderItem>
    var calls: seq<Call>

    /** Keys agree with rows, and every stored line belongs to a stored order. */
    ghost predicate Valid()
      reads this
    {
      && (forall id :: id in orders ==> orders[id].id == id)
      && (forall k :: 0 <= k < |items| ==> items[k].order_id in orders)
    }

    constructor ()
      ensures Valid() && orders == map[] && items == [] && calls == []
    {
      orders, items, calls := map[], [], [];
    }

    /** `from("orders").insert(row).select().single()`: on success the new
        row, under a key not used before. */
    method InsertOrder(row: NewOrder) returns (created: Option<Order>)
      requires Valid()
      modifies this
      ensures Valid()
      ensures calls == old(calls) + [OrderInsert(row)] && items == old(items)
      ensures created.None? ==> orders == old(orders)
      ensures created.Some? ==> && created.value.id !in old(orders)
                                && CreatedFrom(created.value, row)
                                && orders == old(orders)[created.value.id := created.value]
    {
      calls := calls + [OrderInsert(row)];
      var ok: bool := *;
      var id: string := *;
      var at: Timestamp := *;
      if ok && id !in orders {
        var o := Order(id, row.customer_name, row.customer_email, row.customer_phone, row.total_amount, row.status, at);
        orders := orders[id := o];
        created := Some(o);
      } else {
        created := None;
      }
    }

    /** `from("order_items").insert(rows)`: all rows or none; a row whose
        order does not exist makes the whole insert fail. */
    method InsertItems(rows: seq<OrderItem>) returns (ok: bool)
      requires Valid()
      modifies this
      ensures Valid()
      ensures calls == old(calls) + [ItemsInsert(rows)] && orders == old(orders)
      ensures ok ==> items == old(items) + rows
      ensures !ok ==> items == old(items)
    {
      calls := calls + [ItemsInsert(rows)];
      ok := *;
      if ok && forall k :: 0 <= k < |rows| ==> rows[k].order_id in orders {
        items := items + rows;
      } else {
        ok := false;
      }
    }

    /** `from("orders").delete().eq("id", id)`: removes the order unless the
        request fails or a stored line still refers to it. */
    method DeleteOrder(id: string) returns (ok: bool)
      requires Valid()
      modifies this
      ensures Valid()
      ensures calls == old(calls) + [OrderDelete(id)] && items == old(items)
      ensures ok ==> orders == old(orders) - {id}
      ensures !ok ==> orders == old(orders)
    {
      calls := calls + [OrderDelete(id)];
      ok := *;
      if ok && forall k :: 0 <= k < |items| ==> items[k].order_id != id {
        orders := orders - {id};
      } else {
        ok := false;
      }
    }
  }

  /** The route handler.  `body` is None when `request.json()` fails.  The
      ghost result `created` is the order the first insert returned, if any. */
  method Post(db: Database, body: Option<OrderRequest>) returns (resp: Response, ghost created: Option<Order>)
    requires db.Valid()
    modifies db
    ensures db.Valid()
    ensures resp.status == 200 || resp.status == 500
    // the body cannot be read: nothing is attempted
    ensures body.None? ==> && resp == Response(500, ErrorBody("Internal server error"))
                           && created.None?
                           && db.orders == old(db.orders) && db.items == old(db.items) && db.calls == old(db.calls)
    // the order insert fails: no line insert is attempted
    ensures body.Some? && created.None? ==>
              && resp == Response(500, ErrorBody("Failed to create order"))
              && db.orders == old(db.orders) && db.items == old(db.items)
              && db.calls == old(db.calls) + [OrderInsert(NewOrderFor(body.value))]
    // an order was created: it is pending, fresh, and holds the request's customer fields
    ensures created.Some? ==> && body.Some?
                              && created.value.id !in old(db.orders)
                              && CreatedFrom(created.value, NewOrderFor(body.value))
    // `items` is not an array: the exception leaves the order behind, with no lines
    ensures created.Some? && body.value.items.None? ==>
              && resp == Response(500, ErrorBody("Internal server error"))
              && db.orders == old(db.orders)[created.value.id := created.value]
              && db.items == old(db.items)
              && db.calls == old(db.calls) + [OrderInsert(NewOrderFor(body.value))]
    // the line insert fails: exactly one delete of that order, whatever its outcome
    ensures created.Some? && body.value.items.Some? && resp.status == 500 ==>
              && resp == Response(500, ErrorBody("Failed to create order items"))
              && db.items == old(db.items)
              && db.calls == old(db.calls) + [OrderInsert(NewOrderFor(body.value)),
                                              ItemsInsert(ItemRows(created.value.id, body.value.items.value)),
                                              OrderDelete(created.value.id)]
              && (db.orders == old(db.orders) || db.orders == old(db.orders)[created.value.id := created.value])
    // success: the order and all of its lines are stored, and the order is returned
    ensures resp.status == 200 ==>
              && created.Some? && body.value.items.Some?
              && resp == Response(200, OrderBody(created.value))
              && db.orders == old(db.orders)[created.value.id := created.value]
              && db.items == old(db.items) + ItemRows(created.value.id, body.value.items.value)
              && db.calls == old(db.calls) + [OrderInsert(NewOrderFor(body.value)),
                                              ItemsInsert(ItemRows(created.value.id, body.value.items.value))]
  {
    created := None;
    if body.None? {
      return Response(500, ErrorBody("Internal server error")), created;
    }
    var req := body.value;
    var order := db.InsertOrder(NewOrderFor(req));
    created := order;
    if order.None? {
      return Response(500, ErrorBody("Failed to create order")), created;
    }
    if req.items.None? {
      return Response(500, ErrorBody("Internal server error")), created;
    }
    var rows := ItemRows(order.value.id, req.items.value);
    var itemsOk := db.InsertItems(rows);
    if !itemsOk {
      ghost var before := db.orders;
      var _ := db.DeleteOrder(order.value.id);
      assert db.orders != before ==> db.orders == before - {order.value.id};
      assert before - {order.value.id} == old(db.orders);
      return Response(500, ErrorBody("Failed to create order items")), created;
    }
    resp := Response(200, OrderBody(order.value));
  }
}

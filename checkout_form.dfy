/** The checkout form (components/checkout-form.tsx): its default values, the
    schema check in front of `onSubmit`, and `onSubmit` itself, which refuses
    an empty cart, posts the order built from the cart lines, and then either
    clears the cart and navigates to the confirmation page or alerts.  The
    reply to the request is a parameter; alerts, the request and navigation
    are recorded as events. */
module CheckoutForm {
  import opened Types
  import opened CheckoutValidation
  import opened OrdersRoute
  import opened CartStore
  import OrderSummary
  import OrderDetails

  const EmptyCartNotice := "Your cart is empty!"
  const OrderErrorNotice := "There was an error processing your order. Please try again."
  const DefaultCountry := "United States"

  /** An address whose inputs hold nothing but the default country. */
  const DefaultAddress := Address("", "", "", "", DefaultCountry)

  /** `defaultValues`.  A string field with no default value holds the empty
      string here, whether its input was rendered and left untouched (where
      the form holds "") or never rendered at all (where it holds nothing);
      there are no card details until they are entered. */
  const DefaultValues := CheckoutInput("", "", "", DefaultAddress, DefaultAddress, Some(true), Some("card"), None)

  /** `items.map(item => ({ product_id, quantity, price }))` */
  function PayloadItems(lines: seq<CartItem>): (r: seq<RequestItem>)
    ensures |r| == |lines|
    ensures forall k :: 0 <= k < |lines| ==>
              r[k] == RequestItem(lines[k].product.id, lines[k].quantity, lines[k].product.price)
  {
    if lines == [] then []
    else [RequestItem(lines[0].product.id, lines[0].quantity, lines[0].product.price)] + PayloadItems(lines[1..])
  }

  /** `orderData`: the body posted to the order route. */
  function OrderPayload(data: CheckoutData, lines: seq<CartItem>, total: real, sameAsShipping: bool): (req: OrderRequest)
    ensures req.total_amount == total
    ensures req.items == Some(PayloadItems(lines))
    ensures req.billing_address == if sameAsShipping then data.shippingAddress else data.billingAddress
    ensures req.shipping_address == data.shippingAddress && req.payment_method == data.paymentMethod.Name()
    ensures req.customer_name == data.customerName && req.customer_email == data.customerEmail
    ensures req.customer_phone == Some(data.customerPhone)
  {
    OrderRequest(
      data.customerName, data.customerEmail, Some(data.customerPhone),
      total,
      Some(PayloadItems(lines)),
      data.shippingAddress,
      if sameAsShipping then data.shippingAddress else data.billingAddress,
      data.paymentMethod.Name())
  }

  /** End to end: when the order route stores the payload's lines under an
      order id, each stored line is the matching cart line's product id,
      quantity and price at submission time, in cart order. */
  lemma {:induction false} CartLinesReachStore(data: CheckoutData, lines: seq<CartItem>, total: real,
                                               same: bool, orderId: string)
    ensures var rows := ItemRows(orderId, OrderPayload(data, lines, total, same).items.value);
            && |rows| == |lines|
            && forall k :: 0 <= k < |lines| ==>
                 rows[k] == OrderItem(orderId, lines[k].product.id, lines[k].quantity, lines[k].product.price)
  {
    var items := PayloadItems(lines);
    ItemRowsRoundTrip(orderId, items);
    var rows := ItemRows(orderId, items);
    forall k | 0 <= k < |lines|
      ensures rows[k] == OrderItem(orderId, lines[k].product.id, lines[k].quantity, lines[k].product.price)
    {
      assert RequestItemOf(rows[k]) == items[k];
    }
  }

  /** The line totals the order details page shows for the stored lines are
      the cart lines' price times quantity. */
  lemma StoredLineTotals(data: CheckoutData, lines: seq<CartItem>, total: real, same: bool, orderId: string)
    ensures var rows := ItemRows(orderId, OrderPayload(data, lines, total, same).items.value);
            forall k :: 0 <= k < |rows| ==>
              OrderDetails.LineTotal(rows[k]) == lines[k].product.price * lines[k].quantity as real
  {
    CartLinesReachStore(data, lines, total, same, orderId);
  }

  /** The order is charged the cart subtotal, not the total the summary shows
      beside the form: for a positive subtotal the stored amount is less
      than the summary's total, with the component's threshold or the one
      its hint implies. */
  lemma ChargedTotalIsSubtotal(data: CheckoutData, lines: seq<CartItem>, subtotal: real, same: bool)
    requires subtotal > 0.0
    ensures OrderPayload(data, lines, subtotal, same).total_amount == subtotal
    ensures OrderPayload(data, lines, subtotal, same).total_amount < OrderSummary.Summarize(subtotal).total
    ensures OrderPayload(data, lines, subtotal, same).total_amount < OrderSummary.SummarizeIntended(subtotal).total
  {
  }

  /** The default choices agree with the schema: as long as the customer
      changes only typed inputs, the payment method and both countries never
      draw an issue, and an accepted form is paid by card with billing taken
      from the shipping address. */
  lemma DefaultsAgreeWithSchema(v: CheckoutInput, isEmail: string -> bool)
    requires v.sameAsShipping == DefaultValues.sameAsShipping && v.paymentMethod == DefaultValues.paymentMethod
    requires v.shippingAddress.country == DefaultCountry && v.billingAddress.country == DefaultCountry
    ensures PaymentMethodIssues(v.paymentMethod) == []
    ensures MinLength("shippingAddress.country", v.shippingAddress.country, 2, "Country is required") == []
    ensures MinLength("billingAddress.country", v.billingAddress.country, 2, "Country is required") == []
    ensures Parse(v, isEmail).Some? ==>
              Parse(v, isEmail).value.paymentMethod == Card && Parse(v, isEmail).value.sameAsShipping
  {
    assert PaymentMethodNamed("card") == Some(Card);
  }

  /** While "same as shipping" stays ticked the billing inputs are never
      shown, so the billing values keep only the default country; the schema
      refuses every such form, with an issue filed under the billing street
      input, which is not on the page. */
  lemma HiddenBillingBlocksSubmit(v: CheckoutInput, isEmail: string -> bool)
    requires v.billingAddress == DefaultAddress
    ensures Parse(v, isEmail).None?
    ensures exists i :: i in Issues(v, isEmail) && i.path == "billingAddress.street"
  {
    assert AddressIssues("billingAddress", v.billingAddress)[0] ==
           Issue("billingAddress.street", "Street address is required");
  }

  /** With the intended schema, the same form is accepted as soon as the
      visible inputs are valid, and it posts the shipping address as billing. */
  lemma IntendedAcceptsHiddenBilling(v: CheckoutInput, isEmail: string -> bool)
    requires v.billingAddress == DefaultAddress && v.sameAsShipping == Some(true)
    requires Parse(v.(billingAddress := v.shippingAddress), isEmail).Some?
    ensures Parse(v, isEmail).None?
    ensures ParseIntended(v, isEmail).Some?
    ensures ParseIntended(v, isEmail).value.billingAddress == v.shippingAddress
  {
    HiddenBillingBlocksSubmit(v, isEmail);
  }

  datatype Event =
    | Alert(message: string)
    | OrderPosted(payload: OrderRequest, whileSubmitting: bool)
    | Navigated(path: string)

  /** The reply that leads to the success path: ok, with an order in the body. */
  predicate Succeeded(reply: Reply<Order>) {
    reply.Responded? && reply.ok && reply.json.Some?
  }

  /** The component: react-hook-form's values, `isSubmitting`, and the cart store. */
  class CheckoutForm {
    const cart: Cart
    var values: CheckoutInput
    var isSubmitting: bool
    var events: seq<Event>

    /** The checkbox and the radio group always hold a value. */
    ghost predicate Valid()
      reads this
    {
      values.sameAsShipping.Some? && values.paymentMethod.Some?
    }

    /** The form starts from its `defaultValues`. */
    constructor (cart: Cart)
      ensures Valid()
      ensures this.cart == cart && values == DefaultValues && !isSubmitting && events == []
    {
      this.cart := cart;
      values := DefaultValues;
      isSubmitting := false;
      events := [];
    }

    /** `watch("sameAsShipping")`; it is the flag the schema parses. */
    predicate SameAsShipping(): (b: bool)
      reads this
      ensures Valid() ==> (b <==> values.sameAsShipping.GetOr(true))
    {
      values.sameAsShipping == Some(true)
    }

    /** The checkbox's `onCheckedChange`: `setValue("sameAsShipping", checked)`. */
    method SetSameAsShipping(checked: bool)
      modifies this
      ensures old(Valid()) ==> Valid()
      ensures SameAsShipping() == checked
      ensures values == old(values).(sameAsShipping := Some(checked))
      ensures isSubmitting == old(isSubmitting) && events == old(events)
    {
      values := values.(sameAsShipping := Some(checked));
    }

    /** The radio group's `onValueChange`: `setValue("paymentMethod", value)`. */
    method SetPaymentMethod(m: PaymentMethod)
      modifies this
      ensures old(Valid()) ==> Valid()
      ensures PaymentMethodIssues(values.paymentMethod) == []
      ensures values == old(values).(paymentMethod := Some(m.Name()))
      ensures isSubmitting == old(isSubmitting) && events == old(events)
    {
      values := values.(paymentMethod := Some(m.Name()));
      PaymentMethodRoundTrip(m, m.Name());
    }

    /** Typing into the customer inputs, which are always shown. */
    method EnterCustomer(name: string, email: string, phone: string)
      modifies this
      ensures Valid() <==> old(Valid())
      ensures values == old(values).(customerName := name, customerEmail := email, customerPhone := phone)
      ensures isSubmitting == old(isSubmitting) && events == old(events)
    {
      values := values.(customerName := name, customerEmail := email, customerPhone := phone);
    }

    /** Typing into the shipping address inputs, which are always shown. */
    method EnterShippingAddress(a: Address)
      modifies this
      ensures Valid() <==> old(Valid())
      ensures values == old(values).(shippingAddress := a)
      ensures isSubmitting == old(isSubmitting) && events == old(events)
    {
      values := values.(shippingAddress := a);
    }

    /** Typing into the billing inputs, which exist only while "same as
        shipping" is unticked: otherwise there is nothing to type into. */
    method EnterBillingAddress(a: Address)
      modifies this
      ensures Valid() <==> old(Valid())
      ensures values == if old(SameAsShipping()) then old(values) else old(values).(billingAddress := a)
      ensures isSubmitting == old(isSubmitting) && events == old(events)
    {
      if !SameAsShipping() {
        values := values.(billingAddress := a);
      }
    }

    /** Typing into the card inputs, which exist only while the card method is chosen. */
    method EnterCardDetails(c: CardDetails)
      modifies this
      ensures Valid() <==> old(Valid())
      ensures values == if old(values.paymentMethod) == Some("card") then old(values).(cardDetails := Some(c))
                        else old(values)
      ensures isSubmitting == old(isSubmitting) && events == old(events)
    {
      if values.paymentMethod == Some("card") {
        values := values.(cardDetails := Some(c));
      }
    }

    /** `onSubmit(data)`.  `reply` is what the request to `/api/orders` gives
        back; the billing address sent follows the watched checkbox value. */
    method OnSubmit(data: CheckoutData, reply: Reply<Order>)
      modifies this, cart
      ensures values == old(values)
      ensures cart.addRequests == old(cart.addRequests)
      // an empty cart: a notice, no request, nothing else changes
      ensures old(cart.items) == [] ==>
                && events == old(events) + [Alert(EmptyCartNotice)]
                && isSubmitting == old(isSubmitting)
                && cart.items == old(cart.items) && cart.totalPrice == old(cart.totalPrice)
      // otherwise one request, sent while submitting, and submitting is over afterwards
      ensures old(cart.items) != [] ==>
                && !isSubmitting
                && |events| == |old(events)| + 2
                && events[..|old(events)|] == old(events)
                && events[|old(events)|] ==
                   OrderPosted(OrderPayload(data, old(cart.items), old(cart.totalPrice), old(SameAsShipping())), true)
      ensures old(cart.items) != [] && Succeeded(reply) ==>
                && cart.items == []
                && events[|old(events)| + 1] == Navigated("/order-confirmation/" + reply.json.value.id)
      ensures old(cart.items) != [] && !Succeeded(reply) ==>
                && cart.items == old(cart.items) && cart.totalPrice == old(cart.totalPrice)
                && events[|old(events)| + 1] == Alert(OrderErrorNotice)
    {
      if cart.items == [] {
        events := events + [Alert(EmptyCartNotice)];
        return;
      }
      isSubmitting := true;
      var orderData := OrderPayload(data, cart.items, cart.GetTotalPrice(), SameAsShipping());
      events := events + [OrderPosted(orderData, isSubmitting)];
      if Succeeded(reply) {
        cart.ClearCart();
        events := events + [Navigated("/order-confirmation/" + reply.json.value.id)];
      } else {
        events := events + [Alert(OrderErrorNotice)];
      }
      isSubmitting := false;
    }

    /** `handleSubmit(onSubmit)`: the schema parses the form values, and
        `onSubmit` runs only when it accepts them.  The posted order carries
        exactly the parsed values, with billing chosen by the parsed flag. */
    method Submit(isEmail: string -> bool, reply: Reply<Order>)
      requires Valid()
      modifies this, cart
      ensures values == old(values)
      ensures Parse(old(values), isEmail).None? ==>
                && events == old(events) && isSubmitting == old(isSubmitting)
                && cart.items == old(cart.items) && cart.totalPrice == old(cart.totalPrice)
      ensures old(values).billingAddress == DefaultAddress ==> events == old(events) && cart.items == old(cart.items)
      ensures Parse(old(values), isEmail).Some? && old(cart.items) == [] ==>
                && events == old(events) + [Alert(EmptyCartNotice)]
                && isSubmitting == old(isSubmitting)
                && cart.items == old(cart.items) && cart.totalPrice == old(cart.totalPrice)
      ensures Parse(old(values), isEmail).Some? && old(cart.items) != [] ==>
                var data := Parse(old(values), isEmail).value;
                && !isSubmitting
                && |events| == |old(events)| + 2
                && events[..|old(events)|] == old(events)
                && events[|old(events)|] ==
                   OrderPosted(OrderPayload(data, old(cart.items), old(cart.totalPrice), data.sameAsShipping), true)
                && (Succeeded(reply) <==> cart.items == [])
      ensures Parse(old(values), isEmail).Some? && old(cart.items) != [] && Succeeded(reply) ==>
                events[|old(events)| + 1] == Navigated("/order-confirmation/" + reply.json.value.id)
      ensures Parse(old(values), isEmail).Some? && old(cart.items) != [] && !Succeeded(reply) ==>
                && cart.items == old(cart.items) && cart.totalPrice == old(cart.totalPrice)
                && events[|old(events)| + 1] == Alert(OrderErrorNotice)
    {
      if values.billingAddress == DefaultAddress {
        HiddenBillingBlocksSubmit(values, isEmail);
      }
      var parsed := Parse(values, isEmail);
      if parsed.None? {
        return;
      }
      OnSubmit(parsed.value, reply);
    }
  }
}

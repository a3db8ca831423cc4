/** The order details panel (components/order-details.tsx): the status colour,
    the status label, the order number and the amounts it shows. */
module OrderDetails {
  import opened Types
  import opened Strings
  import OrderSummary

  const GrayColor := "bg-gray-500"

  /** The five statuses the application knows, in the order it lists them. */
  const KnownStatuses: seq<string> := ["pending", "processing", "shipped", "delivered", "cancelled"]

  /** `getStatusColor`: one colour per known status, gray for anything else. */
  function StatusColor(status: string): (c: string)
    ensures c == GrayColor <==> status !in KnownStatuses
    ensures status == "pending" ==> c == "bg-yellow-500"
    ensures status == "processing" ==> c == "bg-blue-500"
    ensures status == "shipped" ==> c == "bg-purple-500"
    ensures status == "delivered" ==> c == "bg-green-500"
    ensures status == "cancelled" ==> c == "bg-red-500"
  {
    match status
    case "pending" => "bg-yellow-500"
    case "processing" => "bg-blue-500"
    case "shipped" => "bg-purple-500"
    case "delivered" => "bg-green-500"
    case "cancelled" => "bg-red-500"
    case _ => GrayColor
  }

  /** Different known statuses never share a colour. */
  lemma StatusColorsDistinct(s: string, t: string)
    requires s in KnownStatuses && t in KnownStatuses && s != t
    ensures StatusColor(s) != StatusColor(t)
  {
  }

  /** `status.charAt(0).toUpperCase() + status.slice(1)` */
  function StatusLabel(status: string): (r: string)
    ensures |r| == |status|
    ensures |status| > 0 ==> r[0] == UpperChar(status[0]) && r[1..] == status[1..]
  {
    if status == "" then "" else [UpperChar(status[0])] + status[1..]
  }

  /** Only the first character differs, and labelling a label changes nothing. */
  lemma StatusLabelIdempotent(status: string)
    ensures StatusLabel(StatusLabel(status)) == StatusLabel(status)
    ensures forall i :: 1 <= i < |status| ==> StatusLabel(status)[i] == status[i]
  {
  }

  /** `id.slice(0, 8).toUpperCase()` */
  function OrderNumber(id: string): (r: string)
    ensures |r| == if |id| < 8 then |id| else 8
    ensures forall i :: 0 <= i < |r| ==> r[i] == UpperChar(id[i])
  {
    Upper(Take(id, 8))
  }

  /** Ids that agree on their first eight characters up to case show the same order number. */
  lemma OrderNumberIgnoresTail(a: string, b: string)
    requires |a| >= 8 && |b| >= 8 && Upper(a[..8]) == Upper(b[..8])
    ensures OrderNumber(a) == OrderNumber(b)
  {
  }

  /** `item.price * item.quantity` */
  function LineTotal(item: OrderItem): (t: real)
    ensures item.quantity == 0 ==> t == 0.0
    ensures item.price >= 0.0 && item.quantity >= 0 ==> t >= 0.0
  {
    item.price * item.quantity as real
  }

  /** The order summary block: the items amount, the shipping line and the total. */
  datatype Totals = Totals(items: real, shipping: string, total: real)

  function TotalsOf(o: Order): (t: Totals)
    ensures t.shipping == "Free"
    ensures t.items == o.total_amount && t.total == o.total_amount
  {
    Totals(o.total_amount, "Free", o.total_amount)
  }

  /** The panel shows free shipping and the stored amount as the total, so an
      order whose subtotal the cart summary charged shipping on is shown with
      neither the shipping nor the tax that summary added. */
  lemma TotalsOmitSummaryCharges(o: Order)
    requires 0.0 < o.total_amount <= OrderSummary.FreeShippingThreshold
    ensures TotalsOf(o).shipping == "Free"
    ensures OrderSummary.Summarize(o.total_amount).shipping == OrderSummary.ShippingFee
    ensures TotalsOf(o).total < OrderSummary.Summarize(o.total_amount).total
  {
  }
}

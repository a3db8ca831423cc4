/** The admin order list (components/order-list.tsx): the status table, the
    badge looked up in it, the search and status filter, and the status
    update that asks the server first and then tells the dashboard. */
module OrderList {
  import opened Types
  import opened Strings
  import opened Sequences
  import opened OrderDetails
  import AdminDashboard

  /** One entry of `ORDER_STATUSES`; `text` is the entry's `label`. */
  datatype StatusConfig = StatusConfig(value: string, text: string, color: string)

  const OrderStatuses: seq<StatusConfig> := [
    StatusConfig("pending", "Pending", "bg-yellow-500"),
    StatusConfig("processing", "Processing", "bg-blue-500"),
    StatusConfig("shipped", "Shipped", "bg-purple-500"),
    StatusConfig("delivered", "Delivered", "bg-green-500"),
    StatusConfig("cancelled", "Cancelled", "bg-red-500")
  ]

  /** `table.find(s => s.value === status)`: the first entry with that value. */
  function FindIn(table: seq<StatusConfig>, status: string): (r: Option<StatusConfig>)
    ensures r.Some? ==> r.value in table && r.value.value == status
    ensures r.None? <==> forall c :: c in table ==> c.value != status
  {
    if table == [] then None
    else if table[0].value == status then Some(table[0])
    else FindIn(table[1..], status)
  }

  /** The entry found is the first one with that value. */
  lemma {:induction false} FindInFirst(table: seq<StatusConfig>, status: string)
    ensures FindIn(table, status).Some? ==>
              exists k :: 0 <= k < |table| && table[k] == FindIn(table, status).value &&
                          forall j :: 0 <= j < k ==> table[j].value != status
  {
    if table != [] && table[0].value != status {
      FindInFirst(table[1..], status);
      if FindIn(table, status).Some? {
        var k :| 0 <= k < |table| - 1 && table[1..][k] == FindIn(table, status).value &&
                 forall j :: 0 <= j < k ==> table[1..][j].value != status;
        assert table[k + 1] == FindIn(table, status).value;
        assert forall j :: 0 <= j < k + 1 ==> table[j].value != status by {
          forall j | 0 <= j < k + 1 ensures table[j].value != status {
            if j > 0 { assert table[j] == table[1..][j - 1]; }
          }
        }
      }
    } else if table != [] {
      assert table[0] == FindIn(table, status).value;
    }
  }

  function FindStatus(status: string): (r: Option<StatusConfig>)
    ensures r.Some? ==> r.value in OrderStatuses && r.value.value == status
    ensures r.None? <==> status !in KnownStatuses
  {
    FindIn(OrderStatuses, status)
  }

  /** JavaScript's `a || b` on strings: `b` when `a` is empty or absent. */
  function OrElse(a: string, b: string): string {
    if a == "" then b else a
  }

  datatype Badge = Badge(color: string, text: string)

  /** `getStatusBadge`: the table's colour and label, or gray and the raw status. */
  function StatusBadge(status: string): (b: Badge)
    ensures status !in KnownStatuses ==> b == Badge(GrayColor, status)
    ensures status in KnownStatuses ==> b == Badge(FindStatus(status).value.color, FindStatus(status).value.text)
  {
    var c := FindStatus(status);
    Badge(OrElse(if c.Some? then c.value.color else "", GrayColor),
          OrElse(if c.Some? then c.value.text else "", status))
  }

  /** The list's badge and the details panel agree on every status's colour,
      and on the label of every known status; an unknown status is labelled
      raw in the list and capitalised in the panel. */
  lemma BadgeAgreesWithDetails(status: string)
    ensures StatusBadge(status).color == StatusColor(status)
    ensures status in KnownStatuses ==> StatusBadge(status).text == StatusLabel(status)
    ensures status !in KnownStatuses ==> StatusBadge(status).text == status
  {
    if status in KnownStatuses {
      var c := FindStatus(status).value;
      assert c in OrderStatuses;
      assert StatusLabel(c.value) == c.text by {
        assert c.value[1..] == c.text[1..];
      }
    }
  }

  /** `matchesSearch`: the lower-cased term occurs in the lower-cased name, e-mail or id. */
  predicate MatchesSearch(o: Order, term: string) {
    || Includes(Lower(o.customer_name), Lower(term))
    || Includes(Lower(o.customer_email), Lower(term))
    || Includes(Lower(o.id), Lower(term))
  }

  /** `matchesStatus` */
  predicate MatchesStatus(o: Order, filter: string) {
    filter == "all" || o.status == filter
  }

  /** `filteredOrders`: the orders that match both, in their original order. */
  function FilterOrders(s: seq<Order>, term: string, filter: string): (r: seq<Order>)
    ensures IsSubsequence(r, s)
    ensures forall o :: o in r ==> MatchesSearch(o, term) && MatchesStatus(o, filter)
    ensures forall o :: o in s && MatchesSearch(o, term) && MatchesStatus(o, filter) ==> o in r
    ensures forall o :: multiset(r)[o] ==
                        if MatchesSearch(o, term) && MatchesStatus(o, filter) then multiset(s)[o] else 0
  {
    if s == [] then []
    else
      var rest := FilterOrders(s[1..], term, filter);
      assert s == [s[0]] + s[1..];
      if MatchesSearch(s[0], term) && MatchesStatus(s[0], filter) then [s[0]] + rest
      else
        assert rest != [] ==> rest[0] in rest;
        rest
  }

  /** A status filter other than "all" keeps only orders with that status. */
  lemma FilterByStatus(s: seq<Order>, term: string, filter: string)
    requires filter != "all"
    ensures forall o :: o in FilterOrders(s, term, filter) ==> o.status == filter
  {
  }

  /** An empty search with the "all" filter shows every order. */
  lemma {:induction false} FilterKeepsAll(s: seq<Order>)
    ensures FilterOrders(s, "", "all") == s
  {
    if s != [] {
      assert Lower("") == "";
      IncludesEmpty(Lower(s[0].customer_name));
      FilterKeepsAll(s[1..]);
      assert s == [s[0]] + s[1..];
    }
  }

  /** The search ignores case: terms equal up to case filter alike, so an
      upper-cased term finds the same orders. */
  lemma {:induction false} FilterIgnoresCase(s: seq<Order>, t: string, u: string, filter: string)
    requires Lower(t) == Lower(u)
    ensures FilterOrders(s, t, filter) == FilterOrders(s, u, filter)
  {
    if s != [] {
      FilterIgnoresCase(s[1..], t, u, filter);
    }
  }

  lemma UpperCasedSearch(s: seq<Order>, t: string, filter: string)
    ensures FilterOrders(s, Upper(t), filter) == FilterOrders(s, t, filter)
  {
    LowerOfUpper(t);
    FilterIgnoresCase(s, Upper(t), t, filter);
  }

  /** Searching for the order number a card shows finds that order. */
  lemma {:induction false} OrderNumberFindsOrder(o: Order)
    ensures MatchesSearch(o, OrderNumber(o.id))
  {
    var id := o.id;
    LowerOfUpper(Take(id, 8));
    LowerTake(id, 8);
    var t := Lower(Take(id, 8));
    assert OccursAt(Lower(id), t, 0);
  }

  datatype Event =
    | StatusPut(orderId: string, status: string, updating: Option<string>)
    | Alert(message: string)

  const StatusErrorNotice := "There was an error updating the order status. Please try again."

  /** The reply that counts as success: `response.ok`. */
  predicate IsOk(reply: Reply<Order>) {
    reply.Responded? && reply.ok
  }

  class OrderListView {
    const dashboard: AdminDashboard.Dashboard
    var searchTerm: string
    var statusFilter: string
    var updatingStatus: Option<string>
    var selectedOrder: Option<Order>
    var events: seq<Event>

    /** The initial state: no search, the "all" filter, nothing in progress. */
    constructor (dashboard: AdminDashboard.Dashboard)
      ensures this.dashboard == dashboard && events == []
      ensures searchTerm == "" && statusFilter == "all" && updatingStatus == None && selectedOrder == None
    {
      this.dashboard := dashboard;
      searchTerm := "";
      statusFilter := "all";
      updatingStatus := None;
      selectedOrder := None;
      events := [];
    }

    /** The orders shown: those of the dashboard the search and filter keep. */
    function FilteredOrders(): (r: seq<Order>)
      reads this, dashboard
      ensures IsSubsequence(r, dashboard.orders)
      ensures searchTerm == "" && statusFilter == "all" ==> r == dashboard.orders
    {
      FilterKeepsAll(dashboard.orders);
      FilterOrders(dashboard.orders, searchTerm, statusFilter)
    }

    /** The status select of an order is disabled exactly while its own
        update runs, so at most one order's select, by id, is disabled at a time. */
    predicate StatusSelectDisabled(o: Order): (b: bool)
      reads this
      ensures b <==> updatingStatus == Some(o.id)
      ensures b ==> forall q: Order :: q.id != o.id ==> updatingStatus != Some(q.id)
    {
      updatingStatus == Some(o.id)
    }

    method SetSearchTerm(t: string)
      modifies this
      ensures searchTerm == t && statusFilter == old(statusFilter) && updatingStatus == old(updatingStatus)
      ensures selectedOrder == old(selectedOrder) && events == old(events)
    {
      searchTerm := t;
    }

    method SetStatusFilter(f: string)
      modifies this
      ensures statusFilter == f && searchTerm == old(searchTerm) && updatingStatus == old(updatingStatus)
      ensures selectedOrder == old(selectedOrder) && events == old(events)
    {
      statusFilter := f;
    }

    /** The eye button opens the details panel for an order; closing it clears the choice. */
    method SelectOrder(o: Option<Order>)
      modifies this
      ensures selectedOrder == o && searchTerm == old(searchTerm) && statusFilter == old(statusFilter)
      ensures updatingStatus == old(updatingStatus) && events == old(events)
    {
      selectedOrder := o;
    }

    /** `handleStatusUpdate`: the request is sent while `updatingStatus` names
        the order; only an ok reply reaches the dashboard, any other reply
        alerts; afterwards no update is in progress. */
    method HandleStatusUpdate(orderId: string, newStatus: string, reply: Reply<Order>)
      modifies this, dashboard
      ensures updatingStatus == None && forall q :: !StatusSelectDisabled(q)
      ensures searchTerm == old(searchTerm) && statusFilter == old(statusFilter) && selectedOrder == old(selectedOrder)
      ensures IsOk(reply) ==> events == old(events) + [StatusPut(orderId, newStatus, Some(orderId))]
      ensures !IsOk(reply) ==> events == old(events) + [StatusPut(orderId, newStatus, Some(orderId)), Alert(StatusErrorNotice)]
      ensures IsOk(reply) ==> dashboard.orders == AdminDashboard.SetStatusById(old(dashboard.orders), orderId, newStatus)
      ensures !IsOk(reply) ==> dashboard.orders == old(dashboard.orders)
      ensures dashboard.products == old(dashboard.products) && dashboard.showAddForm == old(dashboard.showAddForm)
      ensures dashboard.editingProduct == old(dashboard.editingProduct)
    {
      updatingStatus := Some(orderId);
      events := events + [StatusPut(orderId, newStatus, updatingStatus)];
      if IsOk(reply) {
        dashboard.HandleOrderStatusUpdated(orderId, newStatus);
      } else {
        events := events + [Alert(StatusErrorNotice)];
      }
      updatingStatus := None;
    }
  }
}

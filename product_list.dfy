/** The admin product grid (components/product-list.tsx): the stock badges,
    the delete button's state, and the delete that asks for confirmation,
    then the server, and only then tells the dashboard. */
module ProductList {
  import opened Types
  import AdminDashboard

  /** `product.stock <= 10 && product.stock > 0` */
  predicate LowStockBadge(stock: int) {
    stock <= 10 && stock > 0
  }

  /** `product.stock === 0` */
  predicate OutOfStockBadge(stock: int) {
    stock == 0
  }

  /** The two badges never show together. */
  lemma BadgesExclusive(stock: int)
    ensures !(LowStockBadge(stock) && OutOfStockBadge(stock))
  {
  }

  /** The products that carry either badge. */
  function BadgedCount(s: seq<Product>): (n: nat)
    ensures n <= |s|
  {
    if s == [] then 0
    else (if LowStockBadge(s[0].stock) || OutOfStockBadge(s[0].stock) then 1 else 0) + BadgedCount(s[1..])
  }

  /** For non-negative stocks the dashboard's low-stock statistic is the
      number of products the grid marks with a badge. */
  lemma {:induction false} LowStockCountIsBadged(s: seq<Product>)
    requires forall p :: p in s ==> p.stock >= 0
    ensures AdminDashboard.LowStockCount(s) == BadgedCount(s)
  {
    if s != [] {
      assert s[0] in s;
      assert forall p :: p in s[1..] ==> p in s;
      LowStockCountIsBadged(s[1..]);
    }
  }

  /** A negative stock is counted as low but shows no badge. */
  lemma NegativeStockUnbadged(p: Product)
    requires p.stock < 0
    ensures AdminDashboard.LowStockCount([p]) == 1 && BadgedCount([p]) == 0
  {
  }

  datatype Event =
    | ConfirmAsked(message: string)
    | DeleteRequested(productId: string, deleting: Option<string>)
    | Alert(message: string)

  const DeleteErrorNotice := "There was an error deleting the product. Please try again."

  const ConfirmPrefix := "Are you sure you want to delete \""
  const ConfirmSuffix := "\"?"

  /** The question `confirm` shows: the product's name, quoted, inside a fixed question. */
  function ConfirmMessage(name: string): (r: string)
    ensures |r| == |ConfirmPrefix| + |name| + |ConfirmSuffix|
    ensures r[..|ConfirmPrefix|] == ConfirmPrefix && r[|r| - |ConfirmSuffix|..] == ConfirmSuffix
    ensures r[|ConfirmPrefix|..|r| - |ConfirmSuffix|] == name
  {
    ConfirmPrefix + name + ConfirmSuffix
  }

  /** The question names the product: different names give different questions. */
  lemma ConfirmNamesProduct(a: string, b: string)
    ensures ConfirmMessage(a) == ConfirmMessage(b) ==> a == b
  {
    if ConfirmMessage(a) == ConfirmMessage(b) {
      var r := ConfirmMessage(a);
      assert a == r[|ConfirmPrefix|..|r| - |ConfirmSuffix|];
    }
  }

  predicate IsOk(reply: Reply<Product>) {
    reply.Responded? && reply.ok
  }

  class ProductListView {
    const dashboard: AdminDashboard.Dashboard
    var deletingId: Option<string>
    var events: seq<Event>

    constructor (dashboard: AdminDashboard.Dashboard)
      ensures this.dashboard == dashboard && deletingId == None && events == []
    {
      this.dashboard := dashboard;
      deletingId := None;
      events := [];
    }

    /** The delete button is disabled exactly while that product's delete
        runs, so at most one product's button, by id, is disabled at a time. */
    predicate DeleteDisabled(p: Product): (b: bool)
      reads this
      ensures b <==> deletingId == Some(p.id)
      ensures b ==> forall q: Product :: q.id != p.id ==> deletingId != Some(q.id)
    {
      deletingId == Some(p.id)
    }

    /** The edit button: `onEdit(product)`. */
    method HandleEdit(p: Product)
      modifies dashboard
      ensures dashboard.editingProduct == Some(p)
      ensures dashboard.products == old(dashboard.products) && dashboard.orders == old(dashboard.orders)
      ensures dashboard.showAddForm == old(dashboard.showAddForm)
    {
      dashboard.StartEditing(p);
    }

    /** `handleDelete(product)`.  `confirmed` is the answer to `confirm`, and
        `reply` what the DELETE request gives back. */
    method HandleDelete(product: Product, confirmed: bool, reply: Reply<Product>)
      modifies this, dashboard
      ensures dashboard.orders == old(dashboard.orders) && dashboard.showAddForm == old(dashboard.showAddForm)
      ensures dashboard.editingProduct == old(dashboard.editingProduct)
      // declined: no request and no change
      ensures !confirmed ==> && events == old(events) + [ConfirmAsked(ConfirmMessage(product.name))]
                             && deletingId == old(deletingId)
                             && dashboard.products == old(dashboard.products)
      // confirmed: one request while `deletingId` names the product, none in progress afterwards
      ensures confirmed ==> deletingId == None && forall q :: !DeleteDisabled(q)
      ensures confirmed && IsOk(reply) ==>
                && events == old(events) + [ConfirmAsked(ConfirmMessage(product.name)),
                                            DeleteRequested(product.id, Some(product.id))]
                && dashboard.products == AdminDashboard.RemoveById(old(dashboard.products), product.id)
      ensures confirmed && !IsOk(reply) ==>
                && events == old(events) + [ConfirmAsked(ConfirmMessage(product.name)),
                                            DeleteRequested(product.id, Some(product.id)),
                                            Alert(DeleteErrorNotice)]
                && dashboard.products == old(dashboard.products)
    {
      events := events + [ConfirmAsked(ConfirmMessage(product.name))];
      if !confirmed {
        return;
      }
      deletingId := Some(product.id);
      events := events + [DeleteRequested(product.id, deletingId)];
      if IsOk(reply) {
        dashboard.HandleProductDeleted(product.id);
      } else {
        events := events + [Alert(DeleteErrorNotice)];
      }
      deletingId := None;
    }
  }
}

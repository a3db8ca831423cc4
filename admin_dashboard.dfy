/** The admin dashboard (components/admin-dashboard.tsx): the four handlers
    that rewrite its product and order lists, and the statistics shown above
    them. */
module AdminDashboard {
  import opened Types
  import opened Sequences

  /** `products.map(p => p.id === u.id ? u : p)` */
  function ReplaceById(s: seq<Product>, u: Product): (r: seq<Product>)
    ensures |r| == |s|
    ensures forall k :: 0 <= k < |s| && s[k].id == u.id ==> r[k] == u
    ensures forall k :: 0 <= k < |s| && s[k].id != u.id ==> r[k] == s[k]
  {
    if s == [] then []
    else [if s[0].id == u.id then u else s[0]] + ReplaceById(s[1..], u)
  }

  /** Replacing twice with the same product is replacing once. */
  lemma ReplaceIdempotent(s: seq<Product>, u: Product)
    ensures ReplaceById(ReplaceById(s, u), u) == ReplaceById(s, u)
  {
  }

  /** The number of entries with id `id`. */
  function CountWithId(s: seq<Product>, id: string): (n: nat)
    ensures n <= |s|
  {
    if s == [] then 0
    else (if s[0].id == id then 1 else 0) + CountWithId(s[1..], id)
  }

  /** `products.filter(p => p.id !== id)` */
  function RemoveById(s: seq<Product>, id: string): (r: seq<Product>)
    ensures IsSubsequence(r, s)
    ensures forall p :: p in r ==> p.id != id
    ensures forall p :: p in s && p.id != id ==> p in r
    ensures |r| + CountWithId(s, id) == |s|
  {
    if s == [] then []
    else if s[0].id == id then RemoveById(s[1..], id)
    else [s[0]] + RemoveById(s[1..], id)
  }

  /** A product just added in front is gone again once its id is deleted,
      if no other product had that id. */
  lemma {:induction false} RemoveAfterAdd(s: seq<Product>, p: Product)
    requires forall q :: q in s ==> q.id != p.id
    ensures RemoveById([p] + s, p.id) == s
  {
    assert ([p] + s)[1..] == s;
    RemoveNothing(s, p.id);
  }

  /** Deleting an id no product has changes nothing. */
  lemma {:induction false} RemoveNothing(s: seq<Product>, id: string)
    requires forall q :: q in s ==> q.id != id
    ensures RemoveById(s, id) == s
  {
    if s != [] {
      assert forall q :: q in s[1..] ==> q in s;
      RemoveNothing(s[1..], id);
      assert s == [s[0]] + s[1..];
    }
  }

  /** `orders.map(o => o.id === id ? { ...o, status } : o)` */
  function SetStatusById(s: seq<Order>, id: string, status: string): (r: seq<Order>)
    ensures |r| == |s|
    ensures forall k :: 0 <= k < |s| ==> r[k].(status := s[k].status) == s[k]
    ensures forall k :: 0 <= k < |s| ==> r[k].status == if s[k].id == id then status else s[k].status
  {
    if s == [] then []
    else [if s[0].id == id then s[0].(status := status) else s[0]] + SetStatusById(s[1..], id, status)
  }

  /** The value of one product's stock. */
  function StockValue(p: Product): real {
    p.price * p.stock as real
  }

  /** `products.reduce((sum, p) => sum + p.price * p.stock, 0)`, from the left. */
  function InventoryValue(s: seq<Product>): real {
    FoldValue(0.0, s)
  }

  function FoldValue(acc: real, s: seq<Product>): real
    decreases |s|
  {
    if s == [] then acc else FoldValue(acc + StockValue(s[0]), s[1..])
  }

  /** The sum of price times stock over the products, as a reference definition. */
  function ValueSum(s: seq<Product>): real {
    if s == [] then 0.0 else StockValue(s[0]) + ValueSum(s[1..])
  }

  lemma {:induction false} FoldValueIsSum(acc: real, s: seq<Product>)
    ensures FoldValue(acc, s) == acc + ValueSum(s)
    decreases |s|
  {
    if s != [] {
      FoldValueIsSum(acc + StockValue(s[0]), s[1..]);
    }
  }

  /** The inventory value is the sum of price times stock over all products,
      in whatever way the list is split. */
  lemma InventoryValueIsSum(s: seq<Product>, t: seq<Product>)
    ensures InventoryValue(s) == ValueSum(s)
    ensures InventoryValue(s + t) == InventoryValue(s) + InventoryValue(t)
  {
    FoldValueIsSum(0.0, s);
    FoldValueIsSum(0.0, t);
    FoldValueIsSum(0.0, s + t);
    SumAppend(s, t);
  }

  lemma {:induction false} SumAppend(s: seq<Product>, t: seq<Product>)
    ensures ValueSum(s + t) == ValueSum(s) + ValueSum(t)
  {
    if s != [] {
      assert (s + t)[1..] == s[1..] + t;
      SumAppend(s[1..], t);
    } else {
      assert s + t == t;
    }
  }

  /** Adding a product raises the inventory value by that product's stock value. */
  lemma AddedProductValue(s: seq<Product>, p: Product)
    ensures InventoryValue([p] + s) == StockValue(p) + InventoryValue(s)
  {
    InventoryValueIsSum([p], s);
  }

  /** No negative prices or stocks, no negative value. */
  lemma {:induction false} InventoryValueNonNegative(s: seq<Product>)
    requires forall p :: p in s ==> p.price >= 0.0 && p.stock >= 0
    ensures InventoryValue(s) >= 0.0
  {
    FoldValueIsSum(0.0, s);
    SumNonNegative(s);
  }

  lemma {:induction false} SumNonNegative(s: seq<Product>)
    requires forall p :: p in s ==> p.price >= 0.0 && p.stock >= 0
    ensures ValueSum(s) >= 0.0
  {
    if s != [] {
      assert s[0] in s;
      assert forall p :: p in s[1..] ==> p in s;
      SumNonNegative(s[1..]);
    }
  }

  /** `products.filter(p => p.stock <= 10).length`: out-of-stock products count too. */
  function LowStockCount(s: seq<Product>): (n: nat)
    ensures n <= |s|
    ensures n == |s| <==> forall p :: p in s ==> p.stock <= 10
  {
    if s == [] then 0
    else (if s[0].stock <= 10 then 1 else 0) + LowStockCount(s[1..])
  }

  /** `orders.filter(o => o.status === "pending").length` */
  function PendingCount(s: seq<Order>): (n: nat)
    ensures n <= |s|
    ensures n == 0 <==> forall o :: o in s ==> o.status != "pending"
  {
    if s == [] then 0
    else (if s[0].status == "pending" then 1 else 0) + PendingCount(s[1..])
  }

  /** Setting an order's status back to pending never lowers the pending
      count, and setting it to anything else never raises it. */
  lemma {:induction false} PendingAfterStatusUpdate(s: seq<Order>, id: string, status: string)
    ensures status == "pending" ==> PendingCount(SetStatusById(s, id, status)) >= PendingCount(s)
    ensures status != "pending" ==> PendingCount(SetStatusById(s, id, status)) <= PendingCount(s)
  {
    if s != [] {
      PendingAfterStatusUpdate(s[1..], id, status);
      assert SetStatusById(s, id, status)[1..] == SetStatusById(s[1..], id, status);
    }
  }

  /** The dashboard's state: the two lists and which form is open. */
  class Dashboard {
    var products: seq<Product>
    var orders: seq<Order>
    var showAddForm: bool
    var editingProduct: Option<Product>

    constructor (products: seq<Product>, orders: seq<Order>)
      ensures this.products == products && this.orders == orders
      ensures !showAddForm && editingProduct == None
    {
      this.products := products;
      this.orders := orders;
      showAddForm := false;
      editingProduct := None;
    }

    /** `totalProducts`, `totalValue`, `lowStockProducts`, `totalOrders`, `pendingOrders` */
    /** The "Total Products" card: one per entry of the list. */
    function TotalProducts(): (n: nat)
      reads this
      ensures n == |products|
      ensures n == 0 <==> products == []
    {
      |products|
    }

    /** The "Total Orders" card: one per entry of the list. */
    function TotalOrders(): (n: nat)
      reads this
      ensures n == |orders|
      ensures n == 0 <==> orders == []
    {
      |orders|
    }

    /** The pending count never exceeds the order count. */
    function PendingOrders(): (n: nat)
      reads this
      ensures n <= TotalOrders()
    {
      PendingCount(orders)
    }

    /** The low-stock count never exceeds the product count. */
    function LowStockProducts(): (n: nat)
      reads this
      ensures n <= TotalProducts()
    {
      LowStockCount(products)
    }

    function TotalValue(): (v: real)
      reads this
      ensures v == ValueSum(products)
    {
      InventoryValueIsSum(products, []);
      InventoryValue(products)
    }

    /** The add form's "Add Product" button. */
    method OpenAddForm()
      modifies this
      ensures showAddForm
      ensures products == old(products) && orders == old(orders) && editingProduct == old(editingProduct)
    {
      showAddForm := true;
    }

    /** The add form's cancel button. */
    method CloseAddForm()
      modifies this
      ensures !showAddForm
      ensures products == old(products) && orders == old(orders) && editingProduct == old(editingProduct)
    {
      showAddForm := false;
    }

    /** The product list's edit button (`onEdit = setEditingProduct`). */
    method StartEditing(p: Product)
      modifies this
      ensures editingProduct == Some(p)
      ensures products == old(products) && orders == old(orders) && showAddForm == old(showAddForm)
    {
      editingProduct := Some(p);
    }

    /** The edit form's cancel button. */
    method CancelEditing()
      modifies this
      ensures editingProduct == None
      ensures products == old(products) && orders == old(orders) && showAddForm == old(showAddForm)
    {
      editingProduct := None;
    }

    /** `handleProductAdded`: the new product goes first and the add form closes. */
    method HandleProductAdded(p: Product)
      modifies this
      ensures products == [p] + old(products) && !showAddForm
      ensures TotalProducts() == old(TotalProducts()) + 1
      ensures orders == old(orders) && editingProduct == old(editingProduct)
    {
      products := [p] + products;
      showAddForm := false;
    }

    /** `handleProductUpdated`: entries with the product's id are replaced and
        the edit form closes. */
    method HandleProductUpdated(u: Product)
      modifies this
      ensures products == ReplaceById(old(products), u) && editingProduct == None
      ensures TotalProducts() == old(TotalProducts())
      ensures orders == old(orders) && showAddForm == old(showAddForm)
    {
      products := ReplaceById(products, u);
      editingProduct := None;
    }

    /** `handleProductDeleted`: every entry with the id goes, the rest stay in order. */
    method HandleProductDeleted(id: string)
      modifies this
      ensures products == RemoveById(old(products), id)
      ensures TotalProducts() == old(TotalProducts()) - CountWithId(old(products), id)
      ensures orders == old(orders) && showAddForm == old(showAddForm) && editingProduct == old(editingProduct)
    {
      products := RemoveById(products, id);
    }

    /** `handleOrderStatusUpdated`: only the status of the matching orders changes. */
    method HandleOrderStatusUpdated(id: string, status: string)
      modifies this
      ensures orders == SetStatusById(old(orders), id, status)
      ensures TotalOrders() == old(TotalOrders())
      ensures products == old(products) && showAddForm == old(showAddForm) && editingProduct == old(editingProduct)
    {
      orders := SetStatusById(orders, id, status);
    }
  }
}

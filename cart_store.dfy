/** The cart store as the components see it: its lines, the total it
    reports, and the `addItem` calls made on it.  The store's own code
    (contexts/cart-context) is not part of this model, so `addItem` and
    `getTotalPrice` promise nothing about the lines and `clearCart` promises
    only an empty cart. */
module CartStore {
  import opened Types

  datatype AddRequest = AddRequest(product: Product, quantity: int)

  class Cart {
    var items: seq<CartItem>
    var totalPrice: real
    var addRequests: seq<AddRequest>

    constructor (items: seq<CartItem>, totalPrice: real)
      ensures this.items == items && this.totalPrice == totalPrice && addRequests == []
    {
      this.items, this.totalPrice, addRequests := items, totalPrice, [];
    }

    /** `getTotalPrice()`: whatever total the store reports. */
    function GetTotalPrice(): real
      reads this
    {
      totalPrice
    }

    /** `addItem(product, quantity)`: recorded; its effect on the lines is the store's. */
    method AddItem(product: Product, quantity: int)
      modifies this
      ensures addRequests == old(addRequests) + [AddRequest(product, quantity)]
    {
      addRequests := addRequests + [AddRequest(product, quantity)];
    }

    /** `clearCart()` */
    method ClearCart()
      modifies this
      ensures items == [] && addRequests == old(addRequests)
    {
      items := [];
    }
  }
}

/** The product page's purchase controls (components/product-detail.tsx):
    a quantity stepper bounded by 1 and the stock, and the add button that
    hands the chosen quantity to the cart and resets the stepper. */
module ProductDetail {
  import opened Types
  import opened CartStore

  /** `handleQuantityChange(change)`: the stepped quantity when it lies in
      [1, stock], the old one otherwise. */
  function Stepped(quantity: int, change: int, stock: int): (r: int)
    ensures r == quantity || r == quantity + change
    ensures r == quantity + change <==> (1 <= quantity + change <= stock || change == 0)
  {
    var n := quantity + change;
    if n >= 1 && n <= stock then n else quantity
  }

  /** A quantity within [1, stock] stays there, whatever the change. */
  lemma SteppedKeepsRange(quantity: int, change: int, stock: int)
    requires 1 <= quantity <= stock
    ensures 1 <= Stepped(quantity, change, stock) <= stock
  {
  }

  /** With nothing in stock no change is ever applied. */
  lemma NoStepWithoutStock(quantity: int, change: int)
    ensures Stepped(quantity, change, 0) == quantity
  {
  }

  /** The minus button: `quantity <= 1`. */
  predicate MinusDisabled(quantity: int) {
    quantity <= 1
  }

  /** The plus button: `quantity >= product.stock`. */
  predicate PlusDisabled(quantity: int, stock: int) {
    quantity >= stock
  }

  /** The add button: `product.stock === 0`. */
  predicate AddDisabled(stock: int) {
    stock == 0
  }

  /** Within range, a stepper button is disabled exactly when pressing it
      would have no effect, and adding is possible. */
  lemma ButtonsMatchEffect(quantity: int, stock: int)
    requires 1 <= quantity <= stock
    ensures MinusDisabled(quantity) <==> Stepped(quantity, -1, stock) == quantity
    ensures PlusDisabled(quantity, stock) <==> Stepped(quantity, 1, stock) == quantity
    ensures !AddDisabled(stock)
  {
  }

  /** With an empty stock, plus and add are disabled at every quantity, no
      press of a stepper changes the quantity, and minus is disabled exactly
      at the initial quantity. */
  lemma OutOfStockControls(quantity: int, change: int)
    requires quantity >= 1
    ensures PlusDisabled(quantity, 0) && AddDisabled(0)
    ensures Stepped(quantity, change, 0) == quantity
    ensures MinusDisabled(quantity) <==> quantity == 1
  {
  }

  /** The add button's caption. */
  function AddCaption(stock: int): (s: string)
    ensures s == "Out of Stock" <==> AddDisabled(stock)
  {
    if stock == 0 then "Out of Stock" else "Add to cart"
  }

  class ProductDetailView {
    const product: Product
    const cart: Cart
    var quantity: int

    /** The quantity starts at 1. */
    constructor (product: Product, cart: Cart)
      ensures this.product == product && this.cart == cart && quantity == 1
    {
      this.product := product;
      this.cart := cart;
      quantity := 1;
    }

    /** A quantity within [1, stock]; it holds from the start whenever the
        product is in stock, and every handler keeps it. */
    predicate InRange()
      reads this
    {
      1 <= quantity <= product.stock
    }

    method HandleQuantityChange(change: int)
      modifies this
      ensures quantity == Stepped(old(quantity), change, product.stock)
      ensures old(InRange()) ==> InRange()
    {
      var n := quantity + change;
      if n >= 1 && n <= product.stock {
        quantity := n;
      }
      if 1 <= old(quantity) <= product.stock {
        SteppedKeepsRange(old(quantity), change, product.stock);
      }
    }

    /** `handleAddToCart`: one request for the chosen quantity, then back to 1. */
    method HandleAddToCart()
      modifies this, cart
      ensures cart.addRequests == old(cart.addRequests) + [AddRequest(product, old(quantity))]
      ensures quantity == 1
      ensures product.stock >= 1 ==> InRange()
    {
      cart.AddItem(product, quantity);
      quantity := 1;
    }
  }
}

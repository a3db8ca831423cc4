/** The storefront product card (components/product-card.tsx): its stock
    badge, its add button, and the one-item request that button makes. */
module ProductCard {
  import opened Types
  import opened CartStore
  import ProductList

  /** The badge in the card's corner, if any. */
  datatype StockBadge = OnlyLeft(count: int) | OutOfStock | NoBadge

  /** "Only N left!" for 1 to 10 in stock, "Out of Stock" at 0, nothing otherwise. */
  function BadgeFor(stock: int): (b: StockBadge)
    ensures b.OnlyLeft? <==> 0 < stock <= 10
    ensures b.OnlyLeft? ==> b.count == stock
    ensures b.OutOfStock? <==> stock == 0
  {
    if stock <= 10 && stock > 0 then OnlyLeft(stock)
    else if stock == 0 then OutOfStock
    else NoBadge
  }

  /** The card and the admin grid mark the same stocks. */
  lemma BadgesAgreeWithGrid(stock: int)
    ensures BadgeFor(stock).OnlyLeft? <==> ProductList.LowStockBadge(stock)
    ensures BadgeFor(stock).OutOfStock? <==> ProductList.OutOfStockBadge(stock)
  {
  }

  /** `disabled={product.stock === 0}` */
  predicate AddDisabled(p: Product) {
    p.stock == 0
  }

  /** The add button is disabled exactly when the card says out of stock. */
  lemma AddDisabledIffOutOfStock(p: Product)
    ensures AddDisabled(p) <==> BadgeFor(p.stock) == OutOfStock
  {
  }

  /** `handleAddToCart`: a request for one of the product. */
  method HandleAddToCart(cart: Cart, p: Product)
    modifies cart
    ensures cart.addRequests == old(cart.addRequests) + [AddRequest(p, 1)]
  {
    cart.AddItem(p, 1);
  }
}

/** Records shared by the whole storefront (lib/types.ts), plus the two small
    wrappers the model needs for absent values and for replies to a request. */
module Types {

  /** JavaScript's `null` / `undefined` / absent field. */
  datatype Option<+T> = None | Some(value: T) {
    function GetOr(default: T): T {
      match this
      case Some(v) => v
      case None => default
    }
  }

  /** A creation time as the database orders it (the JSON string form is not modelled). */
  type Timestamp = int

  datatype Product = Product(
    id: string,
    name: string,
    description: Option<string>,
    price: real,
    image_url: Option<string>,
    category: Option<string>,
    stock: int,
    created_at: Timestamp)

  datatype Order = Order(
    id: string,
    customer_name: string,
    customer_email: string,
    customer_phone: Option<string>,
    total_amount: real,
    status: string,
    created_at: Timestamp)

  /** An order line as the order route writes it: the database's own `id` and
      `created_at` columns of this table are not modelled. */
  datatype OrderItem = OrderItem(
    order_id: string,
    product_id: string,
    quantity: int,
    price: real)

  datatype CartItem = CartItem(product: Product, quantity: int)

  /** What a browser `fetch` gives back: a rejected promise, or a response with
      its `ok` flag and the JSON body if it parses as a `T`. */
  datatype Reply<+T> = Rejected | Responded(ok: bool, json: Option<T>)
}

/** The product form schema (lib/validations/product.ts): minimum lengths,
    a minimum price, a non-negative integer stock and an optional image URL.
    The library's URL check is a parameter `isUrl`. */
module ProductValidation {
  import opened Types

  /** The submitted body; `price` and `stock` are JavaScript numbers. */
  datatype ProductInput = ProductInput(
    name: string,
    description: string,
    price: real,
    category: string,
    stock: real,
    image_url: Option<string>)

  /** `ProductFormData`: what a successful parse yields. */
  datatype ProductFormData = ProductFormData(
    name: string,
    description: string,
    price: real,
    category: string,
    stock: int,
    image_url: Option<string>)

  datatype Issue = Issue(path: string, message: string)

  const MinPrice: real := 0.01

  predicate IsInteger(x: real) {
    x.Floor as real == x
  }

  /** `.url().optional().or(z.literal(""))` */
  predicate ImageUrlValid(u: Option<string>, isUrl: string -> bool) {
    u.None? || u.value == "" || isUrl(u.value)
  }

  /** `productSchema.parse`: the parsed data, or None when any rule fails. */
  function Parse(b: ProductInput, isUrl: string -> bool): (r: Option<ProductFormData>)
    ensures r.Some? <==> Issues(b, isUrl) == []
    ensures r.Some? ==> && r.value.name == b.name
                        && r.value.description == b.description
                        && r.value.price == b.price
                        && r.value.category == b.category
                        && r.value.stock as real == b.stock
                        && r.value.image_url == b.image_url
  {
    IssuesEmptyIffValid(b, isUrl);
    if Valid(b, isUrl) then
      Some(ProductFormData(b.name, b.description, b.price, b.category, b.stock.Floor, b.image_url))
    else
      None
  }

  /** Every rule of the schema holds. */
  predicate Valid(b: ProductInput, isUrl: string -> bool) {
    && |b.name| >= 2
    && |b.description| >= 10
    && b.price >= MinPrice
    && |b.category| >= 2
    && IsInteger(b.stock) && b.stock >= 0.0
    && ImageUrlValid(b.image_url, isUrl)
  }

  lemma IssuesEmptyIffValid(b: ProductInput, isUrl: string -> bool)
    ensures Issues(b, isUrl) == [] <==> Valid(b, isUrl)
  {
  }

  function MinLength(path: string, s: string, n: nat, message: string): seq<Issue> {
    if |s| >= n then [] else [Issue(path, message)]
  }

  /** Every failing rule of the schema with the schema's message; a stock
      that is both fractional and negative fails two rules. */
  function Issues(b: ProductInput, isUrl: string -> bool): seq<Issue> {
    MinLength("name", b.name, 2, "Product name must be at least 2 characters")
    + MinLength("description", b.description, 10, "Description must be at least 10 characters")
    + (if b.price >= MinPrice then [] else [Issue("price", "Price must be greater than 0")])
    + MinLength("category", b.category, 2, "Category is required")
    + (if IsInteger(b.stock) then [] else [Issue("stock", "Expected integer, received float")])
    + (if b.stock >= 0.0 then [] else [Issue("stock", "Stock must be 0 or greater")])
    + (if ImageUrlValid(b.image_url, isUrl) then [] else [Issue("image_url", "Please enter a valid image URL")])
  }

  /** A price of 0 is refused although the message speaks of "greater than 0";
      the smallest accepted price is 0.01. */
  lemma PriceBoundary(b: ProductInput, isUrl: string -> bool)
    ensures Parse(b.(price := 0.0), isUrl).None?
    ensures Parse(b, isUrl).Some? ==> b.price >= 0.01
    ensures Parse(b, isUrl).Some? ==> Parse(b.(price := 0.01), isUrl).Some?
  {
  }

  /** Stock is accepted iff it is a non-negative whole number; 0 is accepted. */
  lemma StockRule(b: ProductInput, isUrl: string -> bool, n: int)
    requires Parse(b, isUrl).Some?
    ensures Parse(b.(stock := n as real), isUrl).Some? <==> n >= 0
    ensures Parse(b.(stock := b.stock + 0.5), isUrl).None?
  {
    assert (b.stock + 0.5).Floor == b.stock.Floor;
  }

  /** An absent or empty image URL needs no URL check; any other value must pass it. */
  lemma ImageUrlRule(b: ProductInput, isUrl: string -> bool, u: string)
    requires Parse(b, isUrl).Some?
    ensures Parse(b.(image_url := None), isUrl).Some?
    ensures Parse(b.(image_url := Some("")), isUrl).Some?
    ensures u != "" ==> (Parse(b.(image_url := Some(u)), isUrl).Some? <==> isUrl(u))
  {
  }
}

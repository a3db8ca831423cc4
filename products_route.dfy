/** `POST /api/products` and `GET /api/products` (app/api/products/route.ts):
    validate, normalise the image URL and insert; list newest first.  The
    `products` table is a class whose calls succeed or fail nondeterministically. */
module ProductsRoute {
  import opened Types
  import opened ProductValidation

  /** The columns written into `products`; the database adds `id` and `created_at`. */
  datatype NewProduct = NewProduct(
    name: string,
    description: Option<string>,
    price: real,
    category: Option<string>,
    stock: int,
    image_url: Option<string>)

  datatype Body = ProductBody(product: Product) | ProductList(products: seq<Product>) | ErrorBody(error: string)

  datatype Response = Response(status: int, body: Body)

  /** `image_url || null`: an absent or empty URL is stored as null. */
  function NullIfEmpty(u: Option<string>): (r: Option<string>)
    ensures r.None? <==> (u.None? || u == Some(""))
    ensures r.Some? ==> r == u && r.value != ""
  {
    if u.None? || u.value == "" then None else u
  }

  /** The row inserted for validated data. */
  function RowFor(v: ProductFormData): (row: NewProduct)
    ensures row.name == v.name && row.description == Some(v.description) && row.price == v.price
    ensures row.category == Some(v.category) && row.stock == v.stock
    ensures row.image_url == NullIfEmpty(v.image_url)
  {
    NewProduct(v.name, Some(v.description), v.price, Some(v.category), v.stock, NullIfEmpty(v.image_url))
  }

  /** The product a successful insert of `row` returns. */
  predicate CreatedFrom(p: Product, row: NewProduct) {
    && p.name == row.name
    && p.description == row.description
    && p.price == row.price
    && p.category == row.category
    && p.stock == row.stock
    && p.image_url == row.image_url
  }

  /** Newest first: `created_at` never increases along the list. */
  ghost predicate NewestFirst(s: seq<Product>) {
    forall i, j :: 0 <= i < j < |s| ==> s[i].created_at >= s[j].created_at
  }

  /** Places `p` into a newest-first list, before the first older entry. */
  function InsertByDate(p: Product, s: seq<Product>): (r: seq<Product>)
    ensures multiset(r) == multiset(s) + multiset{p}
  {
    if s == [] || p.created_at >= s[0].created_at then
      [p] + s
    else
      assert s == [s[0]] + s[1..];
      [s[0]] + InsertByDate(p, s[1..])
  }

  /** Putting an entry at least as new as every entry in front of a
      newest-first list keeps it newest first. */
  lemma ConsKeepsOrder(x: Product, s: seq<Product>)
    requires NewestFirst(s)
    requires forall y :: y in s ==> x.created_at >= y.created_at
    ensures NewestFirst([x] + s)
  {
    var r := [x] + s;
    forall i, j | 0 <= i < j < |r|
      ensures r[i].created_at >= r[j].created_at
    {
      assert r[j] == s[j - 1];
      if i > 0 {
        assert r[i] == s[i - 1];
      }
    }
  }

  lemma {:induction false} InsertByDateKeepsOrder(p: Product, s: seq<Product>)
    requires NewestFirst(s)
    ensures NewestFirst(InsertByDate(p, s))
  {
    if s == [] || p.created_at >= s[0].created_at {
      forall y | y in s
        ensures p.created_at >= y.created_at
      {
        var k :| 0 <= k < |s| && s[k] == y;
        assert s[0].created_at >= s[k].created_at || k == 0;
      }
      ConsKeepsOrder(p, s);
    } else {
      var rest := InsertByDate(p, s[1..]);
      assert NewestFirst(s[1..]) by {
        forall i, j | 0 <= i < j < |s[1..]|
          ensures s[1..][i].created_at >= s[1..][j].created_at
        {
          assert s[1..][i] == s[i + 1] && s[1..][j] == s[j + 1];
        }
      }
      InsertByDateKeepsOrder(p, s[1..]);
      forall y | y in rest
        ensures s[0].created_at >= y.created_at
      {
        assert y in multiset(rest);
        if y != p {
          assert y in multiset(s[1..]);
          var k :| 0 <= k < |s[1..]| && s[1..][k] == y;
          assert s[k + 1] == y;
        }
      }
      ConsKeepsOrder(s[0], rest);
    }
  }

  /** `order("created_at", { ascending: false })`: the table's rows, newest first. */
  function SortNewestFirst(s: seq<Product>): (r: seq<Product>)
    ensures multiset(r) == multiset(s)
    ensures NewestFirst(r)
  {
    if s == [] then []
    else
      assert s == [s[0]] + s[1..];
      InsertByDateKeepsOrder(s[0], SortNewestFirst(s[1..]));
      InsertByDate(s[0], SortNewestFirst(s[1..]))
  }

  datatype Call = ProductInsert(row: NewProduct) | ProductSelect

  class ProductStore {
    var products: seq<Product>
    var calls: seq<Call>

    constructor ()
      ensures products == [] && calls == []
    {
      products, calls := [], [];
    }

    /** `from("products").insert(row).select().single()`: on success the new
        row, with an id no stored product has. */
    method Insert(row: NewProduct) returns (created: Option<Product>)
      modifies this
      ensures calls == old(calls) + [ProductInsert(row)]
      ensures created.None? ==> products == old(products)
      ensures created.Some? ==> && CreatedFrom(created.value, row)
                                && (forall q :: q in old(products) ==> q.id != created.value.id)
                                && products == old(products) + [created.value]
    {
      calls := calls + [ProductInsert(row)];
      var ok: bool := *;
      var id: string := *;
      var at: Timestamp := *;
      if ok && forall q :: q in products ==> q.id != id {
        var p := Product(id, row.name, row.description, row.price, row.image_url, row.category, row.stock, at);
        products := products + [p];
        created := Some(p);
      } else {
        created := None;
      }
    }

    /** `from("products").select("*").order("created_at", { ascending: false })` */
    method SelectNewestFirst() returns (rows: Option<seq<Product>>)
      modifies this
      ensures calls == old(calls) + [ProductSelect] && products == old(products)
      ensures rows.Some? ==> rows.value == SortNewestFirst(products)
    {
      calls := calls + [ProductSelect];
      var ok: bool := *;
      rows := if ok then Some(SortNewestFirst(products)) else None;
    }
  }

  /** The POST handler.  `body` is None when the request body cannot be read. */
  method Post(store: ProductStore, body: Option<ProductInput>, isUrl: string -> bool) returns (resp: Response)
    modifies store
    ensures resp.status == 200 || resp.status == 400 || resp.status == 500
    // an unreadable or invalid body: 400 and no insert
    ensures resp.status == 400 <==> body.None? || Parse(body.value, isUrl).None?
    ensures resp.status == 400 ==> && resp.body == ErrorBody("Invalid request data")
                                   && store.products == old(store.products) && store.calls == old(store.calls)
    // a valid body: exactly one insert, of the validated and normalised fields
    ensures resp.status != 400 ==>
              store.calls == old(store.calls) + [ProductInsert(RowFor(Parse(body.value, isUrl).value))]
    ensures resp.status == 500 ==> resp.body == ErrorBody("Failed to create product")
                                   && store.products == old(store.products)
    ensures resp.status == 200 ==> && resp.body.ProductBody?
                                   && CreatedFrom(resp.body.product, RowFor(Parse(body.value, isUrl).value))
                                   && store.products == old(store.products) + [resp.body.product]
  {
    if body.None? {
      return Response(400, ErrorBody("Invalid request data"));
    }
    var parsed := Parse(body.value, isUrl);
    if parsed.None? {
      return Response(400, ErrorBody("Invalid request data"));
    }
    var created := store.Insert(RowFor(parsed.value));
    if created.None? {
      return Response(500, ErrorBody("Failed to create product"));
    }
    resp := Response(200, ProductBody(created.value));
  }

  /** The GET handler.  `connected` is false when creating the database client throws. */
  method Get(store: ProductStore, connected: bool) returns (resp: Response)
    modifies store
    ensures store.products == old(store.products)
    ensures resp.status == 200 || resp.status == 500
    ensures !connected ==> resp == Response(500, ErrorBody("Database error")) && store.calls == old(store.calls)
    ensures connected ==> store.calls == old(store.calls) + [ProductSelect]
    ensures resp.status == 500 && connected ==> resp.body == ErrorBody("Failed to fetch products")
    ensures resp.status == 200 ==> && resp.body.ProductList?
                                   && multiset(resp.body.products) == multiset(store.products)
                                   && NewestFirst(resp.body.products)
  {
    if !connected {
      return Response(500, ErrorBody("Database error"));
    }
    var rows := store.SelectNewestFirst();
    if rows.None? {
      return Response(500, ErrorBody("Failed to fetch products"));
    }
    resp := Response(200, ProductList(rows.value));
  }
}

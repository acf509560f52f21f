/**
 * The product routes of server.js and the synthetic `/many-items` listing.
 *
 * Each route handler is a method over the shared Database; its response is
 * tied to a pure function of the database state and the request, and the
 * lemmas below state what those functions promise.  Requests are handled one
 * at a time.  A query parameter or body field that is absent is the empty
 * string here: both are falsy where the handlers test them.
 */
module Server {
  import opened Wrappers
  import opened Js
  import opened Store

  /** One element of the `/many-items` payload. */
  datatype Item = Item(id: int, name: string)

  /** The JSON a successful response carries. */
  datatype Body =
    | ProductJson(product: Product)
    | ProductListJson(products: seq<Product>)
    | MessageJson(message: string)
    | ItemListJson(items: seq<Item>)

  /** 200 with a body, 201 with a body, 404 `{error}` or 500 `{error: err.message}`. */
  datatype Response = Ok(body: Body) | Created(body: Body) | NotFound | StoreError(message: string)

  /** A route's response and the database it leaves behind. */
  datatype Reply = Reply(response: Response, next: DbState)

  const NOT_FOUND_MESSAGE: string := "Produto não encontrado"
  const MANY_ITEMS_COUNT: nat := 50000

  function StatusCode(r: Response): int
  {
    match r
    case Ok(_) => 200
    case Created(_) => 201
    case NotFound => 404
    case StoreError(_) => 500
  }

  /** The `error` field of a failure body; success bodies have none. */
  function ErrorText(r: Response): Option<string>
  {
    match r
    case NotFound => Some(NOT_FOUND_MESSAGE)
    case StoreError(m) => Some(m)
    case _ => None
  }

  /**
   * The `LIMIT ? OFFSET ?` parameters GET /products binds, or None when the
   * parsed limit is falsy and the query has no LIMIT clause.
   */
  function LimitClause(limitParam: string, offsetParam: string): (c: Option<(int, JsNumber)>)
    ensures c.None? <==> limitParam == "" || ParseInt(limitParam) in {NaN, Num(0)}
    ensures c.Some? ==> Num(c.value.0) == ParseInt(limitParam)
    ensures c.Some? ==> c.value.1 == if offsetParam == "" then Num(0) else ParseInt(offsetParam)
  {
    var limit := if limitParam != "" then Some(ParseInt(limitParam)) else None;
    var offset := if offsetParam != "" then ParseInt(offsetParam) else Num(0);
    if limit.Some? && limit.value.Num? && limit.value.value != 0 then Some((limit.value.value, offset))
    else None
  }

  function RowsResponse(o: Outcome<seq<Product>>): Response
  {
    match o
    case Failed(m) => StoreError(m)
    case Done(rows) => Ok(ProductListJson(rows))
  }

  /** GET /products?limit=&offset= */
  function ListRoute(s: DbState, limitParam: string, offsetParam: string, fault: Option<string>): (r: Response)
    requires DbValid(s)
    ensures r.Ok? || r.StoreError?
    ensures r.Ok? ==> r.body.ProductListJson? && |r.body.products| <= |s.products.order|
  {
    match LimitClause(limitParam, offsetParam)
    case None => RowsResponse(SelectAll(s, fault))
    case Some((limit, offset)) => RowsResponse(SelectWindow(s, limit, offset, fault))
  }

  /** GET /products/:id */
  function ReadRoute(s: DbState, idParam: string, fault: Option<string>): (r: Response)
    ensures r.Ok? || r.NotFound? || r.StoreError?
    ensures r.Ok? ==> r.body.ProductJson? && Lookup(s.products, idParam) == Some(r.body.product)
    ensures r.NotFound? ==> Lookup(s.products, idParam).None?
  {
    match SelectById(s, idParam, fault)
    case Failed(m) => StoreError(m)
    case Done(None) => NotFound
    case Done(Some(row)) => Ok(ProductJson(row))
  }

  /** POST /products */
  function CreateRoute(s: DbState, name: string, description: string, price: Price, fault: Option<string>): (r: Reply)
    requires DbValid(s)
    ensures DbValid(r.next)
    ensures r.response.Created? || r.response.StoreError?
    ensures r.response.StoreError? ==> r.next == s
    ensures r.response.Created? ==>
      var id := r.next.products.lastId;
      && r.response.body == ProductJson(Product(id, name, description, price))
      && id !in s.products.rows && id in r.next.products.rows
  {
    var step := InsertRow(s, name, description, price, fault);
    match step.outcome
    case Failed(m) => Reply(StoreError(m), step.next)
    case Done(id) => Reply(Created(ProductJson(Product(id, name, description, price))), step.next)
  }

  /** PUT /products/:id; the echoed id is `parseInt(req.params.id)`. */
  function UpdateRoute(s: DbState, idParam: string, name: string, description: string, price: Price,
                       fault: Option<string>): (r: Reply)
    requires DbValid(s)
    ensures DbValid(r.next)
    ensures r.response.Ok? || r.response.NotFound? || r.response.StoreError?
    ensures !r.response.Ok? ==> r.next == s
    ensures r.response.Ok? ==>
      && Lookup(s.products, idParam).Some?
      && r.response.body == ProductJson(Product(RowidOf(idParam).value, name, description, price))
  {
    var step := UpdateRow(s, idParam, name, description, price, fault);
    match step.outcome
    case Failed(m) => Reply(StoreError(m), step.next)
    case Done(changes) =>
      if changes == 0 then Reply(NotFound, step.next)
      else
        RowidAgreesWithParseInt(idParam);
        Reply(Ok(ProductJson(Product(ParseInt(idParam).value, name, description, price))), step.next)
  }

  /** DELETE /products/:id */
  function DeleteRoute(s: DbState, idParam: string, fault: Option<string>): (r: Reply)
    requires DbValid(s)
    ensures DbValid(r.next)
    ensures r.response.Ok? || r.response.NotFound? || r.response.StoreError?
    ensures !r.response.Ok? ==> r.next == s
    ensures r.response.Ok? ==> Lookup(s.products, idParam).Some? && Lookup(r.next.products, idParam).None?
  {
    var step := DeleteRow(s, idParam, fault);
    match step.outcome
    case Failed(m) => Reply(StoreError(m), step.next)
    case Done(changes) =>
      if changes == 0 then Reply(NotFound, step.next)
      else Reply(Ok(MessageJson("Produto " + idParam + " removido")), step.next)
  }

  method GetProducts(db: Database, limitParam: string, offsetParam: string, fault: Option<string>)
    returns (r: Response)
    requires db.Valid()
    ensures r == ListRoute(db.State(), limitParam, offsetParam, fault)
  {
    var clause := LimitClause(limitParam, offsetParam);
    var rows: Outcome<seq<Product>>;
    if clause.None? {
      rows := db.QueryAll(fault);
    } else {
      rows := db.QueryWindow(clause.value.0, clause.value.1, fault);
    }
    if rows.Failed? {
      r := StoreError(rows.message);
    } else {
      r := Ok(ProductListJson(rows.value));
    }
  }

  method GetProduct(db: Database, idParam: string, fault: Option<string>) returns (r: Response)
    requires db.Valid()
    ensures r == ReadRoute(db.State(), idParam, fault)
  {
    var row := db.QueryById(idParam, fault);
    if row.Failed? {
      r := StoreError(row.message);
    } else if row.value.None? {
      r := NotFound;
    } else {
      r := Ok(ProductJson(row.value.value));
    }
  }

  method PostProduct(db: Database, name: string, description: string, price: Price, fault: Option<string>)
    returns (r: Response)
    requires db.Valid()
    modifies db
    ensures db.Valid()
    ensures Reply(r, db.State()) == CreateRoute(old(db.State()), name, description, price, fault)
  {
    var inserted := db.Insert(name, description, price, fault);
    if inserted.Failed? {
      r := StoreError(inserted.message);
    } else {
      r := Created(ProductJson(Product(inserted.value, name, description, price)));
    }
  }

  method PutProduct(db: Database, idParam: string, name: string, description: string, price: Price,
                    fault: Option<string>) returns (r: Response)
    requires db.Valid()
    modifies db
    ensures db.Valid()
    ensures Reply(r, db.State()) == UpdateRoute(old(db.State()), idParam, name, description, price, fault)
  {
    var changes := db.Update(idParam, name, description, price, fault);
    if changes.Failed? {
      r := StoreError(changes.message);
    } else if changes.value == 0 {
      r := NotFound;
    } else {
      RowidAgreesWithParseInt(idParam);
      r := Ok(ProductJson(Product(ParseInt(idParam).value, name, description, price)));
    }
  }

  method DeleteProduct(db: Database, idParam: string, fault: Option<string>) returns (r: Response)
    requires db.Valid()
    modifies db
    ensures db.Valid()
    ensures Reply(r, db.State()) == DeleteRoute(old(db.State()), idParam, fault)
  {
    var changes := db.Delete(idParam, fault);
    if changes.Failed? {
      r := StoreError(changes.message);
    } else if changes.value == 0 {
      r := NotFound;
    } else {
      r := Ok(MessageJson("Produto " + idParam + " removido"));
    }
  }

  /** GET /many-items: the pushes of the loop, one per index. */
  method ManyItems() returns (r: Response)
    ensures r.Ok? && r.body.ItemListJson?
    ensures |r.body.items| == MANY_ITEMS_COUNT
    ensures forall i | 0 <= i < |r.body.items| :: r.body.items[i] == Item(i, "Item " + DecimalString(i))
  {
    var items: seq<Item> := [];
    for i := 0 to MANY_ITEMS_COUNT
      invariant |items| == i
      invariant forall j | 0 <= j < i :: items[j] == Item(j, "Item " + DecimalString(j))
    {
      items := items + [Item(i, "Item " + DecimalString(i))];
    }
    r := Ok(ItemListJson(items));
  }

  // ----- What the routes promise -----

  /**
   * Without a truthy limit the listing is every row in storage order, and
   * the offset parameter makes no difference.
   */
  lemma ListWithoutLimitReturnsAll(s: DbState, limitParam: string, offsetParam: string, otherOffset: string)
    requires DbValid(s) && ProductsTable in s.schema
    requires limitParam == "" || ParseInt(limitParam) in {NaN, Num(0)}
    ensures ListRoute(s, limitParam, offsetParam, None) == Ok(ProductListJson(Listing(s.products)))
    ensures ListRoute(s, limitParam, offsetParam, None) == ListRoute(s, limitParam, otherOffset, None)
  {
  }

  /**
   * With a positive limit the listing is the run of rows that starts at the
   * offset (0 when absent), at most `limit` long, in storage order.
   */
  lemma ListWithLimitIsWindow(s: DbState, limitParam: string, offsetParam: string, limit: nat, offset: nat)
    requires DbValid(s) && ProductsTable in s.schema
    requires limitParam != "" && ParseInt(limitParam) == Num(limit) && limit > 0
    requires if offsetParam == "" then offset == 0 else ParseInt(offsetParam) == Num(offset)
    ensures var all := Listing(s.products);
      var r := ListRoute(s, limitParam, offsetParam, None);
      && r.Ok? && r.body.ProductListJson?
      && |r.body.products| == Min(limit, Max(|all| - offset, 0))
      && forall i | 0 <= i < |r.body.products| :: r.body.products[i] == all[offset + i]
  {
    var all := Listing(s.products);
    assert LimitClause(limitParam, offsetParam) == Some((limit, Num(offset)));
    var w := Window(all, limit, offset);
    assert SelectWindow(s, limit, Num(offset), None) == Done(w);
    assert ListRoute(s, limitParam, offsetParam, None) == Ok(ProductListJson(w));
    var start := Min(offset, |all|);
    assert Min(Max(offset, 0), |all|) == start;
    assert |all| - start == Max(|all| - offset, 0);
    assert |w| == Min(limit, Max(|all| - offset, 0));
    forall i | 0 <= i < |w| ensures w[i] == all[offset + i] {
      assert w[i] == all[start..start + |w|][i];
    }
  }

  /**
   * A page requested with decimal query values (`?limit=L&offset=O`, as the
   * page script sends them) is the slice of the full listing from O, at most L long.
   */
  lemma ListPageOfDecimals(s: DbState, limit: nat, offset: nat)
    requires DbValid(s) && ProductsTable in s.schema && limit > 0
    ensures var all := Listing(s.products);
      var r := ListRoute(s, DecimalString(limit), DecimalString(offset), None);
      r == Ok(ProductListJson(all[Min(offset, |all|)..Min(offset + limit, |all|)]))
  {
    ParseIntOfDecimalString(limit);
    ParseIntOfDecimalString(offset);
    var all := Listing(s.products);
    assert LimitClause(DecimalString(limit), DecimalString(offset)) == Some((limit, Num(offset)));
    var w := Window(all, limit, offset);
    assert w == all[Min(offset, |all|)..Min(offset + limit, |all|)];
    assert SelectWindow(s, limit, Num(offset), None) == Done(w);
  }

  /** Whatever GET /products returns lists distinct products by increasing id. */
  lemma ListedIdsIncreasing(s: DbState, limitParam: string, offsetParam: string, fault: Option<string>)
    requires DbValid(s)
    ensures var r := ListRoute(s, limitParam, offsetParam, fault);
      r.Ok? ==> (r.body.ProductListJson? &&
        forall i, j | 0 <= i < j < |r.body.products| :: r.body.products[i].id < r.body.products[j].id)
  {
    var all := Listing(s.products);
    ListingIdsIncreasing(s.products);
    match LimitClause(limitParam, offsetParam)
    case None =>
    case Some((limit, offset)) =>
      if offset.Num? && StatementError(s, fault).None? {
        var start := Min(Max(offset.value, 0), |all|);
        SliceIdsIncreasing(all, start, start + |Window(all, limit, offset.value)|);
      }
  }

  /** Any contiguous run of rows listed by increasing id is itself by increasing id. */
  lemma SliceIdsIncreasing(all: seq<Product>, a: nat, b: nat)
    requires forall i, j | 0 <= i < j < |all| :: all[i].id < all[j].id
    requires a <= b <= |all|
    ensures var part := all[a..b];
      forall i, j | 0 <= i < j < |part| :: part[i].id < part[j].id
  {
    var part := all[a..b];
    forall i, j | 0 <= i < j < |part| ensures part[i].id < part[j].id {
      assert part[i] == all[a + i] && part[j] == all[a + j];
    }
  }

  /** GET /products/:id answers the stored row, or 404 exactly when no row matches. */
  lemma ReadAnswersStoredRow(s: DbState, idParam: string)
    requires DbValid(s) && ProductsTable in s.schema
    ensures var r := ReadRoute(s, idParam, None);
      && (r == NotFound <==> Lookup(s.products, idParam).None?)
      && (r.Ok? ==> r == Ok(ProductJson(Lookup(s.products, idParam).value)))
      && (r.NotFound? || r.Ok?)
  {
  }

  /**
   * POST adds exactly one row under a fresh id greater than every id ever
   * assigned, answers 201 with that id and the submitted fields, and a later
   * GET of that id returns the same product.
   */
  lemma CreateThenRead(s: DbState, name: string, description: string, price: Price)
    requires DbValid(s) && ProductsTable in s.schema && s.products.lastId < MAX_ROWID
    ensures var id := s.products.lastId + 1;
      var reply := CreateRoute(s, name, description, price, None);
      var created := Product(id, name, description, price);
      && reply.response == Created(ProductJson(created))
      && reply.next.products.rows == s.products.rows[id := created]
      && |reply.next.products.rows| == |s.products.rows| + 1
      && (forall k | k in s.products.rows :: k < id)
      && ReadRoute(reply.next, DecimalString(id), None) == Ok(ProductJson(created))
  {
    var id := s.products.lastId + 1;
    RowidOfDecimalString(id);
    assert id !in s.products.rows;
  }

  /**
   * An id freed by DELETE is never handed out again: the next POST's id is
   * above it.
   */
  lemma DeletedIdNeverReused(s: DbState, idParam: string, name: string, description: string, price: Price)
    requires DbValid(s) && ProductsTable in s.schema
    requires DeleteRoute(s, idParam, None).response.Ok?
    ensures var key := RowidOf(idParam).value;
      var after := DeleteRoute(s, idParam, None).next;
      var reply := CreateRoute(after, name, description, price, None);
      reply.response.Created? ==> reply.response.body.product.id > key
  {
  }

  /**
   * PUT on a stored id overwrites all three fields of that row and nothing
   * else; a later GET sees the new values.
   */
  lemma UpdateThenRead(s: DbState, idParam: string, name: string, description: string, price: Price)
    requires DbValid(s) && ProductsTable in s.schema && Lookup(s.products, idParam).Some?
    ensures var key := RowidOf(idParam).value;
      var reply := UpdateRoute(s, idParam, name, description, price, None);
      var updated := Product(key, name, description, price);
      && reply.response == Ok(ProductJson(updated))
      && reply.next.products.rows == s.products.rows[key := updated]
      && reply.next.products.order == s.products.order
      && ReadRoute(reply.next, idParam, None) == Ok(ProductJson(updated))
  {
    RowidAgreesWithParseInt(idParam);
  }

  /** DELETE takes out exactly the matching row; GET and a second DELETE then answer 404. */
  lemma DeleteThenRead(s: DbState, idParam: string)
    requires DbValid(s) && ProductsTable in s.schema && Lookup(s.products, idParam).Some?
    ensures var key := RowidOf(idParam).value;
      var reply := DeleteRoute(s, idParam, None);
      && reply.response == Ok(MessageJson("Produto " + idParam + " removido"))
      && reply.next.products.rows == s.products.rows - {key}
      && ReadRoute(reply.next, idParam, None) == NotFound
      && DeleteRoute(reply.next, idParam, None) == Reply(NotFound, reply.next)
  {
  }

  /** GET, PUT and DELETE on an id with no row answer 404 and leave the store unchanged. */
  lemma MissingIdIsNotFound(s: DbState, idParam: string, name: string, description: string, price: Price)
    requires DbValid(s) && ProductsTable in s.schema && Lookup(s.products, idParam).None?
    ensures ReadRoute(s, idParam, None) == NotFound
    ensures UpdateRoute(s, idParam, name, description, price, None) == Reply(NotFound, s)
    ensures DeleteRoute(s, idParam, None) == Reply(NotFound, s)
    ensures ErrorText(NotFound) == Some("Produto não encontrado") && StatusCode(NotFound) == 404
  {
  }

  /**
   * A failing statement answers 500 with the store's message and no success
   * body, and changes nothing.
   */
  lemma StoreErrorChangesNothing(s: DbState, limitParam: string, offsetParam: string, idParam: string,
                                 name: string, description: string, price: Price, message: string)
    requires DbValid(s) && ProductsTable in s.schema
    ensures var fault := Some(message);
      && ListRoute(s, limitParam, offsetParam, fault) == StoreError(message)
      && ReadRoute(s, idParam, fault) == StoreError(message)
      && CreateRoute(s, name, description, price, fault) == Reply(StoreError(message), s)
      && UpdateRoute(s, idParam, name, description, price, fault) == Reply(StoreError(message), s)
      && DeleteRoute(s, idParam, fault) == Reply(StoreError(message), s)
      && StatusCode(StoreError(message)) == 500 && ErrorText(StoreError(message)) == Some(message)
  {
  }

  /** Every route fails with "no such table" until `init` has created the table. */
  lemma RoutesNeedInit(s: DbState, limitParam: string, offsetParam: string, idParam: string,
                       name: string, description: string, price: Price)
    requires DbValid(s) && ProductsTable !in s.schema
    ensures ListRoute(s, limitParam, offsetParam, None) == StoreError(NO_SUCH_TABLE)
    ensures ReadRoute(s, idParam, None) == StoreError(NO_SUCH_TABLE)
    ensures CreateRoute(s, name, description, price, None) == Reply(StoreError(NO_SUCH_TABLE), s)
    ensures UpdateRoute(s, idParam, name, description, price, None) == Reply(StoreError(NO_SUCH_TABLE), s)
    ensures DeleteRoute(s, idParam, None) == Reply(StoreError(NO_SUCH_TABLE), s)
  {
  }
}

/**
 * The SQLite database of db.js as the catalogue uses it: the schema `init`
 * creates and the `products` table, with the five statements server.js and
 * seed.js run against it.
 *
 * The table is an abstract map from rowid to row plus the rowids in storage
 * order (`SELECT * FROM products` without ORDER BY scans the table in rowid
 * order) and the AUTOINCREMENT counter SQLite keeps in `sqlite_sequence`.
 * A store failure the model cannot see (I/O error, locked database, ...)
 * is passed in as `fault`.
 */
module Store {
  import opened Wrappers
  import opened Js

  /** `price REAL`; its floating-point nature is not modelled. */
  type Price = real

  /** A row of `products`: exactly the four columns of the schema. */
  datatype Product = Product(id: int, name: string, description: string, price: Price)

  /** The objects `init` creates. */
  datatype SchemaObject = ProductsTable | ProductsNameIndex | ProductsDescriptionIndex | OrdersTable

  /** The `products` table: rows by rowid, rowids in scan order, last AUTOINCREMENT value. */
  datatype Table = Table(rows: map<int, Product>, order: seq<int>, lastId: int)

  datatype DbState = DbState(schema: set<SchemaObject>, products: Table)

  /** What a statement reports to its callback: an error message or a value. */
  datatype Outcome<T> = Done(value: T) | Failed(message: string)

  /** A statement's outcome together with the database it leaves behind. */
  datatype Step<T> = Step(outcome: Outcome<T>, next: DbState)

  /** The largest rowid; AUTOINCREMENT refuses to go past it. */
  const MAX_ROWID: int := 0x7FFF_FFFF_FFFF_FFFF

  const NO_SUCH_TABLE: string := "SQLITE_ERROR: no such table: products"
  const DATATYPE_MISMATCH: string := "SQLITE_MISMATCH: datatype mismatch"
  const DATABASE_FULL: string := "SQLITE_FULL: database or disk is full"

  const EMPTY_TABLE: Table := Table(map[], [], 0)

  /** Everything `init` creates with CREATE ... IF NOT EXISTS. */
  const INIT_SCHEMA: set<SchemaObject> :=
    {ProductsTable, ProductsNameIndex, ProductsDescriptionIndex, OrdersTable}

  predicate Increasing(s: seq<int>)
  {
    forall i, j | 0 <= i < j < |s| :: s[i] < s[j]
  }

  /**
   * The primary key is the map key and the row's own id, every row is
   * scanned exactly once in rowid order, and no rowid exceeds the counter.
   */
  predicate TableValid(t: Table)
  {
    && 0 <= t.lastId <= MAX_ROWID
    && Increasing(t.order)
    && (forall i | 0 <= i < |t.order| :: t.order[i] in t.rows)
    && (forall k | k in t.rows :: k in t.order && t.rows[k].id == k && 0 < k <= t.lastId)
  }

  predicate DbValid(s: DbState)
  {
    TableValid(s.products) && (ProductsTable !in s.schema ==> s.products == EMPTY_TABLE)
  }

  /**
   * The rowid a `WHERE id = ?` comparison sees for a text parameter: the
   * INTEGER affinity of the key column turns a signed decimal numeral into
   * its integer value; any other text matches no row.
   */
  function RowidOf(param: string): (r: Option<int>)
    ensures forall i | 0 < i < |param| :: !IsDigit(param[i]) ==> r.None?
    ensures r.Some? ==> param != [] && (r.value < 0 <==> param[0] == '-' && r.value != 0)
  {
    if |param| > 1 && (param[0] == '+' || param[0] == '-') && AllDigits(param[1..]) then
      var magnitude := NumeralValue(param[1..], 10);
      Some(if param[0] == '-' then -(magnitude as int) else magnitude)
    else if param != [] && AllDigits(param) then
      Some(NumeralValue(param, 10))
    else
      None
  }

  /** The row a key parameter selects, if any. */
  function Lookup(t: Table, param: string): (r: Option<Product>)
    ensures r.Some? ==> r.value in t.rows.Values
    ensures TableValid(t) && r.Some? ==> Some(r.value.id) == RowidOf(param)
    ensures r.None? ==> forall k | k in t.rows :: Some(k) != RowidOf(param)
  {
    var key := RowidOf(param);
    if key.Some? && key.value in t.rows then Some(t.rows[key.value]) else None
  }

  /** `SELECT * FROM products`: every row, in rowid order. */
  function Listing(t: Table): (r: seq<Product>)
    requires TableValid(t)
    ensures |r| == |t.order|
    ensures forall i | 0 <= i < |r| :: r[i] == t.rows[t.order[i]]
  {
    seq(|t.order|, i requires 0 <= i < |t.order| => t.rows[t.order[i]])
  }

  /**
   * `LIMIT limit OFFSET offset` applied to `rows`: a negative offset counts
   * as zero and a negative limit sets no upper bound.
   */
  function Window(rows: seq<Product>, limit: int, offset: int): (r: seq<Product>)
    ensures var start := Min(Max(offset, 0), |rows|);
      && |r| == (if limit < 0 then |rows| - start else Min(limit, |rows| - start))
      && r == rows[start..start + |r|]
  {
    var start := Min(Max(offset, 0), |rows|);
    var end := if limit < 0 then |rows| else Min(start + limit, |rows|);
    rows[start..end]
  }

  /** The error a statement on `products` reports before touching any row. */
  function StatementError(s: DbState, fault: Option<string>): Option<string>
  {
    if ProductsTable !in s.schema then Some(NO_SUCH_TABLE) else fault
  }

  /** `init`: each CREATE ... IF NOT EXISTS adds its object unless it is there. */
  function Initialized(s: DbState): (r: DbState)
    ensures r.products == s.products
    ensures r.schema == s.schema + INIT_SCHEMA
  {
    s.(schema := s.schema + INIT_SCHEMA)
  }

  function SelectAll(s: DbState, fault: Option<string>): (r: Outcome<seq<Product>>)
    requires DbValid(s)
    ensures r.Done? <==> ProductsTable in s.schema && fault.None?
    ensures ProductsTable !in s.schema ==> r == Failed(NO_SUCH_TABLE)
    ensures r.Done? ==> r.value == Listing(s.products)
  {
    match StatementError(s, fault)
    case Some(m) => Failed(m)
    case None => Done(Listing(s.products))
  }

  /** `SELECT * FROM products LIMIT ? OFFSET ?`; a NaN offset binds as NULL. */
  function SelectWindow(s: DbState, limit: int, offset: JsNumber, fault: Option<string>): (r: Outcome<seq<Product>>)
    requires DbValid(s)
    ensures r.Done? <==> ProductsTable in s.schema && fault.None? && offset.Num?
    ensures ProductsTable !in s.schema ==> r == Failed(NO_SUCH_TABLE)
    ensures ProductsTable in s.schema && fault.None? && offset.NaN? ==> r == Failed(DATATYPE_MISMATCH)
    ensures r.Done? ==> r.value == Window(Listing(s.products), limit, offset.value)
  {
    match StatementError(s, fault)
    case Some(m) => Failed(m)
    case None =>
      if offset.NaN? then Failed(DATATYPE_MISMATCH)
      else Done(Window(Listing(s.products), limit, offset.value))
  }

  /** `SELECT * FROM products WHERE id = ?`. */
  function SelectById(s: DbState, param: string, fault: Option<string>): (r: Outcome<Option<Product>>)
    ensures r.Done? <==> ProductsTable in s.schema && fault.None?
    ensures ProductsTable !in s.schema ==> r == Failed(NO_SUCH_TABLE)
    ensures r.Done? ==> r.value == Lookup(s.products, param)
  {
    match StatementError(s, fault)
    case Some(m) => Failed(m)
    case None => Done(Lookup(s.products, param))
  }

  /**
   * `INSERT INTO products (name, description, price) VALUES (?, ?, ?)`; the
   * value is the new rowid (`this.lastID`).
   */
  function InsertRow(s: DbState, name: string, description: string, price: Price, fault: Option<string>): (r: Step<int>)
    requires DbValid(s)
    ensures DbValid(r.next)
    ensures r.outcome.Failed? ==> r.next == s
    ensures r.next.schema == s.schema && r.next.products.lastId >= s.products.lastId
    ensures r.outcome.Done? ==>
      && r.outcome.value == r.next.products.lastId
      && r.outcome.value > s.products.lastId
      && r.outcome.value !in s.products.rows
  {
    var t := s.products;
    match StatementError(s, fault)
    case Some(m) => Step(Failed(m), s)
    case None =>
      if t.lastId == MAX_ROWID then Step(Failed(DATABASE_FULL), s)
      else
        var id := t.lastId + 1;
        Step(Done(id), s.(products := Table(t.rows[id := Product(id, name, description, price)], t.order + [id], id)))
  }

  /**
   * `UPDATE products SET name = ?, description = ?, price = ? WHERE id = ?`;
   * the value is the number of rows changed (`this.changes`).
   */
  function UpdateRow(s: DbState, param: string, name: string, description: string, price: Price,
                     fault: Option<string>): (r: Step<nat>)
    requires DbValid(s)
    ensures DbValid(r.next)
    ensures r.outcome.Failed? || r.outcome == Done(0) ==> r.next == s
    ensures r.next.schema == s.schema && r.next.products.lastId == s.products.lastId
    ensures r.outcome.Done? ==> r.outcome.value <= 1
    ensures r.outcome.Done? && r.outcome.value > 0 ==> Lookup(s.products, param).Some?
  {
    var t := s.products;
    match StatementError(s, fault)
    case Some(m) => Step(Failed(m), s)
    case None =>
      var key := RowidOf(param);
      if key.Some? && key.value in t.rows then
        var k := key.value;
        Step(Done(1), s.(products := t.(rows := t.rows[k := Product(k, name, description, price)])))
      else
        Step(Done(0), s)
  }

  /** `order` with `k` taken out. */
  function Without(order: seq<int>, k: int): (r: seq<int>)
    ensures forall x :: x in r <==> x in order && x != k
    ensures forall i | 0 <= i < |r| :: r[i] in order && r[i] != k
    ensures Increasing(order) ==> Increasing(r)
  {
    if order == [] then []
    else if order[0] == k then Without(order[1..], k)
    else [order[0]] + Without(order[1..], k)
  }

  /** `DELETE FROM products WHERE id = ?`; the value is `this.changes`. */
  function DeleteRow(s: DbState, param: string, fault: Option<string>): (r: Step<nat>)
    requires DbValid(s)
    ensures DbValid(r.next)
    ensures r.outcome.Failed? || r.outcome == Done(0) ==> r.next == s
    ensures r.next.schema == s.schema && r.next.products.lastId == s.products.lastId
    ensures r.outcome.Done? ==> r.outcome.value <= 1
    ensures r.outcome.Done? && r.outcome.value > 0 ==> Lookup(s.products, param).Some?
  {
    var t := s.products;
    match StatementError(s, fault)
    case Some(m) => Step(Failed(m), s)
    case None =>
      var key := RowidOf(param);
      if key.Some? && key.value in t.rows then
        var k := key.value;
        Step(Done(1), s.(products := t.(rows := t.rows - {k}, order := Without(t.order, k))))
      else
        Step(Done(0), s)
  }

  /** The decimal form of a rowid selects that rowid. */
  lemma RowidOfDecimalString(n: nat)
    ensures RowidOf(DecimalString(n)) == Some(n)
  {
    DecimalStringValue(n);
  }

  /** Whenever a parameter selects a rowid, `parseInt` reads the same integer from it. */
  lemma RowidAgreesWithParseInt(param: string)
    requires RowidOf(param).Some?
    ensures ParseInt(param) == Num(RowidOf(param).value)
  {
    var magnitude := NumeralValue(param[1..], 10);
    if |param| > 1 && (param[0] == '+' || param[0] == '-') && AllDigits(param[1..]) {
      assert RowidOf(param).value == if param[0] == '-' then -(magnitude as int) else magnitude;
      ParseIntOfSignedNumeral(param);
    } else {
      assert RowidOf(param).value == NumeralValue(param, 10);
      ParseIntOfNumeral(param);
    }
  }

  /** Rows come out of a scan with strictly increasing ids. */
  lemma ListingIdsIncreasing(t: Table)
    requires TableValid(t)
    ensures forall i, j | 0 <= i < j < |Listing(t)| :: Listing(t)[i].id < Listing(t)[j].id
  {
  }

  /** A scan lists exactly the stored rows. */
  lemma ListingHasEveryRow(t: Table)
    requires TableValid(t)
    ensures forall p: Product :: p in Listing(t) <==> p.id in t.rows && t.rows[p.id] == p
  {
    forall p: Product | p.id in t.rows && t.rows[p.id] == p
      ensures p in Listing(t)
    {
      var i :| 0 <= i < |t.order| && t.order[i] == p.id;
      assert Listing(t)[i] == p;
    }
    forall p: Product | p in Listing(t)
      ensures p.id in t.rows && t.rows[p.id] == p
    {
      var i :| 0 <= i < |Listing(t)| && Listing(t)[i] == p;
      assert t.order[i] in t.rows;
    }
  }

  /** An insert appends the new row at the end of the scan. */
  lemma {:induction false} ListingAfterInsert(s: DbState, name: string, description: string, price: Price)
    requires DbValid(s) && ProductsTable in s.schema && s.products.lastId < MAX_ROWID
    ensures var id := s.products.lastId + 1;
      Listing(InsertRow(s, name, description, price, None).next.products)
        == Listing(s.products) + [Product(id, name, description, price)]
  {
    var t := s.products;
    var t' := InsertRow(s, name, description, price, None).next.products;
    var id := t.lastId + 1;
    assert t'.order == t.order + [id];
    forall i | 0 <= i < |t.order|
      ensures Listing(t')[i] == Listing(t)[i]
    {
      assert t.order[i] in t.rows;
      assert t.order[i] <= t.lastId;
    }
  }

  /** A successful insert adds exactly one row, under the next counter value, at the end of the scan. */
  lemma InsertAppends(s: DbState, name: string, description: string, price: Price)
    requires DbValid(s) && ProductsTable in s.schema && s.products.lastId < MAX_ROWID
    ensures var id := s.products.lastId + 1;
      var p := Product(id, name, description, price);
      var r := InsertRow(s, name, description, price, None);
      && r.outcome == Done(id)
      && r.next.products.lastId == id
      && r.next.products.rows == s.products.rows[id := p]
      && id !in s.products.rows
      && |r.next.products.rows| == |s.products.rows| + 1
      && Listing(r.next.products) == Listing(s.products) + [p]
  {
    ListingAfterInsert(s, name, description, price);
  }

  /** Re-running `init` changes nothing, and `init` never touches rows. */
  lemma InitIdempotent(s: DbState)
    requires DbValid(s)
    ensures Initialized(Initialized(s)) == Initialized(s)
    ensures Initialized(s).products == s.products
    ensures INIT_SCHEMA <= s.schema ==> Initialized(s) == s
  {
  }

  /**
   * The database connection: the schema and the `products` table, changed in
   * place by the statements.
   */
  class Database {
    var schema: set<SchemaObject>
    var rows: map<int, Product>
    var order: seq<int>
    var lastId: int

    function State(): DbState
      reads this
    {
      DbState(schema, Table(rows, order, lastId))
    }

    ghost predicate Valid()
      reads this
    {
      DbValid(State())
    }

    /** A database file with no tables yet. */
    constructor ()
      ensures Valid() && State() == DbState({}, EMPTY_TABLE)
    {
      schema := {};
      rows := map[];
      order := [];
      lastId := 0;
    }

    /** One `CREATE ... IF NOT EXISTS` statement. */
    method CreateIfNotExists(obj: SchemaObject)
      requires Valid()
      modifies this
      ensures Valid()
      ensures State() == old(State()).(schema := old(schema) + {obj})
    {
      if obj !in schema {
        schema := schema + {obj};
      }
    }

    /** `init`: the four CREATE statements, run in order. */
    method Init()
      requires Valid()
      modifies this
      ensures Valid()
      ensures State() == Initialized(old(State()))
    {
      CreateIfNotExists(ProductsTable);
      CreateIfNotExists(ProductsNameIndex);
      CreateIfNotExists(ProductsDescriptionIndex);
      CreateIfNotExists(OrdersTable);
    }

    method QueryAll(fault: Option<string>) returns (r: Outcome<seq<Product>>)
      requires Valid()
      ensures r == SelectAll(State(), fault)
    {
      if ProductsTable !in schema {
        r := Failed(NO_SUCH_TABLE);
      } else if fault.Some? {
        r := Failed(fault.value);
      } else {
        r := Done(Listing(Table(rows, order, lastId)));
      }
    }

    method QueryWindow(limit: int, offset: JsNumber, fault: Option<string>) returns (r: Outcome<seq<Product>>)
      requires Valid()
      ensures r == SelectWindow(State(), limit, offset, fault)
    {
      if ProductsTable !in schema {
        r := Failed(NO_SUCH_TABLE);
      } else if fault.Some? {
        r := Failed(fault.value);
      } else if offset.NaN? {
        r := Failed(DATATYPE_MISMATCH);
      } else {
        r := Done(Window(Listing(Table(rows, order, lastId)), limit, offset.value));
      }
    }

    method QueryById(param: string, fault: Option<string>) returns (r: Outcome<Option<Product>>)
      requires Valid()
      ensures r == SelectById(State(), param, fault)
    {
      if ProductsTable !in schema {
        r := Failed(NO_SUCH_TABLE);
      } else if fault.Some? {
        r := Failed(fault.value);
      } else {
        var key := RowidOf(param);
        if key.Some? && key.value in rows {
          r := Done(Some(rows[key.value]));
        } else {
          r := Done(None);
        }
      }
    }

    method Insert(name: string, description: string, price: Price, fault: Option<string>) returns (r: Outcome<int>)
      requires Valid()
      modifies this
      ensures Valid()
      ensures Step(r, State()) == InsertRow(old(State()), name, description, price, fault)
    {
      if ProductsTable !in schema {
        r := Failed(NO_SUCH_TABLE);
      } else if fault.Some? {
        r := Failed(fault.value);
      } else if lastId == MAX_ROWID {
        r := Failed(DATABASE_FULL);
      } else {
        var id := lastId + 1;
        rows := rows[id := Product(id, name, description, price)];
        order := order + [id];
        lastId := id;
        r := Done(id);
      }
    }

    method Update(param: string, name: string, description: string, price: Price, fault: Option<string>)
      returns (r: Outcome<nat>)
      requires Valid()
      modifies this
      ensures Valid()
      ensures Step(r, State()) == UpdateRow(old(State()), param, name, description, price, fault)
    {
      if ProductsTable !in schema {
        r := Failed(NO_SUCH_TABLE);
      } else if fault.Some? {
        r := Failed(fault.value);
      } else {
        var key := RowidOf(param);
        if key.Some? && key.value in rows {
          rows := rows[key.value := Product(key.value, name, description, price)];
          r := Done(1);
        } else {
          r := Done(0);
        }
      }
    }

    method Delete(param: string, fault: Option<string>) returns (r: Outcome<nat>)
      requires Valid()
      modifies this
      ensures Valid()
      ensures Step(r, State()) == DeleteRow(old(State()), param, fault)
    {
      if ProductsTable !in schema {
        r := Failed(NO_SUCH_TABLE);
      } else if fault.Some? {
        r := Failed(fault.value);
      } else {
        var key := RowidOf(param);
        if key.Some? && key.value in rows {
          rows := rows - {key.value};
          order := Without(order, key.value);
          r := Done(1);
        } else {
          r := Done(0);
        }
      }
    }
  }
}

/**
 * seed.js: `init` followed by 5000 inserts of generated products.  The
 * random prices are a parameter: `prices(i)` is the price of the i-th insert.
 */
module Seed {
  import opened Wrappers
  import opened Js
  import opened Store
  import opened Server

  const TAGS: seq<string> := ["Alpha", "Beta", "Gama", "Delta", "Omega", "Prime", "Lite", "Pro"]
  const SEED_COUNT: nat := 5000

  /** `tags[i % tags.length]`. */
  function Tag(i: nat): (t: string)
    ensures t in TAGS
  {
    TAGS[i % |TAGS|]
  }

  const NAME_PREFIX: string := "Produto "
  const NAME_SEPARATOR: string := " - "

  /** `Produto <i> - <tag>`: the index in decimal after a fixed prefix, the tag at the end. */
  function RandomName(i: nat): (r: string)
    ensures |r| > |NAME_PREFIX| + |NAME_SEPARATOR| + |Tag(i)|
    ensures NAME_PREFIX <= r
    ensures Tag(i) == r[|r| - |Tag(i)|..]
  {
    NAME_PREFIX + DecimalString(i) + (NAME_SEPARATOR + Tag(i))
  }

  const DESC_PREFIX: string := "Descrição detalhada do produto "
  const DESC_SUFFIX: string :=
    "." + " Texto para testar queries de busca e paginação. Características, especificações e detalhes."

  /** The index in decimal between the fixed opening and closing sentences. */
  function RandomDesc(i: nat): (r: string)
    ensures |r| > |DESC_PREFIX| + |DESC_SUFFIX|
    ensures DESC_PREFIX <= r
    ensures DESC_SUFFIX == r[|r| - |DESC_SUFFIX|..]
  {
    DESC_PREFIX + DecimalString(i) + DESC_SUFFIX
  }

  /** The products the seed loop creates on top of a counter at `base`, in insertion order. */
  function SeedProducts(base: int, n: nat, prices: int -> Price): (r: seq<Product>)
    ensures |r| == n
  {
    seq(n, k requires 0 <= k < n => Product(base + k + 1, RandomName(k + 1), RandomDesc(k + 1), prices(k + 1)))
  }

  /**
   * The database after the first `n` inserts of the seed loop.  A failed
   * insert leaves the state as it was; in the script it would raise an
   * unhandled `error` event instead, but after `init` the only insert
   * failure the model knows is an exhausted AUTOINCREMENT counter.
   */
  function Seeded(s: DbState, n: nat, prices: int -> Price): (r: DbState)
    requires DbValid(s)
    ensures DbValid(r) && r.schema == s.schema
  {
    if n == 0 then s
    else InsertRow(Seeded(s, n - 1, prices), RandomName(n), RandomDesc(n), prices(n), None).next
  }

  /** `runSeed`: inserts for i = 1..5000, in increasing order. */
  method RunSeed(db: Database, prices: int -> Price)
    requires db.Valid()
    modifies db
    ensures db.Valid()
    ensures db.State() == Seeded(old(db.State()), SEED_COUNT, prices)
  {
    for i := 1 to SEED_COUNT + 1
      invariant db.Valid()
      invariant db.State() == Seeded(old(db.State()), i - 1, prices)
    {
      var name := RandomName(i);
      var desc := RandomDesc(i);
      var outcome := db.Insert(name, desc, prices(i), None);
    }
  }

  /** The whole script: `init()`, then `runSeed()`. */
  method SeedDatabase(db: Database, prices: int -> Price)
    requires db.Valid()
    modifies db
    ensures db.Valid() && ProductsTable in db.schema
    ensures db.State() == Seeded(Initialized(old(db.State())), SEED_COUNT, prices)
  {
    db.Init();
    RunSeed(db, prices);
  }

  /** The tag index is always within the list, and tags repeat with period 8. */
  lemma TagPeriodic(i: nat)
    ensures 0 <= i % |TAGS| < |TAGS|
    ensures Tag(i + |TAGS|) == Tag(i)
  {
    var n := |TAGS|;
    assert n == 8;
    assert (i + n) % n == i % n;
  }

  /** Different indexes give different names. */
  lemma RandomNameInjective(i: nat, j: nat)
    requires RandomName(i) == RandomName(j)
    ensures i == j
  {
    var x, y := NAME_SEPARATOR + Tag(i), NAME_SEPARATOR + Tag(j);
    assert x[0] == ' ' && y[0] == ' ';
    NumeralInTemplate(NAME_PREFIX, i, x, j, y);
  }

  /** Different indexes give different descriptions. */
  lemma RandomDescInjective(i: nat, j: nat)
    requires RandomDesc(i) == RandomDesc(j)
    ensures i == j
  {
    assert DESC_SUFFIX[0] == '.';
    NumeralInTemplate(DESC_PREFIX, i, DESC_SUFFIX, j, DESC_SUFFIX);
  }

  /**
   * With the table in place and room in the counter, the first `n` inserts
   * append exactly `n` rows, with consecutive ids after the old counter,
   * in loop order, and change no existing row.
   */
  lemma {:induction false} SeededAppends(s: DbState, n: nat, prices: int -> Price)
    requires DbValid(s) && ProductsTable in s.schema && s.products.lastId + n <= MAX_ROWID
    ensures AppendedBy(s.products, Seeded(s, n, prices).products, SeedProducts(s.products.lastId, n, prices))
  {
    if n > 0 {
      var before := Seeded(s, n - 1, prices);
      SeededAppends(s, n - 1, prices);
      var name, desc, price := RandomName(n), RandomDesc(n), prices(n);
      var after := InsertRow(before, name, desc, price, None).next;
      assert Seeded(s, n, prices) == after;
      InsertAppends(before, name, desc, price);
      var base := s.products.lastId;
      var added := SeedProducts(base, n - 1, prices);
      assert before.products.lastId == base + (n - 1);
      var p := Product(base + n, name, desc, price);
      SeedProductsSnoc(base, n, prices);
      assert SeedProducts(base, n, prices) == added + [p];
      AppendOne(s.products, before.products, after.products, added, p);
    }
  }

  /**
   * `r` is `t` with the rows `added` appended: consecutive ids after the old
   * counter, at the end of the scan, and no existing row changed.
   */
  ghost predicate AppendedBy(t: Table, r: Table, added: seq<Product>)
    requires TableValid(t) && TableValid(r)
  {
    && r.lastId == t.lastId + |added|
    && Listing(r) == Listing(t) + added
    && |r.rows| == |t.rows| + |added|
    && (forall k | k in t.rows :: k in r.rows && r.rows[k] == t.rows[k])
  }

  /** Appending one more row to a table that already has `added` appended. */
  lemma AppendOne(t: Table, before: Table, after: Table, added: seq<Product>, p: Product)
    requires TableValid(t) && TableValid(before) && TableValid(after)
    requires AppendedBy(t, before, added)
    requires after.lastId == before.lastId + 1 && p.id == after.lastId
    requires after.rows == before.rows[p.id := p] && p.id !in before.rows
    requires |after.rows| == |before.rows| + 1 && Listing(after) == Listing(before) + [p]
    ensures AppendedBy(t, after, added + [p])
  {
    assert Listing(after) == Listing(t) + (added + [p]);
  }

  lemma SeedProductsSnoc(base: int, n: nat, prices: int -> Price)
    requires n > 0
    ensures SeedProducts(base, n, prices)
         == SeedProducts(base, n - 1, prices) + [Product(base + n, RandomName(n), RandomDesc(n), prices(n))]
  {
  }

  /**
   * Seeding an empty database yields products 1..5000 in loop order, and a
   * page request `?limit=L&offset=O` then returns products O+1..O+L (cut at 5000).
   */
  lemma SeedThenListPage(prices: int -> Price, limit: nat, offset: nat)
    requires limit > 0
    ensures var s := Seeded(Initialized(DbState({}, EMPTY_TABLE)), SEED_COUNT, prices);
      var all := SeedProducts(0, SEED_COUNT, prices);
      && Listing(s.products) == all
      && ListRoute(s, DecimalString(limit), DecimalString(offset), None)
         == Ok(ProductListJson(all[Min(offset, SEED_COUNT)..Min(offset + limit, SEED_COUNT)]))
  {
    var start := Initialized(DbState({}, EMPTY_TABLE));
    assert Listing(start.products) == [];
    SeededAppends(start, SEED_COUNT, prices);
    ListPageOfDecimals(Seeded(start, SEED_COUNT, prices), limit, offset);
  }
}

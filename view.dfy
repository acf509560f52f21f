/**
 * The browser page of public/js/script.js as a state machine: the product
 * list it holds (`allProducts`), the page it shows (`currentPage`), and what
 * it renders from them.
 *
 * A `fetch` and its `res.json()` are an input: `None` when the request is
 * rejected or the body is not JSON, otherwise the server's response.  The
 * confirmation dialog is a boolean input.  Rendered HTML is described by
 * lists of row and button descriptors instead of markup.
 */
module View {
  import opened Wrappers
  import opened Js
  import opened Store
  import opened Server

  const ITEMS_PER_PAGE: nat := 10
  const PREVIEW_LENGTH: nat := 50

  /** The page's global state: `allProducts` and `currentPage`. */
  datatype ViewState = ViewState(allProducts: seq<Product>, currentPage: int)

  /** `Math.ceil(n / itemsPerPage)`. */
  function TotalPages(n: nat): (r: nat)
    ensures r * ITEMS_PER_PAGE >= n
    ensures r > 0 ==> (r - 1) * ITEMS_PER_PAGE < n
  {
    (n + ITEMS_PER_PAGE - 1) / ITEMS_PER_PAGE
  }

  /** The highest page the page may show: `Math.max(1, totalPages)`. */
  function LastPage(n: nat): int
  {
    Max(1, TotalPages(n))
  }

  /** The page shown always exists, counting an empty list as one empty page. */
  predicate PageInvariant(v: ViewState)
  {
    1 <= v.currentPage <= LastPage(|v.allProducts|)
  }

  predicate DistinctIds(ps: seq<Product>)
  {
    forall i, j | 0 <= i < j < |ps| :: ps[i].id != ps[j].id
  }

  /** `if (currentPage > totalPages) currentPage = Math.max(1, totalPages)` for a list of `n` products. */
  function ClampPage(page: int, n: nat): (r: int)
    ensures page >= 1 ==> 1 <= r <= LastPage(n)
    ensures page <= TotalPages(n) ==> r == page
    ensures r != page ==> r == LastPage(n)
  {
    var totalPages := TotalPages(n);
    if page > totalPages then Max(1, totalPages) else page
  }

  /**
   * The array `res.json()` yields for `fetch('/products')`, if it is one:
   * only a successful listing is an array, an error body is an object.
   */
  function ProductArray(payload: Option<Response>): Option<seq<Product>>
  {
    if payload.Some? && payload.value.Ok? && payload.value.body.ProductListJson? then
      Some(payload.value.body.products)
    else
      None
  }

  /**
   * `loadProducts`: on an array, the first `parseInt(limit)` products in
   * server order and page 1; anything else throws before the state changes.
   */
  function AfterLoad(v: ViewState, limitInput: string, payload: Option<Response>): (r: ViewState)
    ensures ProductArray(payload).None? ==> r == v
    ensures ProductArray(payload).Some? ==>
      var data := ProductArray(payload).value;
      && r.currentPage == 1
      && |r.allProducts| <= |data|
      && r.allProducts == data[..|r.allProducts|]
  {
    match ProductArray(payload)
    case None => v
    case Some(data) => ViewState(Slice(data, Num(0), ParseInt(limitInput)), 1)
  }

  /**
   * `refreshTable`: re-slices a fresh listing to the current list length
   * (to the limit input when the list is empty), then pulls the current
   * page back to the last one if it is now past the end.
   */
  function AfterRefresh(v: ViewState, limitInput: string, payload: Option<Response>): (r: ViewState)
    ensures ProductArray(payload).None? ==> r == v
    ensures ProductArray(payload).Some? ==>
      var data := ProductArray(payload).value;
      && |r.allProducts| <= |data|
      && r.allProducts == data[..|r.allProducts|]
      && (|v.allProducts| > 0 ==> r.allProducts == data[..Min(|v.allProducts|, |data|)])
      && (|v.allProducts| == 0 ==> r.allProducts == Slice(data, Num(0), ParseInt(limitInput)))
      && r.currentPage == ClampPage(v.currentPage, |r.allProducts|)
  {
    match ProductArray(payload)
    case None => v
    case Some(data) =>
      var currentLimit := if |v.allProducts| > 0 then DecimalString(|v.allProducts|) else limitInput;
      ParseIntOfDecimalString(|v.allProducts|);
      var list := Slice(data, Num(0), ParseInt(currentLimit));
      ViewState(list, ClampPage(v.currentPage, |list|))
  }

  /** `changePage(page)`: moves only to a page that exists. */
  function AfterChangePage(v: ViewState, page: int): (r: ViewState)
    ensures r.allProducts == v.allProducts
    ensures r.currentPage == page || r == v
    ensures r.currentPage == page <==> 1 <= page <= TotalPages(|v.allProducts|) || v.currentPage == page
  {
    if 1 <= page && page <= TotalPages(|v.allProducts|) then v.(currentPage := page) else v
  }

  /** `allProducts.filter(p => p.id !== id)`. */
  function WithoutId(ps: seq<Product>, id: int): (r: seq<Product>)
    ensures |r| <= |ps|
  {
    if ps == [] then []
    else (if ps[0].id != id then [ps[0]] else []) + WithoutId(ps[1..], id)
  }

  /** The filter keeps exactly the products with another id. */
  lemma {:induction false} WithoutIdMembers(ps: seq<Product>, id: int)
    ensures forall p :: p in WithoutId(ps, id) <==> p in ps && p.id != id
  {
    if ps != [] {
      WithoutIdMembers(ps[1..], id);
      assert ps == [ps[0]] + ps[1..];
    }
  }

  /** `res.ok`: a 2xx status. */
  predicate IsOk(r: Response)
  {
    200 <= StatusCode(r) <= 299
  }

  /**
   * `deleteProduct(id)`: after a confirmed DELETE with a 2xx response, drops
   * the product locally; the page is clamped only when something is left.
   */
  function AfterDelete(v: ViewState, id: int, confirmed: bool, outcome: Option<Response>): (r: ViewState)
    ensures !confirmed || outcome.None? || !IsOk(outcome.value) ==> r == v
    ensures confirmed && outcome.Some? && IsOk(outcome.value) ==>
      && r.allProducts == WithoutId(v.allProducts, id)
      && (r.allProducts == [] ==> r.currentPage == v.currentPage)
      && (r.allProducts != [] ==> r.currentPage == ClampPage(v.currentPage, |r.allProducts|))
  {
    if !confirmed || outcome.None? || !IsOk(outcome.value) then v
    else
      var list := WithoutId(v.allProducts, id);
      if |list| == 0 then v.(allProducts := list)
      else ViewState(list, ClampPage(v.currentPage, |list|))
  }

  // ----- Rendering -----

  /** One table row: id, name, shortened description and price. */
  datatype Row = Row(id: int, name: string, description: string, price: Price)

  /** `d.substring(0, 50)` followed by "..." when the description is longer. */
  function Truncate(d: string): (r: string)
    ensures |r| <= PREVIEW_LENGTH + 3
    ensures |d| <= PREVIEW_LENGTH ==> r == d
    ensures |d| > PREVIEW_LENGTH ==> |r| == PREVIEW_LENGTH + 3 && r[..PREVIEW_LENGTH] == d[..PREVIEW_LENGTH]
    ensures |d| > PREVIEW_LENGTH ==> r[PREVIEW_LENGTH..] == "..."
  {
    d[..Min(PREVIEW_LENGTH, |d|)] + (if |d| > PREVIEW_LENGTH then "..." else "")
  }

  /** The row template: the product's own id, name and price, and the description cut to a preview. */
  function RowOf(p: Product): (r: Row)
    ensures r.id == p.id && r.name == p.name && r.price == p.price
    ensures |r.description| <= PREVIEW_LENGTH + 3
    ensures |p.description| <= PREVIEW_LENGTH ==> r.description == p.description
  {
    Row(p.id, p.name, Truncate(p.description), p.price)
  }

  /** `renderProducts`: the rows of `allProducts.slice(start, start + 10)` for the given page. */
  function PageRows(ps: seq<Product>, page: int): (rows: seq<Row>)
    ensures |rows| <= ITEMS_PER_PAGE
    ensures page >= 1 ==>
      var start := (page - 1) * ITEMS_PER_PAGE;
      && |rows| == Max(0, Min(ITEMS_PER_PAGE, |ps| - start))
      && forall k | 0 <= k < |rows| :: rows[k] == RowOf(ps[start + k])
  {
    var start := (page - 1) * ITEMS_PER_PAGE;
    var shown := Slice(ps, Num(start), Num(start + ITEMS_PER_PAGE));
    seq(|shown|, k requires 0 <= k < |shown| => RowOf(shown[k]))
  }

  /** What `renderPagination` emits, in order. */
  datatype PagerItem =
    | Previous(target: int, disabled: bool)
    | PageButton(page: int, active: bool)
      // `<span>...</span>`; `at` is the page it stands for, which is not displayed
    | Gap(at: int)
    | Next(target: int, disabled: bool)

  /** The page number an item stands for; 0 for the arrows. */
  function Position(x: PagerItem): int
  {
    match x
    case PageButton(page, _) => page
    case Gap(at) => at
    case _ => 0
  }

  /** Page `i` gets a button: first, last, and the current page with its neighbours. */
  predicate Shown(i: int, currentPage: int, totalPages: int)
  {
    i == 1 || i == totalPages || (currentPage - 1 <= i <= currentPage + 1)
  }

  /** One iteration of the page loop. */
  function Slot(i: int, currentPage: int, totalPages: int): (r: seq<PagerItem>)
    ensures |r| <= 1
    ensures r != [] ==> Position(r[0]) == i
  {
    if Shown(i, currentPage, totalPages) then [PageButton(i, i == currentPage)]
    else if i == currentPage - 2 || i == currentPage + 2 then [Gap(i)]
    else []
  }

  /** The page loop run for i = 1..n. */
  function PageSlots(n: nat, currentPage: int, totalPages: int): (r: seq<PagerItem>)
    ensures |r| <= n
  {
    if n == 0 then [] else PageSlots(n - 1, currentPage, totalPages) + Slot(n, currentPage, totalPages)
  }

  /** `renderPagination`: nothing for a single page, else the arrows around the page loop. */
  function Pagination(currentPage: int, totalPages: nat): (items: seq<PagerItem>)
    ensures items == [] <==> totalPages <= 1
  {
    if totalPages > 1 then
      [Previous(currentPage - 1, currentPage == 1)]
      + PageSlots(totalPages, currentPage, totalPages)
      + [Next(currentPage + 1, currentPage == totalPages)]
    else []
  }

  /** The item describes a page the loop emits for `i`: a button for a shown page, a gap next to it. */
  predicate SlotItem(x: PagerItem, currentPage: int, totalPages: int)
  {
    || (x.PageButton? && Shown(x.page, currentPage, totalPages) && x.active == (x.page == currentPage))
    || (x.Gap? && !Shown(x.at, currentPage, totalPages) && (x.at == currentPage - 2 || x.at == currentPage + 2))
  }

  /** `s` holds exactly the buttons and gaps due for pages 1..n, by increasing page. */
  ghost predicate LaidOut(s: seq<PagerItem>, n: nat, currentPage: int, totalPages: int)
  {
    && (forall x | x in s :: SlotItem(x, currentPage, totalPages) && 1 <= Position(x) <= n)
    && (forall i | 1 <= i <= n && Shown(i, currentPage, totalPages) :: PageButton(i, i == currentPage) in s)
    && (forall i | 1 <= i <= n && !Shown(i, currentPage, totalPages) && (i == currentPage - 2 || i == currentPage + 2) ::
          Gap(i) in s)
    && (forall a, b | 0 <= a < b < |s| :: Position(s[a]) < Position(s[b]))
  }

  /** One more iteration of the page loop extends a layout of pages 1..n-1 to pages 1..n. */
  lemma SlotExtendsLayout(s: seq<PagerItem>, n: nat, currentPage: int, totalPages: int)
    requires n > 0 && LaidOut(s, n - 1, currentPage, totalPages)
    ensures LaidOut(s + Slot(n, currentPage, totalPages), n, currentPage, totalPages)
  {
    var t := Slot(n, currentPage, totalPages);
    forall x | x in s + t
      ensures SlotItem(x, currentPage, totalPages) && 1 <= Position(x) <= n
    {
      if x !in s {
        assert x == t[0];
        assert SlotItem(t[0], currentPage, totalPages);
      }
    }
    forall a, b | 0 <= a < b < |s + t|
      ensures Position((s + t)[a]) < Position((s + t)[b])
    {
      assert (s + t)[a] == s[a];
      if b >= |s| {
        assert s[a] in s;
        assert (s + t)[b] == t[0];
      } else {
        assert (s + t)[b] == s[b];
      }
    }
  }

  /** The page loop up to `n` emits exactly the buttons and gaps due for 1..n, by increasing page. */
  lemma {:induction false} PageSlotsLayout(n: nat, currentPage: int, totalPages: int)
    ensures LaidOut(PageSlots(n, currentPage, totalPages), n, currentPage, totalPages)
  {
    if n > 0 {
      PageSlotsLayout(n - 1, currentPage, totalPages);
      SlotExtendsLayout(PageSlots(n - 1, currentPage, totalPages), n, currentPage, totalPages);
    }
  }

  /**
   * Past one page: Previous first (disabled exactly on page 1), Next last
   * (disabled exactly on the last page), a button for exactly the first,
   * last, current and neighbouring pages (active exactly for the current
   * one), "..." for exactly the pages two away from the current one that
   * have no button, all in page order.
   */
  lemma PaginationLayout(currentPage: int, totalPages: nat)
    requires totalPages > 1
    ensures var items := Pagination(currentPage, totalPages);
      && items[0] == Previous(currentPage - 1, currentPage == 1)
      && items[|items| - 1] == Next(currentPage + 1, currentPage == totalPages)
      && (forall i, active :: PageButton(i, active) in items <==>
            1 <= i <= totalPages && Shown(i, currentPage, totalPages) && active == (i == currentPage))
      && (forall i :: Gap(i) in items <==>
            1 <= i <= totalPages && !Shown(i, currentPage, totalPages) && (i == currentPage - 2 || i == currentPage + 2))
      && (forall a | 1 <= a < |items| - 1 :: items[a].PageButton? || items[a].Gap?)
      && (forall a, b | 1 <= a < b < |items| - 1 :: Position(items[a]) < Position(items[b]))
  {
    var s := PageSlots(totalPages, currentPage, totalPages);
    var prev, next := Previous(currentPage - 1, currentPage == 1), Next(currentPage + 1, currentPage == totalPages);
    var items := Pagination(currentPage, totalPages);
    assert items == [prev] + s + [next];
    PageSlotsLayout(totalPages, currentPage, totalPages);
    forall x | x in items && !x.Previous? && !x.Next?
      ensures x in s
    {
    }
    forall a | 1 <= a < |items| - 1
      ensures items[a] == s[a - 1] && (items[a].PageButton? || items[a].Gap?)
    {
      assert s[a - 1] in s;
    }
  }

  /** The request the product form sends. */
  datatype HttpMethod = Post | Put
  datatype SaveRequest = SaveRequest(verb: HttpMethod, url: string, name: string, description: string, price: Price)

  // ----- Properties of the transitions -----

  /** Loading with a numeric limit keeps the first `min(limit, |data|)` products. */
  lemma LoadTakesPrefix(v: ViewState, limitInput: string, data: seq<Product>, limit: nat)
    requires ParseInt(limitInput) == Num(limit)
    ensures AfterLoad(v, limitInput, Some(Ok(ProductListJson(data)))) == ViewState(data[..Min(limit, |data|)], 1)
  {
    var r := AfterLoad(v, limitInput, Some(Ok(ProductListJson(data))));
    assert r.allProducts == data[..Min(limit, |data|)];
  }

  /** A refresh of a non-empty list against a listing at least as long keeps its length. */
  lemma RefreshKeepsLength(v: ViewState, limitInput: string, data: seq<Product>)
    requires PageInvariant(v) && 0 < |v.allProducts| <= |data|
    ensures var r := AfterRefresh(v, limitInput, Some(Ok(ProductListJson(data))));
      r.allProducts == data[..|v.allProducts|] && r.currentPage == v.currentPage
  {
    var r := AfterRefresh(v, limitInput, Some(Ok(ProductListJson(data))));
    assert Min(|v.allProducts|, |data|) == |v.allProducts|;
    assert r.currentPage == ClampPage(v.currentPage, |v.allProducts|);
  }

  lemma LoadKeepsInvariant(v: ViewState, limitInput: string, payload: Option<Response>)
    ensures var r := AfterLoad(v, limitInput, payload);
      && (PageInvariant(v) ==> PageInvariant(r))
      && (ProductArray(payload).Some? ==> PageInvariant(r))
  {
  }

  lemma RefreshKeepsInvariant(v: ViewState, limitInput: string, payload: Option<Response>)
    requires PageInvariant(v)
    ensures PageInvariant(AfterRefresh(v, limitInput, payload))
  {
  }

  lemma ChangePageKeepsInvariant(v: ViewState, page: int)
    requires PageInvariant(v)
    ensures PageInvariant(AfterChangePage(v, page))
  {
  }

  /** Filtering out an id no product has changes nothing. */
  lemma {:induction false} WithoutAbsentId(ps: seq<Product>, id: int)
    requires forall k | 0 <= k < |ps| :: ps[k].id != id
    ensures WithoutId(ps, id) == ps
  {
    if ps != [] {
      WithoutAbsentId(ps[1..], id);
      assert [ps[0]] + ps[1..] == ps;
    }
  }

  /** With distinct ids, deleting the id at position k removes exactly that product and keeps the order. */
  lemma {:induction false} WithoutIdAt(ps: seq<Product>, k: nat)
    requires DistinctIds(ps) && k < |ps|
    ensures WithoutId(ps, ps[k].id) == ps[..k] + ps[k + 1..]
  {
    var id := ps[k].id;
    if k == 0 {
      WithoutAbsentId(ps[1..], id);
    } else {
      assert DistinctIds(ps[1..]);
      WithoutIdAt(ps[1..], k - 1);
      assert ps[1..][k - 1] == ps[k];
      assert ps[1..][..k - 1] + ps[1..][k..] == ps[1..k] + ps[k + 1..];
      assert [ps[0]] + ps[1..k] == ps[..k];
    }
  }

  /** With distinct ids, a delete shortens the list by at most one. */
  lemma WithoutIdLength(ps: seq<Product>, id: int)
    requires DistinctIds(ps)
    ensures |ps| - 1 <= |WithoutId(ps, id)| <= |ps|
    ensures DistinctIds(WithoutId(ps, id))
  {
    if k :| 0 <= k < |ps| && ps[k].id == id {
      WithoutIdAt(ps, k);
      var r := WithoutId(ps, id);
      forall i, j | 0 <= i < j < |r| ensures r[i].id != r[j].id {
        var i', j' := if i < k then i else i + 1, if j < k then j else j + 1;
        assert r[i] == ps[i'] && r[j] == ps[j'];
      }
    } else {
      WithoutAbsentId(ps, id);
    }
  }

  /** With the distinct ids the server hands out, a delete keeps the page in range. */
  lemma DeleteKeepsInvariant(v: ViewState, id: int, confirmed: bool, outcome: Option<Response>)
    requires PageInvariant(v) && DistinctIds(v.allProducts)
    ensures var r := AfterDelete(v, id, confirmed, outcome);
      PageInvariant(r) && DistinctIds(r.allProducts)
  {
    WithoutIdLength(v.allProducts, id);
  }

  /**
   * Without distinct ids the empty-list branch, which skips the clamp, can
   * leave the page past the end: eleven products sharing one id, page 2.
   */
  lemma DeleteWithDuplicateIds()
    ensures var v := ViewState(seq(11, _ => Product(7, "", "", 0.0)), 2);
      var r := AfterDelete(v, 7, true, Some(Ok(MessageJson("Produto 7 removido"))));
      PageInvariant(v) && !PageInvariant(r)
  {
    var v := ViewState(seq(11, _ => Product(7, "", "", 0.0)), 2);
    WithoutEveryId(v.allProducts, 7);
  }

  /** Filtering out the id every product has leaves nothing. */
  lemma {:induction false} WithoutEveryId(ps: seq<Product>, id: int)
    requires forall k | 0 <= k < |ps| :: ps[k].id == id
    ensures WithoutId(ps, id) == []
  {
    if ps != [] {
      WithoutEveryId(ps[1..], id);
    }
  }

  /** Lists fetched from GET /products carry distinct ids, and so do the lists loaded or refreshed from them. */
  lemma FetchedListsDistinct(s: DbState, fault: Option<string>, v: ViewState, limitInput: string)
    requires DbValid(s) && DistinctIds(v.allProducts)
    ensures var payload := Some(ListRoute(s, "", "", fault));
      && DistinctIds(AfterLoad(v, limitInput, payload).allProducts)
      && DistinctIds(AfterRefresh(v, limitInput, payload).allProducts)
  {
    ListedIdsIncreasing(s, "", "", fault);
  }

  /** Product k of the list is row k % 10 of page k / 10 + 1. */
  lemma ProductOnItsPage(ps: seq<Product>, k: nat)
    requires k < |ps|
    ensures var rows := PageRows(ps, k / ITEMS_PER_PAGE + 1);
      k % ITEMS_PER_PAGE < |rows| && rows[k % ITEMS_PER_PAGE] == RowOf(ps[k])
  {
    var page := k / ITEMS_PER_PAGE + 1;
    assert (page - 1) * ITEMS_PER_PAGE + k % ITEMS_PER_PAGE == k;
  }

  /** Whenever there are products, the page shown is not empty. */
  lemma VisiblePageNonEmpty(v: ViewState)
    requires PageInvariant(v) && |v.allProducts| > 0
    ensures |PageRows(v.allProducts, v.currentPage)| > 0
  {
    assert (v.currentPage - 1) * ITEMS_PER_PAGE < |v.allProducts|;
  }

  /** The page script's state, changed in place by its event handlers. */
  class ProductView {
    var allProducts: seq<Product>
    var currentPage: int

    function State(): ViewState
      reads this
    {
      ViewState(allProducts, currentPage)
    }

    ghost predicate Valid()
      reads this
    {
      PageInvariant(State())
    }

    constructor()
      ensures State() == ViewState([], 1) && Valid()
    {
      allProducts := [];
      currentPage := 1;
    }

    method LoadProducts(limitInput: string, payload: Option<Response>)
      modifies this
      ensures State() == AfterLoad(old(State()), limitInput, payload)
      ensures old(Valid()) || ProductArray(payload).Some? ==> Valid()
    {
      LoadKeepsInvariant(State(), limitInput, payload);
      var data := ProductArray(payload);
      if data.None? {
        return;
      }
      allProducts := Slice(data.value, Num(0), ParseInt(limitInput));
      currentPage := 1;
    }

    method RefreshTable(limitInput: string, payload: Option<Response>)
      modifies this
      ensures State() == AfterRefresh(old(State()), limitInput, payload)
      ensures old(Valid()) ==> Valid()
    {
      if Valid() {
        RefreshKeepsInvariant(State(), limitInput, payload);
      }
      var currentLimit := if |allProducts| > 0 then DecimalString(|allProducts|) else limitInput;
      var data := ProductArray(payload);
      if data.None? {
        return;
      }
      allProducts := Slice(data.value, Num(0), ParseInt(currentLimit));
      var totalPages := TotalPages(|allProducts|);
      if currentPage > totalPages {
        currentPage := Max(1, totalPages);
      }
    }

    method ChangePage(page: int)
      modifies this
      ensures State() == AfterChangePage(old(State()), page)
      ensures old(Valid()) ==> Valid()
    {
      if Valid() {
        ChangePageKeepsInvariant(State(), page);
      }
      var totalPages := TotalPages(|allProducts|);
      if page >= 1 && page <= totalPages {
        currentPage := page;
      }
    }

    method DeleteProduct(id: int, confirmed: bool, outcome: Option<Response>)
      modifies this
      ensures State() == AfterDelete(old(State()), id, confirmed, outcome)
      ensures old(Valid() && DistinctIds(allProducts)) ==> Valid() && DistinctIds(allProducts)
    {
      if old(Valid() && DistinctIds(allProducts)) {
        DeleteKeepsInvariant(State(), id, confirmed, outcome);
      }
      if !confirmed || outcome.None? || !IsOk(outcome.value) {
        return;
      }
      allProducts := WithoutId(allProducts, id);
      if |allProducts| > 0 {
        var totalPages := TotalPages(|allProducts|);
        if currentPage > totalPages {
          currentPage := Max(1, totalPages);
        }
      }
    }

    /** The form's submit handler: PUT to the product when the hidden id is set, POST otherwise. */
    method SubmitForm(idField: string, name: string, description: string, price: Price) returns (request: SaveRequest)
      ensures idField != "" ==> request == SaveRequest(Put, "/products/" + idField, name, description, price)
      ensures idField == "" ==> request == SaveRequest(Post, "/products", name, description, price)
    {
      var url := if idField != "" then "/products/" + idField else "/products";
      var verb := if idField != "" then Put else Post;
      request := SaveRequest(verb, url, name, description, price);
    }

    method RenderPagination() returns (items: seq<PagerItem>)
      ensures items == Pagination(currentPage, TotalPages(|allProducts|))
    {
      var totalPages := TotalPages(|allProducts|);
      items := [];
      if totalPages > 1 {
        var prev := Previous(currentPage - 1, currentPage == 1);
        items := [prev];
        for i := 1 to totalPages + 1
          invariant items == [prev] + PageSlots(i - 1, currentPage, totalPages)
        {
          assert PageSlots(i, currentPage, totalPages) == PageSlots(i - 1, currentPage, totalPages) + Slot(i, currentPage, totalPages);
          if i == 1 || i == totalPages || (i >= currentPage - 1 && i <= currentPage + 1) {
            items := items + [PageButton(i, i == currentPage)];
          } else if i == currentPage - 2 || i == currentPage + 2 {
            items := items + [Gap(i)];
          }
        }
        items := items + [Next(currentPage + 1, currentPage == totalPages)];
      }
    }
  }
}

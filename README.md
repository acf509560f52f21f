# Product catalogue — a Dafny model

This project models the core of a small product-catalogue web application:

- **`store.dfy` (module `Store`)** models the SQLite database of `db.js`.
  - It covers the schema `init` creates and the `products` table, with its `INTEGER PRIMARY KEY AUTOINCREMENT` key.
  - It covers the six statements the routes and the seed script run: select all, select a `LIMIT ? OFFSET ?` window, select by id, insert, update and delete.
  - Each statement is a pure function from a `DbState` to a `Step`, which holds the outcome and the next state.
  - `Database` is the same store as a class whose fields the statements change in place. Each of its methods is proved equal to the corresponding function.
- **`server.dfy` (module `Server`)** models the Express routes of `server.js`.
  - The routes are `GET /products?limit=&offset=`, `GET/PUT/DELETE /products/:id`, `POST /products` and `GET /many-items`.
  - Each route is a method over the shared `Database`, tied to a pure route function.
  - The response is `Ok(body)` (200), `Created(body)` (201), `NotFound` (404 `{error: "Produto não encontrado"}`) or `StoreError(message)` (500 `{error: message}`).
- **`seed.js` is modelled by `seed.dfy` (module `Seed`)**: the name and description generators, and the loop inserting products 1..5000.
- **`public/js/script.js` is modelled by `view.dfy` (module `View`)**, the browser page as a state machine.
  - The state is `allProducts` and `currentPage`, with `itemsPerPage = 10`.
  - Its transitions are load, refresh, change page, local delete and form submit.
  - What the page renders (table rows and pagination buttons) is given as lists of descriptors, not HTML.
- **`js.dfy` (module `Js`)** models the JavaScript conversions involved.
  - `parseInt` without a radix: leading white space, one sign, an optional `0x` prefix, the longest run of digits, NaN when there is none.
  - `String(n)` for non-negative integers.
  - `Array.prototype.slice` with NaN and negative bounds.

The model follows the code in these places:

- **Limit and offset.**
  - A falsy or unparsable `limit` issues no `LIMIT` clause, so the offset is ignored.
  - Otherwise the parsed values are bound as SQLite does:
    - a negative `LIMIT` sets no bound;
    - a negative `OFFSET` counts as zero;
    - a NaN offset binds as NULL and fails with `SQLITE_MISMATCH: datatype mismatch`.
- **Parameter matching.** A `:id` parameter matches a row when SQLite's INTEGER affinity turns it into that rowid. Here that means an optionally signed decimal numeral; any other text matches no row. `PUT` echoes `parseInt(req.params.id)`, which `Store.RowidAgreesWithParseInt` shows equals the matched rowid.
- **AUTOINCREMENT.** A new id is one more than the largest id ever assigned, and it fails with `SQLITE_FULL` past the largest rowid. So ids of deleted rows are never reused.
- **Scan order.** `SELECT * FROM products` without `ORDER BY` lists rows in rowid order. The table keeps the rowids in that order next to the rows.
- **Failures.**
  - Every statement fails with `no such table` until `init` has run.
  - Any other store failure (I/O, locking, …) comes in as the parameter `fault`.
- **Fetch results.** In the page script, a `fetch` together with its `res.json()` is an input: `None` when the request is rejected, otherwise the server's `Response`.
  - Only a successful listing is a JSON array.
  - `res.ok` holds for a 2xx status.
- **The page invariant and distinct ids.** The invariant is `1 <= currentPage <= max(1, ceil(|allProducts| / 10))`.
  - Load, refresh and change page preserve it unconditionally.
  - Delete preserves it when product ids are distinct. After a delete that leaves the list empty, the page number is not clamped. With duplicate ids, that state can break the invariant (`View.DeleteWithDuplicateIds`).
  - Lists fetched from `GET /products` always have distinct ids (`View.FetchedListsDistinct`), so the case does not arise with the server's data.

## Model

| member | source | states |
|---|---|---|
| Js.DecimalString | seed.js:17 | `String(n)`: a non-empty all-digit numeral with no leading zero (exactly "0" for zero) |
| Js.DecimalStringValue | server.js:129 | the numeral `String(n)` reads back as `n` |
| Js.DecimalStringInjective | seed.js:17 | different numbers have different numerals |
| Js.LeadingDigits | server.js:17 | the longest prefix made of digits of the radix |
| Js.TrimStart | server.js:17 | drops exactly the leading JavaScript white space |
| Js.ParseInt | server.js:17-18 | `parseInt(s)`: NaN when the text after the white space starts with neither a digit nor a sign; a negative value only after a `-` |
| Js.LeadingDigitsOfNumeral | server.js:17 | an all-digit string is its own digit run |
| Js.ParseIntOfNumeral | server.js:17 | `parseInt` of an unsigned decimal numeral is its value |
| Js.ParseIntOfSignedNumeral | server.js:77 | `parseInt` of `+`/`-` followed by digits is the signed value |
| Js.ParseIntOfDecimalString | public/js/script.js:83 | `parseInt(String(n)) === n` |
| Js.NumeralPrefixUnique | seed.js:17 | two digit runs each followed by a non-digit, in equal strings, are equal |
| Js.NumeralInTemplate | seed.js:17 | a number written between a fixed prefix and a text starting with a non-digit can be read back |
| Js.SliceBound | public/js/script.js:38 | a `slice` bound: NaN is 0, a negative bound counts from the end, clamped to the length |
| Js.Slice | public/js/script.js:38 | `slice(start, end)`: its length and that element i is element start+i |
| Store.Listing | server.js:20 | `SELECT *` lists one row per stored rowid, in scan order |
| Store.RowidOf | server.js:38 | the rowid a text `:id` selects: none once a character past the first is not a digit; negative exactly after a `-` |
| Store.Lookup | server.js:38 | a row found is a stored row whose id is the parameter's rowid; none found means no stored rowid equals it |
| Store.SelectAll | server.js:20-28 | succeeds exactly when the table exists and the store does not fail, with every row in scan order; "no such table" before `init` |
| Store.SelectWindow | server.js:23-28 | succeeds exactly when the table exists, the store does not fail and the offset is a number, with the LIMIT/OFFSET run of the scan; a NaN offset fails with a datatype mismatch |
| Store.SelectById | server.js:38 | succeeds exactly when the table exists and the store does not fail, with the row the parameter selects |
| Store.Window | server.js:24-25 | `LIMIT/OFFSET`: the run of rows from max(offset,0), at most limit long (unbounded when limit < 0) |
| Store.Initialized | db.js:7-27 | `init` adds exactly the four schema objects and keeps every row |
| Store.InsertRow | server.js:52-55 | an insert keeps the table valid; on success its id exceeds the counter and is not in use; on failure nothing changes |
| Store.UpdateRow | server.js:67-69 | an update changes at most one row, and only a matching one; with no match or on failure nothing changes; the counter stays |
| Store.Without | server.js:84 | the rowid list without k: same members except k, still increasing |
| Store.DeleteRow | server.js:84 | a delete removes at most one row, and only a matching one; with no match or on failure nothing changes; the counter stays |
| Store.RowidOfDecimalString | server.js:38 | the decimal form of a rowid selects that rowid |
| Store.RowidAgreesWithParseInt | server.js:77 | whenever `:id` selects a rowid, `parseInt(:id)` is that rowid |
| Store.ListingIdsIncreasing | server.js:20 | the scan lists rows by strictly increasing id |
| Store.ListingHasEveryRow | server.js:20 | a product is listed iff it is the stored row under its id |
| Store.ListingAfterInsert | server.js:53 | after an insert the listing is the old listing plus the new row at the end |
| Store.InsertAppends | db.js:10 | an insert takes id lastId+1, which no row has, adds exactly that row, and appends it to the scan |
| Store.InitIdempotent | db.js:9-25 | running `init` twice equals running it once, `init` never touches rows, and it is a no-op once the schema exists |
| Store.Database.constructor | db.js:5 | a new database file has no tables and no rows |
| Store.Database.CreateIfNotExists | db.js:9-14 | `CREATE ... IF NOT EXISTS` adds the object unless it is there |
| Store.Database.Init | db.js:7-27 | the four CREATE statements leave the state `Initialized` describes |
| Store.Database.QueryAll | server.js:28 | `db.all` without LIMIT answers `SelectAll` on the current state |
| Store.Database.QueryWindow | server.js:24-28 | `db.all` with `LIMIT ? OFFSET ?` answers `SelectWindow` |
| Store.Database.QueryById | server.js:38 | `db.get ... WHERE id = ?` answers `SelectById` |
| Store.Database.Insert | server.js:52-55 | the INSERT changes the fields exactly as `InsertRow` says |
| Store.Database.Update | server.js:67-69 | the UPDATE changes the fields exactly as `UpdateRow` says |
| Store.Database.Delete | server.js:84 | the DELETE changes the fields exactly as `DeleteRow` says |
| Server.LimitClause | server.js:17-26 | no LIMIT clause iff `limit` is absent, NaN or 0; otherwise binds the parsed limit and the parsed offset (0 when absent) |
| Server.ListRoute | server.js:16-34 | the listing answers 200 with at most every stored row, or 500 |
| Server.ReadRoute | server.js:37-47 | 200 with the row the id selects, 404 only when none does, or 500 |
| Server.CreateRoute | server.js:50-62 | 201 with a fresh id and the submitted fields, now stored, or 500 with nothing changed; the store stays valid |
| Server.UpdateRoute | server.js:65-80 | 200 only when the id selects a row, echoing its rowid and the new fields; on 404 or 500 nothing changes |
| Server.DeleteRoute | server.js:83-93 | 200 only when the id selects a row, which then no longer exists; on 404 or 500 nothing changes |
| Server.GetProducts | server.js:16-34 | the handler answers `ListRoute` of the current state |
| Server.GetProduct | server.js:37-47 | the handler answers `ReadRoute` of the current state |
| Server.PostProduct | server.js:50-62 | response and new state are those of `CreateRoute`; the store stays valid |
| Server.PutProduct | server.js:65-80 | response and new state are those of `UpdateRoute`; the store stays valid |
| Server.DeleteProduct | server.js:83-93 | response and new state are those of `DeleteRoute`; the store stays valid |
| Server.ManyItems | server.js:126-132 | exactly 50000 items, item i being `{id: i, name: "Item " + i}` |
| Server.ListWithoutLimitReturnsAll | server.js:17-28 | without a truthy limit the listing is every row, whatever the offset |
| Server.ListWithLimitIsWindow | server.js:23-26 | with a positive limit: min(limit, rows - offset) rows, row i being stored row offset+i |
| Server.ListPageOfDecimals | server.js:17-26 | `?limit=L&offset=O` in decimal returns the listing slice [O, O+L) cut at the end |
| Server.ListedIdsIncreasing | server.js:16-34 | whatever the list route returns is ordered by strictly increasing id |
| Server.SliceIdsIncreasing | server.js:24 | a contiguous run of an id-ordered listing is id-ordered |
| Server.ReadAnswersStoredRow | server.js:38-46 | 404 exactly when no row matches; otherwise 200 with the stored row |
| Server.CreateThenRead | server.js:51-60 | POST adds exactly one row, under an id above every existing one, answers 201 with that id and the submitted fields, and GET of it returns them |
| Server.DeletedIdNeverReused | db.js:10 | after a DELETE, the next POST's id exceeds the deleted id |
| Server.UpdateThenRead | server.js:66-79 | PUT on a stored id overwrites all three fields of that row only, keeps the scan order, and GET sees the new values |
| Server.DeleteThenRead | server.js:84-92 | DELETE removes exactly the matching row and answers "Produto {id} removido"; a second DELETE or GET then answers 404 with nothing changed |
| Server.MissingIdIsNotFound | server.js:42-43 | GET, PUT and DELETE of an unmatched id answer 404 "Produto não encontrado" and leave the store unchanged |
| Server.StoreErrorChangesNothing | server.js:29-31 | on a store error every route answers 500 with the store's message and changes nothing |
| Server.RoutesNeedInit | db.js:9-14 | before `init`, all five product routes, with any query or id, answer 500 "no such table" and change nothing |
| Seed.Tag | seed.js:17 | the tag index `i % 8` always picks one of the eight tags |
| Seed.TagPeriodic | seed.js:17 | the tag index is in bounds and tags repeat with period 8 |
| Seed.RandomName | seed.js:6-18 | `Produto <i> - <tag>`: starts with the fixed prefix and ends with the tag of i, with a non-empty numeral in between |
| Seed.RandomDesc | seed.js:20-22 | starts with the fixed opening and ends with the fixed closing text, with a non-empty numeral in between |
| Seed.RandomNameInjective | seed.js:6-18 | different indexes give different names |
| Seed.RandomDescInjective | seed.js:20-22 | different indexes give different descriptions |
| Seed.SeedProducts | seed.js:29-33 | the products the loop creates: one per index |
| Seed.Seeded | seed.js:29-34 | the state after n inserts is valid and has the same schema |
| Seed.RunSeed | seed.js:24-40 | the loop performs the inserts for i = 1..5000 in increasing order, with `randomName(i)` and `randomDesc(i)` |
| Seed.SeedDatabase | seed.js:4 | `init` followed by the seed loop |
| Seed.SeededAppends | seed.js:26-34 | the loop appends exactly n rows with consecutive ids, in loop order, and changes no existing row |
| Seed.AppendOne | seed.js:33 | one more insert extends the appended rows by one |
| Seed.SeedProductsSnoc | seed.js:29-33 | the first n generated products are the first n-1 plus product n |
| Seed.SeedThenListPage | seed.js:29-34 | seeding an empty database lists products 1..5000 in order, and any decimal page request returns the matching slice |
| View.TotalPages | public/js/script.js:86 | `Math.ceil(n / 10)`: the least page count whose pages hold n products |
| View.ClampPage | public/js/script.js:87-89 | a page that exists is kept; one past the end becomes the last page; the result is in range |
| View.AfterLoad | public/js/script.js:34-39 | on an array: a prefix of the fetched list in server order, and page 1; otherwise no change |
| View.AfterRefresh | public/js/script.js:75-89 | on an array: the fetched list cut to the old length (to `parseInt` of the limit input when the list was empty), and the page clamped to max(1, totalPages) when past the end; otherwise no change |
| View.AfterChangePage | public/js/script.js:217-224 | moves to the page iff it is between 1 and the page count; the list never changes |
| View.WithoutId | public/js/script.js:345 | the filter never lengthens the list |
| View.WithoutIdMembers | public/js/script.js:345 | the filter keeps exactly the products with a different id |
| View.AfterDelete | public/js/script.js:335-358 | without confirmation, a response or a 2xx status, nothing changes; otherwise the list loses that id, and the page is clamped to max(1, totalPages) unless the list is now empty |
| View.Truncate | public/js/script.js:155-157 | a description of at most 50 characters is kept; a longer one becomes its first 50 characters and "..." |
| View.RowOf | public/js/script.js:152-158 | a row shows the product's own id, name and price, and its description cut to at most 53 characters (unchanged up to 50) |
| View.PageRows | public/js/script.js:133-135 | at most 10 rows; row k of page p is product (p-1)*10+k |
| View.Pagination | public/js/script.js:186-189 | no pagination exactly when there is at most one page |
| View.Slot | public/js/script.js:195-205 | one loop iteration emits at most one item, and it stands for page i |
| View.PageSlots | public/js/script.js:194-206 | the loop over pages 1..n emits at most n items |
| View.SlotExtendsLayout | public/js/script.js:194-206 | one more loop iteration extends the layout of pages 1..n-1 to pages 1..n |
| View.PageSlotsLayout | public/js/script.js:194-206 | the page loop emits exactly the buttons and gaps due for pages 1..n, by increasing page |
| View.PaginationLayout | public/js/script.js:189-210 | Previous first, disabled iff on page 1; only buttons and gaps in between; buttons for exactly the first, last, current and neighbouring pages, active iff current; "..." for exactly the pages two away with no button; Next last, disabled iff on the last page |
| View.LoadTakesPrefix | public/js/script.js:38-39 | a numeric limit loads the first min(limit, data) products and page 1 |
| View.RefreshKeepsLength | public/js/script.js:75-83 | refreshing a non-empty list against a listing at least as long keeps its length and the page |
| View.LoadKeepsInvariant | public/js/script.js:38-39 | loading keeps the page in range |
| View.RefreshKeepsInvariant | public/js/script.js:86-89 | refreshing keeps the page in range |
| View.ChangePageKeepsInvariant | public/js/script.js:219-220 | changing page keeps the page in range |
| View.WithoutAbsentId | public/js/script.js:345 | filtering out an id no product has changes nothing |
| View.WithoutIdAt | public/js/script.js:345 | with distinct ids, deleting the id at position k removes exactly that product and keeps the order |
| View.WithoutIdLength | public/js/script.js:345 | with distinct ids, the filter removes at most one product and keeps the ids distinct |
| View.WithoutEveryId | public/js/script.js:345 | filtering out the id every product has leaves nothing |
| View.DeleteKeepsInvariant | public/js/script.js:345-358 | with distinct ids, a delete keeps the page in range and the ids distinct |
| View.DeleteWithDuplicateIds | public/js/script.js:346-358 | with duplicate ids, the unclamped empty-list branch can leave the page past the end |
| View.FetchedListsDistinct | public/js/script.js:31-38 | lists loaded or refreshed from `GET /products` have distinct ids |
| View.ProductOnItsPage | public/js/script.js:133-135 | product k is row k % 10 of page k / 10 + 1 |
| View.VisiblePageNonEmpty | public/js/script.js:133-135 | with products loaded, the page shown is never empty |
| View.ProductView.constructor | public/js/script.js:2-3 | the page starts with no products on page 1 |
| View.ProductView.LoadProducts | public/js/script.js:23-65 | the state becomes `AfterLoad`; the page stays in range |
| View.ProductView.RefreshTable | public/js/script.js:68-100 | the state becomes `AfterRefresh`; a page in range stays in range |
| View.ProductView.ChangePage | public/js/script.js:217-224 | the state becomes `AfterChangePage`; a page in range stays in range |
| View.ProductView.DeleteProduct | public/js/script.js:334-365 | the state becomes `AfterDelete`; with distinct ids the page stays in range |
| View.ProductView.SubmitForm | public/js/script.js:296-331 | PUT `/products/{id}` when the hidden id is set, POST `/products` otherwise, with the form's fields; the page state is untouched |
| View.ProductView.RenderPagination | public/js/script.js:185-214 | the loop builds exactly `Pagination(currentPage, totalPages)` |

## Left out

- server.js `/heavy-cpu`, `/heavy-io`, `/random-delay`, `/upload` and `/status`: floating point, timers, randomness, file upload and the clock. Also the Express, `cors` and `listen` setup.
- Concurrency: requests, and the statements inside them, run one at a time. `db.serialize` is implied.
- Prices are `real` values passed through unchanged. Double rounding, `parseFloat` in the form handler, `toFixed` and the JSON round trip are not modelled.
- Numbers are unbounded integers. `parseInt` losing precision above 2^53 is not modelled.
- Strings are sequences of characters. JavaScript's UTF-16 code units (which `substring(0, 50)` counts) are not modelled.
- SQLite type affinity is reduced to optionally signed decimal numerals. Surrounding spaces, real-valued text such as "5.0", and non-text bindings are not modelled.
- SQL parsing, the two name/description indexes and the `orders` table: these exist only as schema objects.
- SQLite failures other than a missing table, a NULL offset and an exhausted AUTOINCREMENT counter are the opaque `fault` input.
- Request bodies missing a field: an absent `name`, `description` or `price` would be stored as NULL. Here every field is a value.
- Query parameters given more than once (which Express turns into arrays) are not modelled.
- Seed.RunSeed: the random prices become a parameter `prices(i)`. A store failure during seeding is not modelled: `insert.run` has no callback, so a failure would raise an unhandled `error` event and end the script, while the model's seed inserts run without a fault and a failed one leaves the state as it was. `prepare`, `finalize` and `close` are left out too.
- script.js `updateStats` (float statistics), `showNotification`, button disabling, the `max` attribute of the limit input, the refresh-button visibility, `viewProduct` and `editProduct` (a fetch shown in a dialog), the dialogs, `loadStatus`, the upload form, the timing tests and `window.onclick`: DOM and timing only.
- jmeter/test-results/analysis/gerar_graficos.py: chart plotting of fixed metrics, with no logic to model.

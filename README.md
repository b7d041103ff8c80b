# Barcode inventory: proxy handlers and dashboard logic in Dafny

This project models the logic of a small barcode inventory application.

- **The defensive product-lookup proxy** (`api/productProxy.js`). It guards the `barcode`
  query parameter and looks the barcode up once at the upstream product service. It then
  turns the upstream outcome into a status code and a JSON body: a pass-through, a wrapped
  API error, a timeout or an internal error.
- **The earlier proxy** (`src/api/productProxy.js`). It has no guard, no content-type
  check and a single catch-all. Lemmas compare it with the defensive handler.
- **The category board** (`src/pages/dashboard/Categories.jsx`):
  - loading with default categories;
  - the visible-category set and the per-category grouping, which are derived by two
    effects;
  - drag-and-drop reassignment;
  - creating and deleting categories;
  - the search reset;
  - the order of the columns.
- **The inventory page** (`src/pages/dashboard/Inventory.jsx`). What a lookup does to
  `barcode`, `productsInDB` and `image`:
  - refusing duplicates;
  - building the new record;
  - handling the POST outcome;
  - the manual-entry prompt;
  - the upload branches.

Layout:

| file | module | contents |
|---|---|---|
| `common.dfy` | `Common` | `Option`, JavaScript `includes`, `trim` and `filter`, with their lemmas |
| `decimal.dfy` | `Decimal` | decimal rendering of a status code and its inverse |
| `upstream.dfy` | `Upstream` | JSON documents, upstream outcomes (response or thrown error), replies, error envelopes |
| `product_proxy.dfy` | `ProductProxy` | the defensive handler |
| `legacy_product_proxy.dfy` | `LegacyProductProxy` | the earlier handler, and the comparison with the defensive one |
| `categories.dfy` | `Categories` | list, set and map updates; the loop methods of the two effects; class `CategoryBoard` holding the component state |
| `inventory.dfy` | `Inventory` | the lookup decision function `Ingest`; class `InventoryPage` holding the state fields |

The upstream `fetch` of the proxies is a parameter `fetch: string -> Outcome`. A handler
that "makes no upstream call" is one whose reply does not depend on `fetch`.

In the two pages, every server request, dialog and barcode decode becomes a method
parameter: the outcome that request would have.

## Model

| member | source | states |
|---|---|---|
| ProductProxy.Handle | api/productProxy.js:2-45 | the reply status is 200, 400, 500, 504 or the upstream's own non-ok status, and every non-200 body carries an `error` string |
| ProductProxy.Respond | api/productProxy.js:9-44 | past the guard, the status is 200, 500, 504 or the upstream's non-ok status, and every non-200 body has an `error` string |
| ProductProxy.Classify | api/productProxy.js:33-43 | a thrown error yields 500 or 504. It yields 504 exactly when it is an Error mentioning "timeout" that is not a TypeError mentioning "Failed to fetch". The body always has an `error` string |
| ProductProxy.MissingBarcodeRejected | api/productProxy.js:5-7 | an absent or empty barcode is answered 400 `{error: "Barcode is required"}` |
| ProductProxy.NoLookupWithoutBarcode | api/productProxy.js:5-7 | without a barcode the reply is the same whatever the upstream does, so the upstream is not consulted |
| ProductProxy.OneLookupWithBarcode | api/productProxy.js:10-12 | with a barcode, the reply depends on the upstream only through the one lookup address (base URL followed by the barcode) |
| ProductProxy.Status400Iff | api/productProxy.js:5-29 | the status is 400 if and only if the barcode is missing, or the upstream answered 400 and its reply was not replaced by a JSON parse failure |
| ProductProxy.OkPassesThrough | api/productProxy.js:31-32 | an ok upstream response with a parseable body is answered 200 with that body unchanged |
| ProductProxy.Status200Iff | api/productProxy.js:14-32 | the status is 200 if and only if the upstream answered ok with a parseable body |
| ProductProxy.JsonErrorWrapped | api/productProxy.js:14-22 | a non-ok response declaring JSON is answered with its own status and a body that is exactly `{error: "API Error: <status> <statusText>", details: <parsed upstream body>}`, with no other member. Reading `error` and `details` back gives those values |
| ProductProxy.NonJsonErrorGeneric | api/productProxy.js:16-17 | a non-ok response without a JSON content type keeps its status. Its only member is `error`, reading `API Error: <status> <statusText> (Non-JSON response)`, with no `details`. The body is never read, so any body gives the same reply |
| ProductProxy.ContentTypeExamples | api/productProxy.js:16-17 | the content-type test is a case-sensitive substring test. `application/json; charset=utf-8` declares JSON. `Application/JSON`, `text/html` and an absent header do not |
| ProductProxy.ApiErrorNamesStatus | api/productProxy.js:20 | the error message is `API Error: `, then the status as three digits that parse back to the status, a space, and the status text |
| ProductProxy.FetchFailureFirst | api/productProxy.js:34-36 | a TypeError mentioning "Failed to fetch" is 500 `Failed to fetch data from the API`, whatever else its message says |
| ProductProxy.TimeoutIs504 | api/productProxy.js:37-39 | any other Error mentioning "timeout" is 504 `Timeout while fetching data from the API` |
| ProductProxy.OtherwiseInternal | api/productProxy.js:40-43 | every other thrown value is 500 `Internal server error` |
| ProductProxy.ParseFailureCaught | api/productProxy.js:18 | a failing `response.json()` (on an ok body, or on a JSON error body) is classified exactly as if `fetch` had thrown that error |
| ProductProxy.BothWordsExample | api/productProxy.js:34-39 | the TypeError "Failed to fetch: timeout" is a 500 fetch failure, not a 504 |
| ProductProxy.NotFoundJsonExample | api/productProxy.js:14-22 | an upstream 404 with JSON `{message: "not found"}` is answered 404 `{error: "API Error: 404 Not Found", details: {message: "not found"}}` |
| ProductProxy.BadGatewayHtmlExample | api/productProxy.js:23-27 | an upstream 502 `text/html` is answered 502 `{error: "API Error: 502 Bad Gateway (Non-JSON response)"}`, whatever its body |
| LegacyProductProxy.Respond | src/api/productProxy.js:5-19 | the status is 200, 500 or the upstream's non-ok status, and every non-200 body has an `error` string |
| LegacyProductProxy.Handle | src/api/productProxy.js:2-20 | the status is 200, 500 or the non-ok status of the one address looked up |
| LegacyProductProxy.UpstreamAlwaysConsulted | src/api/productProxy.js:3-6 | for every barcode, absent ones included, two upstreams exist that give different replies: there is no guard |
| LegacyProductProxy.No400OfItsOwn | src/api/productProxy.js:9-11 | a 400 reply is always the upstream's own 400 |
| LegacyProductProxy.NonOkGeneric | src/api/productProxy.js:9-11 | a non-ok response keeps its status with `{error: "Failed to fetch product: <statusText>"}` and no `details`, whatever its content type and body |
| LegacyProductProxy.ThrownIsInternal | src/api/productProxy.js:14-18 | a thrown error or an unparseable ok body is 500 `Internal server error` |
| LegacyProductProxy.BothPassOkBodyThrough | src/api/productProxy.js:14-15 | with a barcode and an ok, parseable upstream answer, both handlers reply 200 with the same unchanged body |
| LegacyProductProxy.SameStatusOtherwise | src/api/productProxy.js:5-19 | with a barcode, both handlers agree on the status. The exceptions are a thrown error (or an ok body whose parse fails) that the defensive catch block classifies as 504, and a JSON error body that fails to parse. An upstream's own 504 is passed through by both |
| LegacyProductProxy.TimeoutDisagrees | src/api/productProxy.js:16-18 | a thrown "timeout" Error is 504 in the defensive handler but 500 in the earlier one |
| LegacyProductProxy.MissingBarcodeDiverges | src/api/productProxy.js:6 | without a barcode the defensive handler answers 400, while the earlier one looks up the address ending in "undefined" |
| Common.ContainsIff | api/productProxy.js:17 | the substring test holds exactly when the pattern occurs at some position |
| Common.TrimEmptyIffBlank | src/pages/dashboard/Categories.jsx:272 | `trim()` gives the empty string exactly when every character is JavaScript white space |
| Common.FilterIsSubsequence | src/pages/dashboard/Categories.jsx:99-101 | what `filter` keeps stays in its original order |
| Common.FilterCounts | src/pages/dashboard/Categories.jsx:99-101 | `filter` keeps every copy of an element that passes the test and no copy of one that fails it |
| Decimal.ParseNatToString | api/productProxy.js:20 | rendering a number in decimal and reading it back gives the number |
| Categories.WithDefaultCategories | src/pages/dashboard/Categories.jsx:44-47 | the length and order are kept, along with id and details. A missing or empty category becomes "Uncategorized"; any other is kept. No product ends up with an empty category |
| Categories.Relabel | src/pages/dashboard/Categories.jsx:128-130 | the selected products get the new category, the others are kept as they are, and the length and ids are preserved |
| Categories.ReassignUnknownProduct | src/pages/dashboard/Categories.jsx:128-130 | moving a product id that is not in the list changes nothing |
| Categories.ReassignIdempotent | src/pages/dashboard/Categories.jsx:128-130 | dropping the same product on the same column twice is the same as once |
| Categories.ReassignMovesBetweenGroups | src/pages/dashboard/Categories.jsx:128-130 | after a drag, the moved product is in the destination's group and in no other, and every other product's group membership is unchanged |
| Categories.UncategorizeEmptiesCategory | src/pages/dashboard/Categories.jsx:237-247 | after deleting a category (other than "Uncategorized"), no product has it. Products of other categories are untouched and the length is kept |
| Categories.HasCategory | src/pages/dashboard/Categories.jsx:169 | the `some` test holds exactly when the id is among the category ids |
| Categories.RemoveCategoryIds | src/pages/dashboard/Categories.jsx:249-250 | removing a category removes exactly its id. Every other category keeps all its copies, in order |
| Categories.CheckNewName | src/pages/dashboard/Categories.jsx:163-175 | a name is accepted exactly when it is non-empty and is not an existing category id; the accepted value is the name |
| Categories.CreatedNameNowTaken | src/pages/dashboard/Categories.jsx:169-183 | once a category has been created, its name is refused by the next creation |
| Categories.CollectVisible | src/pages/dashboard/Categories.jsx:82-90 | the two loops build exactly the filtered category ids plus the filtered products' categories |
| Categories.CreateExtendsDefaultVisible | src/pages/dashboard/Categories.jsx:75-78 | appending a category adds exactly its id to the default visible set |
| Categories.DeleteShrinksDefaultVisible | src/pages/dashboard/Categories.jsx:75-78 | deleting a category other than "Uncategorized" removes exactly its id from the default visible set |
| Categories.GroupProducts | src/pages/dashboard/Categories.jsx:94-111 | the loop builds exactly the map from each group key to that category's products |
| Categories.GroupingSound | src/pages/dashboard/Categories.jsx:97-109 | each group key is visible and is a category id or "Uncategorized". A group holds exactly the products of its category, every copy of each, in list order |
| Categories.GroupingKeys | src/pages/dashboard/Categories.jsx:97-109 | the group keys are exactly the visible category ids, plus "Uncategorized" when it is visible |
| Categories.OrphanProductHidden | src/pages/dashboard/Categories.jsx:97-109 | a product whose category is neither "Uncategorized" nor a category id is in no group, even when its category is visible |
| Categories.ColumnTitle | src/pages/dashboard/Categories.jsx:388 | "Uncategorized" is titled so, and an unknown id is shown as itself. A known id shows the title of the first category with that id, or the id when that title is empty |
| Categories.ColumnTitleExamples | src/pages/dashboard/Categories.jsx:388 | with two categories sharing an id, the first one's title is shown. An empty title falls back to the id, and so does an unknown id |
| Categories.ColumnsMatchGroups | src/pages/dashboard/Categories.jsx:384 | the columns are exactly the group keys. "Uncategorized" comes first when visible, then the categories in list order |
| Categories.ColumnShowsItsGroup | src/pages/dashboard/Categories.jsx:389 | each column shows exactly the products of its category |
| Categories.DefaultColumns | src/pages/dashboard/Categories.jsx:384 | with the default visible set, the columns are "Uncategorized" followed by every category id, in order |
| Categories.CategoryBoard.constructor | src/pages/dashboard/Categories.jsx:27-34 | the initial state: empty query, lists, map and set, and not searching |
| Categories.CategoryBoard.LoadProducts | src/pages/dashboard/Categories.jsx:37-53 | a successful load sets both product lists to the normalised data; a failed one changes nothing |
| Categories.CategoryBoard.LoadCategories | src/pages/dashboard/Categories.jsx:55-67 | a successful load sets both category lists to the data; a failed one changes nothing |
| Categories.CategoryBoard.RefreshVisibility | src/pages/dashboard/Categories.jsx:73-91 | the visible set becomes "Uncategorized" plus all category ids when not searching. While searching it becomes the filtered categories' ids plus the filtered products' categories. When not searching, the columns are then "Uncategorized" followed by every category id. Nothing else changes |
| Categories.CategoryBoard.RefreshGrouping | src/pages/dashboard/Categories.jsx:93-112 | the grouping becomes the grouping of the filtered products while searching, and of all products otherwise. Nothing else changes |
| Categories.CategoryBoard.DragEnd | src/pages/dashboard/Categories.jsx:114-153 | a drop with no destination, or on the source column, changes nothing. Otherwise exactly the dragged product moves, and while searching the filtered list becomes the whole updated list. The PATCH outcome changes nothing |
| Categories.CategoryBoard.CreateCategory | src/pages/dashboard/Categories.jsx:155-215 | a rejected or cancelled name changes nothing. An accepted one appends `{id: name, title: name}` and adds the name to the visible set. When not searching, the visible set stays as the visibility effect would compute it |
| Categories.CategoryBoard.DeleteCategory | src/pages/dashboard/Categories.jsx:217-265 | only a confirmed, successful delete has an effect. Then the category's products become "Uncategorized" in both product lists, and the category leaves both category lists and the visible set |
| Categories.CategoryBoard.EndSearch | src/pages/dashboard/Categories.jsx:272-280 | the search ends. The filtered lists become the full lists and the visible set becomes the default one, which is the set the visibility effect computes |
| Categories.CategoryBoard.ShowResults | src/pages/dashboard/Categories.jsx:283-313 | the search results replace the filtered lists and the visible set, as far as they arrive. A failed request leaves the rest unchanged |
| Categories.CategoryBoard.Search | src/pages/dashboard/Categories.jsx:267-314 | the query is stored. The search is on exactly when the trimmed query is non-empty. A blank query resets the filtered lists and the visible set, and otherwise the results are shown |
| Inventory.HasBarcode | src/pages/dashboard/Inventory.jsx:92 | the `some` test holds exactly when some record has that barcode |
| Inventory.NewRecord | src/pages/dashboard/Inventory.jsx:99-104 | the new record copies material, barcode and description, has category "Uncategorized" and has no `_id` |
| Inventory.Ingest | src/pages/dashboard/Inventory.jsx:80-136 | The database changes exactly when the outcome is "added", and then only by appending the POSTed record. Barcode and image are cleared whenever an alert is shown; with no alert, nothing changes. A record is POSTed only after a successful lookup, and only when its barcode is not yet in the database |
| Inventory.AfterPrompt | src/pages/dashboard/Inventory.jsx:59-78 | a dismissed or empty answer clears barcode and image and makes no lookup. A non-empty answer becomes the barcode, and the result is exactly that of the lookup (`Ingest`) from the page with that barcode |
| Inventory.ManualDuplicateRefused | src/pages/dashboard/Inventory.jsx:69-72 | a confirmed manual entry of a barcode already in the database is refused as a duplicate with no POST, and barcode and image are cleared |
| Inventory.FailedLookupClears | src/pages/dashboard/Inventory.jsx:85-91 | a failed lookup, or a reply with a false `status` or without a product, clears barcode and image, changes no records and makes no POST |
| Inventory.DuplicateNotPosted | src/pages/dashboard/Inventory.jsx:92-97 | a barcode already in the database is refused without a POST, and barcode and image are cleared |
| Inventory.NewBarcodePosted | src/pages/dashboard/Inventory.jsx:106-126 | a new barcode is POSTed as the new record. POST 400 clears without adding and alerts "already exists". An ok POST appends the record, clears and alerts "added". A thrown POST clears and alerts "not found or server error". Any other status changes nothing and shows no alert |
| Inventory.IngestKeepsBarcodesDistinct | src/pages/dashboard/Inventory.jsx:92-121 | a lookup never adds a second record with a barcode already present |
| Inventory.SecondLookupRefused | src/pages/dashboard/Inventory.jsx:92-121 | looking up a product again after it was added is refused as a duplicate |
| Inventory.ScanEndsCleanOrLookedUp | src/pages/dashboard/Inventory.jsx:21-78 | after an upload, the barcode field is empty or holds the last value looked up |
| Inventory.DismissedPromptClears | src/pages/dashboard/Inventory.jsx:46-76 | a failed scan followed by a dismissed prompt leaves no image and no barcode |
| Inventory.InventoryPage.constructor | src/pages/dashboard/Inventory.jsx:6-9 | the initial state: empty barcode, no records, no image |
| Inventory.InventoryPage.FetchProduct | src/pages/dashboard/Inventory.jsx:80-136 | the new state, alert and POSTed record are those given by `Ingest` |
| Inventory.InventoryPage.ManualPrompt | src/pages/dashboard/Inventory.jsx:59-78 | the new state, alert and POSTed record are those given by `AfterPrompt` |
| Inventory.InventoryPage.UploadNothing | src/pages/dashboard/Inventory.jsx:31-34 | an upload with no file clears image and barcode and nothing else |
| Inventory.InventoryPage.UploadImage | src/pages/dashboard/Inventory.jsx:22-57 | the new state, alert and POSTed record are those given by `AfterScan` |
| Inventory.InventoryPage.Refresh | src/pages/dashboard/Inventory.jsx:169-177 | any parsed body replaces the record list, whatever the response status; a refresh that throws (network failure or unparseable body) changes nothing |

## Left out

- Network I/O, the 10-second `timeout` option and wall-clock time. Every request is
  replaced by its outcome, and a timeout is one kind of thrown error.
- The bodies of HTTP requests are not modelled: the PATCH of a drag, the POST of a new
  category, and the DELETEs. Only the outcome a handler looks at is modelled. The
  exception is the POST of a new record, whose body `Ingest` returns as `posted`.
  `DragEnd` and `CreateCategory` look at no outcome, so the board state is the same
  whether their request succeeds or fails.
- The SweetAlert dialogs, the ZXing barcode decoder, `FileReader` and `img.decode`. A dialog
  answer or a decode result is a parameter. `preConfirm` keeps the create dialog open on a
  refused name; the model treats a refused name like a dismissal.
- Alert texts on the category board, and `console` logging.
- React scheduling:
  - effects are separate methods, not run automatically after each state change;
  - the state read by an asynchronous callback is the current state, not the one its
    render captured;
  - the loads of products and categories are not interleaved.
- Typing into the inventory page's barcode field (Inventory.jsx:206) is not modelled. It
  sets `barcode` on every keystroke. The Scan button (line 211) then looks up the current
  barcode, which `FetchProduct` models with `code` as that barcode.
- Inventory.InventoryPage.Refresh: the parsed body is modelled as a list of records only.
  The initial load and `fetchUpdatedProducts` (Inventory.jsx:16-18, 171-173) never check
  `response.ok`, so an error reply whose body parses as JSON also replaces `productsInDB`.
  When that body is an object rather than a list, later lookups throw at
  `productsInDB.some` (line 92) and the table's `products.map` (line 241) throws on render.
  `Refresh` cannot represent a non-list body.
- Inventory's `products` mirror of `productsInDB` (lines 11-13) is not modelled; it
  only feeds the table.
- Inventory's `handleDeleteProduct` (lines 138-167) changes state only through the
  refresh, which is modelled as `Refresh`.
- Rendering (`ProductItem`'s placeholder texts and the table) is not modelled.
- The other pages and files are not part of this model: `Login.jsx`, `SignUp.jsx`,
  `Analytics.jsx`, `ErrorPage.jsx`, `DashboardLayout.jsx` and `main.jsx`. They are login
  flows, layout, charts and the route table.
- JSON numbers are integers, and `statusText` is any string.
- A status code is a three-digit value from 100 to 599. How the serverless framework
  transmits replies is not modelled.
- Inventory.LookupProduct cannot represent a `product` object whose fields are missing.
  Such a reply can only be given as one without a product, which the model sends down
  the error path. The source does not: at
  Inventory.jsx:92 the missing barcode is just `undefined`, so it builds and POSTs a record
  with undefined fields, and the POST status then decides the outcome. Only a missing or
  `null` `product` throws.
- Inventory.Ingest does not include the call to `fetchUpdatedProducts()` after an ok POST
  (Inventory.jsx:123). That refresh is a separate step, the `Refresh` method, whose
  outcome is its own parameter.
- ProductProxy.Handle takes the `barcode` query parameter as a single optional string.
  A repeated parameter makes `req.query.barcode` an array, which is truthy and is
  interpolated as its elements joined by commas ("a,b"). The model does not represent
  that case; the earlier handler has the same gap.
- Categories.CategoryBoard.CreateCategory: states that the visible set stays settled
  only when not searching. While searching, the visibility effect recomputes the set
  from the filtered lists, so the new category's column disappears again.

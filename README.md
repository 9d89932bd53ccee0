# Excel import and product list — a Dafny model

This project models the two stateful screens of an Angular front end for a
product catalogue.

**The Excel import screen** (`ExcelUploadComponent`). The operator chooses
a spreadsheet, which must end in `.xlsx` or `.xls`. The server lists the
file's sheets. The operator picks one and previews it; the preview's column
headers are the keys of its first row. Then the operator imports it. During
the import two independent counters move: the byte-upload percentage of the
HTTP request, and a step/percentage pushed by the server over a processing
channel (a WebSocket). Every finished import, successful or failed, is put at
the front of a history kept in the browser's local storage. A (file, sheet)
pair that has already been imported successfully raises a warning at preview
time and needs a confirmation before it is imported again. Clearing the
history also needs a confirmation.

**The product list screen** (`ListComponent`). It searches the loaded
products by a lower-cased substring of their name or description. It sorts
the result by name, price or date, up or down. It shows the result one page
at a time, with a window of at most five page links.

Both screens are modelled as Dafny classes with the component's own fields
(`excel_upload.dfy`, `product_list.dfy`). Each method's contract gives the
whole new state as an update of `Snapshot()`, a datatype value holding
every field. The external pieces become inputs:

- the two `confirm()` dialogs become a `confirmed: bool` parameter;
- `new Date()` becomes a `now: int` parameter;
- server answers become methods such as `OnSheetsLoaded`, `OnPreviewLoaded`
  and `OnProductsLoaded`;
- the upload request's callbacks and the processing channel's messages
  become `UploadEvent`s delivered to `OnUploadEvent`, together with the
  `UploadRequest` (file and sheet names) the callbacks captured when the
  upload started.

The model does not track which requests are still open, so it accepts more
event sequences than the browser delivers: one request's Observable ends
with at most one response or error and delivers nothing after it, while
`OnUploadEvent` takes any event in any order.

The object invariant of `ListComponent` (`Valid()`) says that the filtered
list is always a permutation of the search result, ordered by the current
sort (and exactly the search result when there is no sort), and that the
page count, current page and visible page always agree with it. The
invariant of `ExcelUploadComponent` says that the in-memory history is
always what a reload would restore from storage.

`text.dfy` holds the JavaScript string operations the screens use
(`endsWith`, `toLowerCase`, `includes`, and the order behind
`localeCompare`). `wrappers.dfy` holds `Option`.

The model follows the code, including where its behaviour may surprise a reader:

- Accepting a new file does not clear the sheet list or the chosen sheet.
- A missing file leaves the previous file selected.
- `checkForDuplicates` leaves the warning as it was when no file or sheet is
  chosen.
- An empty sheet name counts as no sheet.
- An empty error `detail` falls back to the generic message.
- Nothing prevents a second upload while one is in flight.
- The processing channel is never closed: `openChannels` only grows.
- Persisted history is restored as stored; corrupt stored data, on which
  `JSON.parse` would throw, is left out (below).

## Model

| member | source | states |
|---|---|---|
| `Text.EndsWithAppend` | src/app/excel-upload/excel-upload.component.ts:60 | a name ends with a suffix exactly when it is some prefix followed by that suffix |
| `Text.Lower` | src/app/pages/products/list/list.component.ts:67 | lower-casing keeps the length, turns each upper-case letter into its lower-case form (code point + 32) and keeps every other character |
| `Text.LowerIdempotent` | src/app/pages/products/list/list.component.ts:67 | a lower-cased search term is unchanged by lower-casing again |
| `Text.Contains` | src/app/pages/products/list/list.component.ts:85-86 | the left-to-right `includes` scan is true exactly when the term occurs at some position |
| `Text.ContainsEmpty` | src/app/pages/products/list/list.component.ts:83-88 | `includes("")` is true for every string |
| `Text.LexLeReflexive` | src/app/pages/products/list/list.component.ts:93 | the name order puts every name before or beside itself |
| `Text.LexLeTotal` | src/app/pages/products/list/list.component.ts:93 | any two names are comparable |
| `Text.LexLeTransitive` | src/app/pages/products/list/list.component.ts:93 | the name order is transitive |
| `Text.LexLeAntisymmetric` | src/app/pages/products/list/list.component.ts:93 | two names each before the other are equal |
| `ExcelUpload.IsExcelFileName` | src/app/excel-upload/excel-upload.component.ts:60 | a file is accepted exactly when its name ends in `.xlsx` or `.xls` |
| `ExcelUpload.DuplicateWarningText` | src/app/excel-upload/excel-upload.component.ts:133 | the duplicate warning names the file and the sheet in the fixed Spanish text, after the warning sign |
| `ExcelUpload.ExcelExtensionsAccepted` | src/app/excel-upload/excel-upload.component.ts:60 | every name ending in `.xlsx` or `.xls` passes the allow-list |
| `ExcelUpload.HasSuccessfulImport` | src/app/excel-upload/excel-upload.component.ts:125-130 | the `some` scan is true exactly when some entry has this file name, this sheet name and status success |
| `ExcelUpload.ErrorEntryNeverDuplicates` | src/app/excel-upload/excel-upload.component.ts:223-229 | an error entry put in front of the history never changes whether any pair is a duplicate |
| `ExcelUpload.SuccessEntryDuplicates` | src/app/excel-upload/excel-upload.component.ts:205-211 | a success entry put in front makes its own pair a duplicate and no other pair |
| `ExcelUpload.RoundedPercent` | src/app/excel-upload/excel-upload.component.ts:196-198 | the byte percentage is the whole number nearest to 100·loaded/total, halves rounded up, and lies in 0..100 when loaded ≤ total |
| `ExcelUpload.RoundingBounds` | src/app/excel-upload/excel-upload.component.ts:197 | the integer formula for `Math.round` lies within half a step of the exact ratio |
| `ExcelUpload.ColumnsOf` | src/app/excel-upload/excel-upload.component.ts:109-111 | no headers without rows; otherwise one header per cell of the first row, in key order, the headers are exactly its keys, and no header repeats when its keys are distinct |
| `ExcelUpload.ImportedCount` | src/app/excel-upload/excel-upload.component.ts:209 | the imported count is the response's `count`, or 0 when it is absent |
| `ExcelUpload.Restored` | src/app/excel-upload/excel-upload.component.ts:242-246 | a stored history is restored as stored; an empty slot gives an empty history |
| `ExcelUpload.FailureMessage` | src/app/excel-upload/excel-upload.component.ts:220 | the error shown is the server's non-empty `detail`, otherwise the generic upload message; it is never empty |
| `ExcelUpload.ExcelUploadComponent.constructor` | src/app/excel-upload/excel-upload.component.ts:15-43 | the history is restored from the storage slot (empty when there is none) and every other field starts empty or zero |
| `ExcelUpload.ExcelUploadComponent.OnFileSelected` | src/app/excel-upload/excel-upload.component.ts:52-77 | a missing file only sets the error; a name outside the allow-list sets the error and drops the file; an accepted file resets error, success, warning, preview, columns, both progress counters and the step, requests its sheets, and leaves the history, the sheet list and the chosen sheet as they were |
| `ExcelUpload.ExcelUploadComponent.OnSheetsLoaded` | src/app/excel-upload/excel-upload.component.ts:86-88 | the sheet list becomes the server's list in server order; nothing else changes |
| `ExcelUpload.ExcelUploadComponent.OnSheetsFailed` | src/app/excel-upload/excel-upload.component.ts:89-91 | a failed sheet request only sets the error |
| `ExcelUpload.ExcelUploadComponent.SelectSheet` | src/app/excel-upload/excel-upload.component.ts:24 | choosing a sheet sets only `selectedSheet` |
| `ExcelUpload.ExcelUploadComponent.IsDuplicateUpload` | src/app/excel-upload/excel-upload.component.ts:142-151 | true exactly when a file and a non-empty sheet are chosen and some history entry has that file name, that sheet and status success; error entries never make it true |
| `ExcelUpload.ExcelUploadComponent.CheckForDuplicates` | src/app/excel-upload/excel-upload.component.ts:122-137 | with a file and a sheet chosen, the warning is set (with its text) exactly when the selection is a duplicate and cleared otherwise; without them nothing changes |
| `ExcelUpload.ExcelUploadComponent.PreviewSheet` | src/app/excel-upload/excel-upload.component.ts:98-107 | without a file or sheet it only sets the error; otherwise it refreshes the duplicate warning and requests the preview |
| `ExcelUpload.ExcelUploadComponent.OnPreviewLoaded` | src/app/excel-upload/excel-upload.component.ts:108-112 | the preview is the rows as sent; the headers are exactly the first row's keys, none repeated, or none without rows |
| `ExcelUpload.ExcelUploadComponent.OnPreviewFailed` | src/app/excel-upload/excel-upload.component.ts:113-115 | a failed preview only sets the error; the old preview stays |
| `ExcelUpload.ExcelUploadComponent.UploadFile` | src/app/excel-upload/excel-upload.component.ts:156-194 | with no file, or no sheet, or a declined duplicate, only the matching error is set and nothing starts; otherwise outcome, warning, both counters and the step are reset, one more channel is opened and an upload starts for the captured file and sheet names; the history never changes here |
| `ExcelUpload.ExcelUploadComponent.OnUploadEvent` | src/app/excel-upload/excel-upload.component.ts:189-233 | progress with a known total sets only the rounded percentage, and an unknown total or another HTTP event changes nothing; a response puts one success entry (captured names, count or 0) in front of the unchanged old history, stores it and sets success and 100 %; an error puts one error entry with 0 records in front, stores it and shows the failure message; a channel message sets only the step and its percentage |
| `ExcelUpload.ExcelUploadComponent.ClearHistory` | src/app/excel-upload/excel-upload.component.ts:250-256 | confirmed, the history and the storage slot are emptied and the warning cleared; declined, nothing changes |
| `ProductList.Matches` | src/app/pages/products/list/list.component.ts:85-86 | a product matches when its lower-cased name or its lower-cased description contains the term; a missing field never matches |
| `ProductList.Filter` | src/app/pages/products/list/list.component.ts:84-87 | keeps, in order, the products that match the term |
| `ProductList.Searched` | src/app/pages/products/list/list.component.ts:83-88 | the search step filters only when the term is non-empty; an empty term keeps every product |
| `ProductList.MatchesEmptyTerm` | src/app/pages/products/list/list.component.ts:83-88 | filtering by the empty term would keep exactly the products with a name or a description, so the guard on a non-empty term is what keeps every product |
| `ProductList.FilterKeepsMatches` | src/app/pages/products/list/list.component.ts:84-87 | every product kept matches the term in its name or description, and every matching product is kept as often as it occurs |
| `ProductList.InOrder` | src/app/pages/products/list/list.component.ts:93-116 | the comparator of each sort: names by code-point order with a missing name as "", prices and dates numerically with a missing value as 0, descending sorts reversed, and no constraint without a sort |
| `ProductList.InOrderTotal` | src/app/pages/products/list/list.component.ts:91-118 | every sort comparator orders any two products one way or the other |
| `ProductList.InOrderTransitive` | src/app/pages/products/list/list.component.ts:91-118 | every sort comparator is transitive |
| `ProductList.SortInPlace` | src/app/pages/products/list/list.component.ts:91-118 | sorting the copy leaves it ordered by the comparator of the chosen sort and a permutation of what it held |
| `ProductList.TotalPages` | src/app/pages/products/list/list.component.ts:144 | the page count is the fewest pages of `itemsPerPage` items that hold every filtered product |
| `ProductList.CeilingBounds` | src/app/pages/products/list/list.component.ts:144 | the integer formula for `Math.ceil` meets that bound |
| `ProductList.ClampPage` | src/app/pages/products/list/list.component.ts:147-149 | a page past the last becomes the last page, or 1 when there are none; the result is in 1..max(totalPages, 1) |
| `ProductList.PageSlice` | src/app/pages/products/list/list.component.ts:151-153 | the page is the contiguous run of at most `itemsPerPage` products from index (page−1)·itemsPerPage, empty past the end |
| `ProductList.PagesArePrefix` | src/app/pages/products/list/list.component.ts:151-153 | the first k pages together are the first k·itemsPerPage products |
| `ProductList.PagesPartition` | src/app/pages/products/list/list.component.ts:144-153 | pages 1 to `totalPages` together are exactly the filtered list |
| `ProductList.ClampedPageNotEmpty` | src/app/pages/products/list/list.component.ts:144-153 | after the clamp a non-empty filtered list never shows an empty page |
| `ProductList.ListComponent.constructor` | src/app/pages/products/list/list.component.ts:14-27 | the list starts empty, loading, with no term, no sort, page 1 of 0 and 10 per page |
| `ProductList.ListComponent.UpdatePagination` | src/app/pages/products/list/list.component.ts:140-164 | sets the page count, clamps the current page and slices the current page; nothing else changes |
| `ProductList.ListComponent.ApplyFilters` | src/app/pages/products/list/list.component.ts:79-122 | the filtered list is a permutation of the search result, ordered by the current sort, and equal to it when there is no sort; pagination is redone from the current page |
| `ProductList.ListComponent.LoadProducts` | src/app/pages/products/list/list.component.ts:49-52 | starting the request only sets `loading` |
| `ProductList.ListComponent.OnProductsLoaded` | src/app/pages/products/list/list.component.ts:53-57 | the loaded products replace the list and are filtered and paginated again; the current page is kept, clamped to the new page count; loading ends |
| `ProductList.ListComponent.OnProductsFailed` | src/app/pages/products/list/list.component.ts:58-61 | a failed request only ends loading |
| `ProductList.ListComponent.OnSearch` | src/app/pages/products/list/list.component.ts:66-70 | the lower-cased input becomes the term and the list is recomputed from page 1 |
| `ProductList.ListComponent.ClearSearch` | src/app/pages/products/list/list.component.ts:72-76 | with no term the filtered list holds every product, from page 1 |
| `ProductList.ListComponent.ApplySorting` | src/app/pages/products/list/list.component.ts:125-129 | the new sort is applied from page 1 |
| `ProductList.ListComponent.ClearFilters` | src/app/pages/products/list/list.component.ts:132-137 | with no term and no sort the filtered list equals the products, in their order, from page 1 |
| `ProductList.ListComponent.GoToPage` | src/app/pages/products/list/list.component.ts:167-172 | a page in 1..totalPages becomes the current page and is shown; any other page changes nothing |
| `ProductList.ListComponent.OnItemsPerPageChange` | src/app/pages/products/list/list.component.ts:175-179 | the new page size is applied from page 1 |
| `ProductList.ListComponent.GetPageNumbers` | src/app/pages/products/list/list.component.ts:182-198 | min(5, totalPages) consecutive page numbers, all in 1..totalPages, starting at max(1, min(currentPage−2, totalPages−4)), and holding the current page whenever it is a page |

## Left out

- The processing channel's socket is not modelled: connecting, JSON decoding, discarding undecodable messages and logging (src/app/services/websocket.service.ts). A decoded message is the `WsMessage(step, progress)` event; `progress` is an integer.
- The product service's HTTP requests are not modelled; their answers are method inputs. `notifyProductsChanged` after a successful import is not modelled, because it only signals another component.
- JSON serialisation of the stored history is abstracted: the storage slot holds the history value itself. Corrupt stored data, on which `JSON.parse` would throw, is not modelled.
- `deleteProduct` is not modelled, because it is only a confirmation dialog, an HTTP call and alerts.
- Dates are not parsed: `createdAt` is the timestamp `created_at` would give, and invalid dates (NaN) are not modelled.
- Prices are integers; floating-point prices and NaN are not modelled.
- `Text.LexLe`: the name sorts use code-point lexicographic order in place of the locale collation of `localeCompare`.
- `Text.Lower`: lower-cases ASCII letters only; Unicode case mapping is not modelled.
- `ExcelUpload.ColumnsOf`: a row is its (key, value) pairs in order; JavaScript's rule that integer-like keys enumerate first is not modelled.
- `ProductList.ListComponent.ApplyFilters` states a permutation in sorted order, not the stability that ECMAScript's `sort` guarantees. So among products with equal sort keys, their order is not stated.
- `ProductList.SortInPlace`: an insertion sort stands for the JavaScript engine's sort algorithm. Its contract states a sorted permutation, not stability: the order of products with equal sort keys is not stated, although the insertion sort swaps only elements strictly out of order.
- `ProductList.ListComponent.OnItemsPerPageChange` requires a positive page size. The selector offers only 10, 25, 50 and 100, and a zero size would divide by zero in the source.
- The response fields are taken as already typed: `sheets` as a list of strings and `preview` as a list of rows (src/app/excel-upload/excel-upload.component.ts:87 and :109), `count` as an integer and `detail` as a string, the last two possibly absent. A missing `sheets`, a missing `preview` (on which `this.previewData.length` at line 111 would throw) and other JSON values are not modelled.
- Angular lifecycle (`ngOnInit`, `ngOnDestroy`, subscriptions), `console.log`, the chart import, templates and the `Math` field are not modelled.

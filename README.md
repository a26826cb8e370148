# frontpos core, modelled in Dafny

This project models the core of frontpos, a React point-of-sale front end for a
make-up shop, and proves properties of that model. The parts modelled are these:

- **Sale screen** (`CashierVentas`, `cashier_ventas.dfy`):
  - A cashier builds a cart of sale lines, capped by each product's reported stock. The total is derived from the lines.
  - The cashier browses categories, brands and products ten at a time. These lists come from the catalog prefetched into the browser's local storage.
- **Sale cancellation** (`CancelSale`, `cancel_sale.dfy`):
  - The typed sale id passes three guards first.
  - Then every sold item goes back to stock: to the variant of its colour, or to the base stock.
  - The sale is marked cancelled only after that restock phase ends without an exception.
- **Product administration** (`AdminProducts`, `admin_products.dfy`):
  - The `Color|Stock` one-per-line variant text has a parser and a printer.
  - Also modelled: the brand options offered for a category, and the page counter.
- **Local storage** (`LocalStorage`, `local_storage.dfy`):
  - The current user and till session are persisted.
  - Catalog lists are cached, and `prefetchData` calls the loader only when the cached list is missing or empty.
- **Login, till and logout** (`AppSession`, `Login`, `CashierCaja`, `Navbar`):
  - The application's user and session state is restored at startup.
  - Login picks the first user whose credentials match.
  - Opening a till needs an amount that parses. Closing it persists the user without a session.
  - A cashier with an open till cannot log out. The menu depends on the user's role.
- **Sales reports** (`SalesReport`, `AdminReports`, `ProductSearch`), as two variants:
  - The report page filters by date prefix and by cashier, comparing ids as strings. It separates active from cancelled sales and sums only the active ones.
  - Its older copy compares ids strictly, sums every filtered sale, and exports without asking for a date.
  - Both memoise product lookups within one report.

JavaScript semantics that decide outcomes are written out in `Js` (`js.dfy`):
- `String(x)`, truthiness, and loose `==` against strict `===` on ids that may be numbers or strings;
- `trim`, `split`/`join` on one character;
- `parseInt` and `parseFloat` on decimal text, with NaN as an explicit case.

Money is an exact `real` and stock an unbounded `int`.

Each click handler reads the state of the render that created it, and React applies the setters afterwards, the last one winning. The sale screen's paging buttons therefore set the counter and then load the page the click saw. The methods model this order literally.

The variant-text round trip needs only that colours hold no `|` or newline and have no surrounding whitespace. Any stock reads back as itself, NaN included. A printed non-empty list always contains `|`, so its text is never blank, and the empty list prints as the empty text.

## Model

| member | source | states |
|---|---|---|
| LocalStorage.WithUserAndSession | src/services/api.js:9-20 | storing sets each of the two keys exactly when its value is non-null and removes it otherwise; every other key keeps its value |
| LocalStorage.RestoredFrom | src/services/api.js:22-34 | the restored user (session) is present exactly when its key holds a user (session), and it is that value |
| LocalStorage.StoreThenRestore | src/services/api.js:9-34 | restoring after storing a user and a session, null or not, yields that same pair |
| LocalStorage.StoreTwice | src/services/api.js:9-20 | a second store overrides the first completely |
| LocalStorage.PrefetchStoresHit | src/services/api.js:75-84 | after a prefetch stored a non-empty list, the next prefetch of that key is a cache hit on the same list |
| LocalStorage.LocalStore.StoreSession | src/services/api.js:9-20 | the store after the call is WithUserAndSession of the store before |
| LocalStorage.LocalStore.RestoreSession | src/services/api.js:22-34 | returns RestoredFrom of the current store and changes nothing |
| LocalStorage.LocalStore.StoreDataInCache | src/services/api.js:39-41 | only the given key changes, to the given value |
| LocalStorage.LocalStore.GetDataFromCache | src/services/api.js:42-46 | null exactly for an absent key; otherwise the stored value |
| LocalStorage.LocalStore.PrefetchData | src/services/api.js:75-84 | the loader is called (once, with `limit`) exactly when the key holds no non-empty list; a hit returns the cached list and leaves the store alone; a miss stores and returns the loader's answer |
| AppSession.App.constructor | src/App.js:11-12 | user and session start null |
| AppSession.App.Startup | src/App.js:14-18 | user and session are each taken from storage only when storage holds one |
| AppSession.App.HandleLogin | src/App.js:20-23 | the user is set and stored beside the unchanged current session |
| AppSession.App.HandleLogout | src/App.js:25-29 | user and session are cleared in state and storage, so a restore afterwards yields null for both |
| Login.FirstMatch | src/pages/LoginPage.js:20 | the index of the first user whose username and password both equal the input, or -1 exactly when no user matches |
| Login.HandleSubmit | src/pages/LoginPage.js:16-28 | login succeeds iff some user matches; the logged-in user is the first match and is stored with a null session, overwriting any stored one; failed credentials change neither state nor storage |
| CashierCaja.OpenCaja | src/pages/CashierCajaPage.js:12-27 | a non-numeric amount opens nothing and stores nothing; otherwise the session carries the clock as its id, the user's id as cashierId and the parsed amount, and is stored together with the user |
| CashierCaja.CloseCaja | src/pages/CashierCajaPage.js:29-34 | the session becomes null and the user is stored without one |
| CashierCaja.TillControls | src/pages/CashierCajaPage.js:39-64 | the opening form shows exactly when there is no session, the close button exactly when there is one |
| Navbar.HandleLogout | src/components/Navbar.js:9-18 | a cashier with an open session cannot log out and nothing changes; anyone else logs out, and state and storage lose user and session |
| Navbar.MenuEntries | src/components/Navbar.js:36-90 | admin entries appear iff the role is admin, cashier entries iff the role is cashier; any other role gets an empty menu |
| CashierVentas.TotalAppendLine | src/pages/CashierVentasPage.js:33 | appending a line adds its price × quantity to the total |
| CashierVentas.TotalUpdate | src/pages/CashierVentasPage.js:33 | replacing a line changes the total by the difference of the two lines' amounts |
| CashierVentas.TotalRemove | src/pages/CashierVentasPage.js:33 | deleting a line takes its amount off the total |
| CashierVentas.TotalAppend | src/pages/CashierVentasPage.js:33 | the total of two carts side by side is the sum of their totals |
| CashierVentas.FindLine | src/pages/CashierVentasPage.js:111 | the index of the first line whose productId is strictly equal to the id, or -1 exactly when there is none |
| CashierVentas.AddToCart | src/pages/CashierVentasPage.js:105-129 | an Incremented outcome names a line of the cart |
| CashierVentas.AddToCartRefusals | src/pages/CashierVentasPage.js:107-117 | stock below 1 is refused; a product whose first line already holds its whole stock is refused, and only then; a refusal leaves the cart and its total unchanged |
| CashierVentas.AddToCartIncrements | src/pages/CashierVentasPage.js:111-120 | an accepted product already in the cart has that line's quantity raised by exactly 1 (product, name and price kept) to at most its stock; the other lines, their count and order are kept; one line per product with positive quantities is kept; lines within stock stay within stock; the total rises by exactly one unit price |
| CashierVentas.AddToCartAppends | src/pages/CashierVentasPage.js:121-128 | a line is appended exactly when the product has stock and no line in the cart; it goes at the end with quantity 1, the product's name and catalog price; the cart stays valid and within stock, and the total rises by that price |
| CashierVentas.SalesPage.AddProduct | src/pages/CashierVentasPage.js:105-129 | the new cart and the outcome are AddToCart's, and the cart invariant is kept |
| CashierVentas.SpliceStart | src/pages/CashierVentasPage.js:133 | splice's start position: an index inside the cart is itself, any other is clamped into [0, length] |
| CashierVentas.SalesPage.RemoveItem | src/pages/CashierVentasPage.js:131-135 | an index inside the cart deletes exactly that line, keeps the order of the others and lowers the total by its amount; an index past the end changes nothing |
| CashierVentas.SalesPage.FinalizeSale | src/pages/CashierVentasPage.js:138-144 | the payment modal opens exactly when the cart is non-empty |
| CashierVentas.SalesPage.HandleSaleProcessed | src/pages/CashierVentasPage.js:146-150 | the cart is emptied (total 0) and the modal closed |
| CashierVentas.PageSlice | src/pages/CashierVentasPage.js:56-57 | a page is the slice [page×10, page×10+10) of the list: at most ten elements, in order |
| CashierVentas.LoadPage | src/pages/CashierVentasPage.js:58-62 | a load steps back one page exactly when the page is past the first and its slice is empty; otherwise it shows the slice |
| CashierVentas.BrandsInCategory | src/pages/CashierVentasPage.js:67 | exactly the brands whose categoryId is loosely equal to the chosen category |
| CashierVentas.ProductsOnShelf | src/pages/CashierVentasPage.js:79 | exactly the products of the chosen brand (loose equality) with stock above 0 |
| CashierVentas.BrandsInCategoryAppend | src/pages/CashierVentasPage.js:67 | the brand filter of a concatenation is the concatenation of the filters, so order and repetitions are kept |
| CashierVentas.BrandsInCategorySingle | src/pages/CashierVentasPage.js:67 | a one-brand list is kept exactly when the brand's category loosely equals the chosen one |
| CashierVentas.ProductsOnShelfAppend | src/pages/CashierVentasPage.js:79 | the shelf filter of a concatenation is the concatenation of the filters, so the pages slice the catalog's order |
| CashierVentas.ProductsOnShelfSingle | src/pages/CashierVentasPage.js:79 | a one-product list is kept exactly when the product is of the brand and has stock |
| CashierVentas.SalesPage.LoadCategories | src/pages/CashierVentasPage.js:54-63 | a step back decrements the category page and keeps the list shown; otherwise the cached categories' page is shown |
| CashierVentas.SalesPage.LoadBrands | src/pages/CashierVentasPage.js:65-75 | the same for the brands of the category |
| CashierVentas.SalesPage.LoadProducts | src/pages/CashierVentasPage.js:77-87 | the same for the in-stock products of the brand |
| CashierVentas.SalesPage.OnSessionChange | src/pages/CashierVentasPage.js:35-51 | without a session nothing happens; with one, the three catalog keys are prefetched with limit 50 in order, then the category page is loaded |
| CashierVentas.SalesPage.SelectCategory | src/pages/CashierVentasPage.js:90-96 | selects the category, clears brand and products, and loads the category's brands at the page the click saw; the brand page ends at 0 unless that load stepped back |
| CashierVentas.SalesPage.SelectBrand | src/pages/CashierVentasPage.js:98-102 | selects the brand and loads its products at the page the click saw; the product page ends at 0 unless that load stepped back |
| CashierVentas.SalesPage.PreviousCategoryPage | src/pages/CashierVentasPage.js:183 | the counter becomes max(page−1, 0) but the list loaded is that of the page the click saw, and a step back from it wins |
| CashierVentas.SalesPage.NextCategoryPage | src/pages/CashierVentasPage.js:189 | the counter becomes page+1 but the list loaded is that of the page the click saw, and a step back from it wins |
| CashierVentas.SalesPage.PreviousBrandPage | src/pages/CashierVentasPage.js:216 | as for categories, on the brands of the selected category |
| CashierVentas.SalesPage.NextBrandPage | src/pages/CashierVentasPage.js:222 | as for categories, on the brands of the selected category |
| CashierVentas.SalesPage.PreviousProductPage | src/pages/CashierVentasPage.js:252 | as for categories, on the in-stock products of the selected brand |
| CashierVentas.SalesPage.NextProductPage | src/pages/CashierVentasPage.js:258 | as for categories, on the in-stock products of the selected brand |
| CancelSale.FindSale | src/components/CancelSaleModal.js:34 | the first sale whose id's string form equals the typed id, or -1 exactly when there is none |
| CancelSale.FindColour | src/components/CancelSaleModal.js:61 | the first variant whose colour equals the item's, or -1 exactly when there is none |
| CancelSale.VariantRestock | src/components/CancelSaleModal.js:60-65 | an item with a colour adds its quantity to that colour's first variant only; base stock and everything else are unchanged |
| CancelSale.UnmatchedColourRestock | src/components/CancelSaleModal.js:61-62 | an item whose colour matches no variant leaves the product unchanged |
| CancelSale.BaseRestock | src/components/CancelSaleModal.js:66-69 | an item without a colour adds its quantity to the base stock and changes nothing else |
| CancelSale.MissingProductSkipped | src/components/CancelSaleModal.js:52-56 | an item whose product is not found is skipped without an exception |
| CancelSale.RestockAllAppend | src/components/CancelSaleModal.js:48-81 | the restock of a+b is that of a then that of b, so a failing or throwing item does not stop the later ones |
| CancelSale.RestockThrowsIff | src/components/CancelSaleModal.js:47-88 | the restock phase fails exactly when some item's product request throws |
| CancelSale.RestockAllBaseStock | src/components/CancelSaleModal.js:48-81 | a reachable product stored under its own id gains exactly the quantities of the colourless items naming it, and every product stays under its key |
| CancelSale.Backend.RestockOne | src/components/CancelSaleModal.js:49-80 | the backend's products after one item are RestockItem's |
| CancelSale.Backend.RestockAllItems | src/components/CancelSaleModal.js:47-88 | the backend's products after the loop, and whether it threw, are RestockAll's |
| CancelSale.CancelSaleModal.LoadAllSales | src/components/CancelSaleModal.js:10-24 | a loaded list replaces the sales; a failed load keeps them |
| CancelSale.CancelSaleModal.HandleCancelSale | src/components/CancelSaleModal.js:26-116 | an empty id, and only an empty id, is refused before anything else; a non-empty id of a known sale with items always reaches the restock phase; an unknown id or a sale without items aborts with no stock change; otherwise the products are RestockAll's; the cancel request is sent only when no item threw, and the sale is recorded cancelled and the modal closed exactly when it is accepted; the processing flag is false on every exit after it was set |
| AdminProducts.ParseLines | src/pages/AdminProductsPage.js:79-83 | exactly one variant per line, in line order |
| AdminProducts.ParseVariantText | src/pages/AdminProductsPage.js:77-84 | the loop's variants are ParseVariants of the text |
| AdminProducts.BlankTextHasNoVariants | src/pages/AdminProductsPage.js:78 | whitespace-only text parses to no variants |
| AdminProducts.OneVariantPerLine | src/pages/AdminProductsPage.js:386-396 | other text parses to exactly one variant per `\n`-separated line, in order |
| AdminProducts.LineWithoutStock | src/pages/AdminProductsPage.js:390-394 | a line without `\|`, or with nothing after it, gets stock 0 and its colour trimmed |
| AdminProducts.SerializeVariants | src/pages/AdminProductsPage.js:377-382 | the text is empty exactly when there are no variants |
| AdminProducts.VariantTextRoundTrip | src/pages/AdminProductsPage.js:377-396 | parsing the printed text gives the list back, for colours without `\|`, newline or surrounding whitespace |
| AdminProducts.BrandOptions | src/pages/AdminProductsPage.js:240 | exactly the brands whose categoryId is strictly equal to the selected category |
| AdminProducts.BrandOptionsAppend | src/pages/AdminProductsPage.js:240 | the options of a concatenation are the concatenation of the options: order and repetitions of the brand list are kept |
| AdminProducts.BrandOptionsSingle | src/pages/AdminProductsPage.js:240 | a one-brand list is offered exactly when its categoryId is strictly equal to the selection |
| AdminProducts.NumericCategoryNeverOffered | src/pages/AdminProductsPage.js:486-490 | with a selected value that is text, no brand with a numeric categoryId is offered |
| AdminProducts.ProductsPage.constructor | src/pages/AdminProductsPage.js:6-10 | page 0 and no products |
| AdminProducts.ProductsPage.LoadProducts | src/pages/AdminProductsPage.js:36-49 | an empty answer past the first page steps back one page and keeps the list; otherwise the answer for offset page×10 is shown |
| AdminProducts.ProductsPage.PreviousPage | src/pages/AdminProductsPage.js:343 | the page never goes below 0 |
| AdminProducts.ProductsPage.NextPage | src/pages/AdminProductsPage.js:349 | the page goes up by one |
| AdminProducts.CreateProductVariants | src/pages/AdminProductsPage.js:71-84 | without an image there is no request; otherwise the request carries the parsed variants |
| AdminProducts.EditedProduct | src/pages/AdminProductsPage.js:368-409 | the product with the form's name, price, stock, category, brand and parsed variants, everything else kept; saving the dialog's initial variant text unchanged keeps variants with printable colours exactly as they were |
| SalesReport.Ticket | src/pages/AdminReportsPage.js:113 | the id's string form when the id is truthy, else "(sin ID)" |
| SalesReport.DateMatchesLength | src/pages/AdminReportsPage.js:51 | a kept sale's date starts with the chosen date, which has at most 10 characters |
| SalesReport.DayTotalAppend | src/pages/AdminReportsPage.js:100-101 | the day total of two lists is the sum of their totals |
| SalesReport.StockUsedAppend | src/pages/AdminReportsPage.js:107-108 | the same for the stock consumed |
| SalesReport.StockUsedNonNegative | src/pages/AdminReportsPage.js:107-108 | with non-negative quantities the stock consumed is non-negative |
| SalesReport.ProductCache.GetProductDetail | src/pages/AdminReportsPage.js:27-38 | a cached product is returned with no request; otherwise exactly one request is sent, a product it returns is cached, and a request that throws yields null and caches nothing; the answer always equals the endpoint's |
| AdminReports.FilterSales | src/pages/AdminReportsPage.js:51-55 | exactly the sales whose date's first 10 characters equal the chosen date and, unless the filter is "all", whose cashierId's string form equals it |
| AdminReports.FilterSalesAppend | src/pages/AdminReportsPage.js:51-55 | filtering a concatenation gives the concatenation of the filtered parts, so the report keeps the backend's sale order |
| AdminReports.FilterSalesSingle | src/pages/AdminReportsPage.js:51-55 | a one-sale list is kept exactly when the sale passes the date and cashier tests |
| AdminReports.ActiveSales | src/pages/AdminReportsPage.js:70 | exactly the sales not cancelled |
| AdminReports.CancelledSales | src/pages/AdminReportsPage.js:71 | exactly the cancelled sales |
| AdminReports.ActiveSalesAppend | src/pages/AdminReportsPage.js:70 | the active sales of a concatenation are the concatenation of the active sales, in order |
| AdminReports.ActiveSalesSingle | src/pages/AdminReportsPage.js:70 | a one-sale list is active exactly when the sale is not cancelled |
| AdminReports.CancelledSalesAppend | src/pages/AdminReportsPage.js:71 | the same for the cancelled sales |
| AdminReports.CancelledSalesSingle | src/pages/AdminReportsPage.js:71 | a one-sale list is kept exactly when the sale is cancelled |
| AdminReports.ActiveCancelledPartition | src/pages/AdminReportsPage.js:70-71 | the active and cancelled sales together are the filtered sales, each exactly once |
| AdminReports.BrandMap | src/pages/AdminReportsPage.js:64-67 | a key is present exactly when some brand's id has that string form |
| AdminReports.BrandMapLastWins | src/pages/AdminReportsPage.js:65-67 | the value is the name of the last brand with that key |
| AdminReports.BrandName | src/pages/AdminReportsPage.js:110 | the brand-map entry for the product's brandId when the product was found with a truthy brandId and a non-empty entry, else "N/A" |
| AdminReports.CashierName | src/pages/AdminReportsPage.js:102-103 | the username of the first user whose id has the same string form, else "Desconocido" |
| AdminReports.CashierIdsComparedAsText | src/pages/AdminReportsPage.js:102 | a numeric cashier id finds the user whose id is that number as text |
| AdminReports.SaleRows | src/pages/AdminReportsPage.js:105-120 | one row per item of the sale, in item order |
| AdminReports.RowsCount | src/pages/AdminReportsPage.js:216-236 | exactly one row per item of the sales |
| AdminReports.CollectSaleRows | src/pages/AdminReportsPage.js:105-121 | the inner loop's rows and quantity sum are SaleRows' and the items' quantities, with the cache kept consistent |
| AdminReports.CollectRows | src/pages/AdminReportsPage.js:100-122 | the loop's rows, day total and stock consumed are Rows, DayTotal and StockUsed of the sales |
| AdminReports.GenerateSalesReport | src/pages/AdminReportsPage.js:41-181 | no date aborts; otherwise active and cancelled rows from the filtered sales, with totals over the active sales only and none when there are no active sales |
| AdminReports.ExportSalesReport | src/pages/AdminReportsPage.js:184-247 | no date aborts; otherwise one header row and then exactly one row per item of each active sale, in sale-then-item order |
| ProductSearch.FilterSales | src/components/ProductSearch.js:36-39 | exactly the sales of the chosen date and, unless the filter is "all", whose cashierId is strictly equal to the selected text |
| ProductSearch.FilterSalesAppend | src/components/ProductSearch.js:36-39 | filtering a concatenation gives the concatenation of the filtered parts, so rows follow the backend's sale order |
| ProductSearch.FilterSalesSingle | src/components/ProductSearch.js:36-39 | a one-sale list is kept exactly when the sale passes the date and strict cashier tests |
| ProductSearch.NumericCashierFilteredOut | src/components/ProductSearch.js:37-39 | a cashier filter other than "all" keeps no sale with a numeric cashierId |
| ProductSearch.CashierName | src/components/ProductSearch.js:80 | the username of the first user whose id is strictly equal, else "Desconocido" |
| ProductSearch.StrictCashierLookupDiffers | src/components/ProductSearch.js:80 | where the report page finds the cashier of a numeric id stored as text, this lookup finds no one |
| ProductSearch.BrandName | src/components/ProductSearch.js:85 | the product's own brand field when the product was found and the field is non-empty, else "N/A" |
| ProductSearch.SaleRows | src/components/ProductSearch.js:81-95 | one row per item of the sale, in item order |
| ProductSearch.RowsCount | src/components/ProductSearch.js:177-193 | exactly one row per item of the sales |
| ProductSearch.TotalsIncludeCancelled | src/components/ProductSearch.js:78-84 | the totals cover cancelled sales too: they equal the report page's active totals plus the cancelled sales' sums |
| ProductSearch.CollectSaleRows | src/components/ProductSearch.js:81-95 | the inner loop's rows and quantity sum are SaleRows' and the items' quantities |
| ProductSearch.CollectRows | src/components/ProductSearch.js:78-96 | the loop's rows and sums are Rows, DayTotal and StockUsed of all the filtered sales |
| ProductSearch.GenerateSalesReport | src/components/ProductSearch.js:27-107 | no date aborts; no filtered sale gives the no-sales message with no totals; otherwise the rows and totals of every filtered sale |
| ProductSearch.ExportSalesReport | src/components/ProductSearch.js:149-193 | no date guard: one header row, then exactly one row per item of every filtered sale |
| ProductSearch.UndatedExport | src/components/ProductSearch.js:153 | without a date the export keeps only sales with an empty date |
| Js.SplitJoin | src/pages/AdminProductsPage.js:379 | splitting a join on the same character gives the parts back when no part holds it |
| Js.TrimEmptyIff | src/pages/AdminProductsPage.js:78 | trim gives the empty string exactly when every character is whitespace |
| Js.ParseIntOfString | src/pages/AdminProductsPage.js:393 | parseInt reads back any integer that String printed |
| Js.NumberAndItsString | src/pages/CashierVentasPage.js:67 | a number and its decimal text are loosely equal and equal as strings, never strictly equal |

## Left out

- Network: every `fetch` is left out. Backend answers are parameters (lists, or functions from a request path or offset to an answer). HTTP statuses and the catch blocks of list loads are not modelled.
- The `Promise.all` in the cancellation restocks all items concurrently, and two items of one product can lose an update. The model restocks the items one after the other.
- CancelSale.CancelSaleModal.HandleCancelSale: a product PUT that throws, rather than answering not ok, is not modelled; only product GETs throw. The backend's error message text for a refused cancel is not modelled either.
- Floating point: prices, totals and amounts are exact reals. `toFixed` and currency formatting are not modelled.
- Number parsing:
  - `parseInt` and `parseFloat` cover decimal text only. Hexadecimal prefixes, exponents and `Infinity` are not covered.
  - For loose equality, only integer literals convert to numbers; other numeric text counts as NaN.
- Clock and dates: `Date.now()` and the ISO start time are parameters. `toLocaleTimeString` is not modelled; the report row carries the sale's date as received.
- JSON is the identity. A storage key that holds some other kind of value reads as absent on restore.
- AdminProducts.EditedProduct: price and stock arrive already parsed. `parseFloat` and `parseInt` of the form text can give NaN, which a product's price and stock cannot hold here.
- Image handling (`convertToWebp`, FileReader) and the product POST, PUT and DELETE requests are not modelled. Neither is the form reset after creating a product.
- Report output: the HTML strings, XLSX writing, file names and both `generateStockReport` functions are not modelled. Neither is the cashier list loaded for the filter.
- Not part of this model:
  - PaymentModal.js, FloatingCartPreview.js and PinnedCart.js;
  - the other admin pages (users, categories, brands, Excel upload);
  - Dashboard.js, index.js and NumericKeypad.js.
- Navigation (`navigate`, redirects), alerts and console output are not modelled. Neither is the JSX of App.js, whose router markup is incomplete.
- CashierVentas.SalesPage.AddProduct: the source raises the quantity on the line object it shares with the previous cart. The model builds a new line instead, and no later code can tell the two apart.

# Sales engine of a small sales-management back end, in Dafny

This project models the one part of the sales-management back end that holds
real domain logic: the sales controller. Its write path records, replaces and
deletes sales (ventas). Each of these adjusts the stock of the products
(productos) the sale's lines refer to. Its read path produces three reports:
revenue per month, revenue per category, and the best-selling products. The
product and sale documents follow their schemas.

Money is an integer number of cents; quantities (`cantidad`) are integers and
are not required to be positive, because the controller never checks them.
A negative quantity can therefore drive stock below zero: selling −5 units of
a product with no stock raises it to 5, selling 5 more takes it to 0, and
deleting the first sale then leaves −5 (`Inventory.NegativeQuantityBreaksFloor`).

Modules, one per source concern:

- `Common` (common.dfy): `Option`, document ids, and `Date` (year, month 1..12,
  position within the month) with inclusive range tests.
- `ProductModel` (product_model.dfy): the `Product` document, the product
  collection `Catalog`, and the schema's required fields and `stock` default.
- `SaleModel` (sale_model.dfy): the `LineItem` and `Sale` documents and the
  schema's required fields and `fecha` default. It also defines `Consistent`:
  a sale's total is the sum of its subtotals, and each subtotal is unit price
  times quantity.
- `Inventory` (inventory.dfy): the write path as pure functions.
  - `SellAll` prices and sells requested lines one after another.
  - `RestockAll` gives the stock of a sale's lines back.
  - Lemmas cover pricing, the zero floor, partial failure, and the
    create/remove round trip.
- `SaleEngine` (sale_engine.dfy): class `Store`. It holds the `products` and
  `sales` maps and has one method per endpoint (`Create`, `Update`, `Remove`).
  Each method returns a `Status` (`Ok`, `NotFound`, `Invalid`) in place of the
  HTTP reply and is proved against `SellAll`/`RestockAll`. `Valid()` keeps
  every stored sale consistent. `StockSound()` (no negative stock, no stored
  line with a negative quantity) is kept by every method as long as the
  request's quantities are non-negative.
- `SaleFilter` (sale_filter.dfy): the list endpoint's query filter.
- `Grouping` (grouping.dfy): the relational steps the reports use.
  - group-by with two sums (`Tally`);
  - a stable sort, largest first (`SortDesc`).
- `Reports` (reports.dfy): `VentasPorMes`, `VentasPorCategoria` and
  `TopProductos` as functions over `seq<Sale>` and the catalog. Each is proved
  equal to an independent per-month, per-category or per-product reference
  sum.

## Model

| member | source | states |
|---|---|---|
| `ProductModel.NewProduct` | backend/src/models/producto.model.js:3-9 | a product document exists only with a non-empty `nombre` and a `precioUnitario`; `stock` is 0 when not given; `descripcion` and `categoria` are optional and kept as given |
| `SaleModel.NewLineItem` | backend/src/models/venta.model.js:3-8 | a line item exists exactly when `cantidad`, `precioUnitario` and `subtotal` are present; its product reference may be absent |
| `SaleModel.NewSale` | backend/src/models/venta.model.js:10-16 | a sale exists exactly when `total` is present; `fecha` defaults to the moment of creation; customer and payment method are optional and kept as given |
| `SaleModel.TotalAppend` | backend/src/controllers/venta.controller.js:77 | adding a line adds its subtotal to the running total (the `total +=` accumulation) |
| `Inventory.SellAllPricing` | backend/src/controllers/venta.controller.js:72-86 | pricing succeeds iff every requested product exists; then there is one line per request, in order, with the request's product and quantity, the product's price when non-zero (else the client's when non-zero, else 0), and subtotal = price × quantity; otherwise the failure names the first unknown product |
| `Inventory.FailureKeepsPrefix` | backend/src/controllers/venta.controller.js:73-74 | when request k is the first with an unknown product, the sale fails naming it, and the stock taken by the requests before k is not given back |
| `Inventory.SellAllStock` | backend/src/controllers/venta.controller.js:78-79 | selling keeps the set of products and every field but stock; each product's new stock is its old stock run through max(0, stock − quantity) for each request naming it, in order |
| `Inventory.DrainFloor` | backend/src/controllers/venta.controller.js:78 | a product's stock after selling is never negative once a request for it was processed, and is untouched otherwise |
| `Inventory.DrainExact` | backend/src/controllers/venta.controller.js:78 | when quantities are non-negative and stock covers the demand, selling takes exactly the demanded quantity (no clamping) |
| `Inventory.SoldLinesReturnDemand` | backend/src/controllers/venta.controller.js:80-85 | the stored lines of a priced sale carry exactly the requested quantity of each product |
| `Inventory.RestockAllStock` | backend/src/controllers/venta.controller.js:143-149 | reversing a sale keeps the set of products and every field but stock; each product still in the catalog gets back exactly the quantity its lines carry, uncapped; lines of deleted products are skipped |
| `Inventory.RemoveUndoesCreate` | backend/src/controllers/venta.controller.js:139-151 | deleting a sale restores the catalog it was created from whenever creating it clamped no stock at zero (`Unclamped` for every product); other products may hold any stock and quantities may be negative |
| `Inventory.UpdateActsOnOriginalStock` | backend/src/controllers/venta.controller.js:101-122 | reversing a sale whose creation clamped nothing and then selling the new lines gives the same catalog and lines as selling the new lines from the original stock |
| `Inventory.DrainUnclamped` | backend/src/controllers/venta.controller.js:78 | a run that reaches every request and clamps nothing takes exactly the demanded quantity, for quantities of either sign |
| `Inventory.CoveredDemandUnclamped` | backend/src/controllers/venta.controller.js:78 | non-negative quantities whose total the stock covers clamp nothing |
| `Inventory.SellAllFloor` | backend/src/controllers/venta.controller.js:78 | selling keeps non-negative stock non-negative, and after a successful sale every requested product has stock ≥ 0 (overselling succeeds and clamps at zero) |
| `Inventory.RestockAllFloor` | backend/src/controllers/venta.controller.js:146 | reversing lines of non-negative quantity keeps stock non-negative |
| `Inventory.NegativeQuantityBreaksFloor` | backend/src/controllers/venta.controller.js:78-146 | with quantities unchecked, selling −5 then 5 units of a product at stock 0 and reversing the first sale leaves stock −5 |
| `SaleEngine.Store.SellLines` | backend/src/controllers/venta.controller.js:71-86 | the item loop leaves the catalog and outcome given by `SellAll` and accumulates the total of the priced lines; each line is built through the line-item schema (`NewLineItem`), which accepts it |
| `SaleEngine.Store.RestockLines` | backend/src/controllers/venta.controller.js:102-108 | the restore loop leaves the catalog given by `RestockAll` |
| `SaleEngine.Store.Create` | backend/src/controllers/venta.controller.js:64-94 | a missing or empty item list is refused with nothing changed. An unknown product is refused with the sales unchanged and the partial stock changes kept. Otherwise a new sale is stored under a fresh id with the priced lines, total = sum of subtotals, and the creation time as date. Every stored sale stays consistent; with non-negative quantities, no stock and no stored quantity becomes negative. |
| `SaleEngine.Store.Update` | backend/src/controllers/venta.controller.js:96-135 | an unknown sale is refused with nothing changed. Otherwise the old lines are restocked first. A missing item list or an unknown product is then refused, keeping the stock changes. On success the sale gets the new customer, lines, payment method and total, and a new date only when one is supplied. With non-negative quantities, no stock and no stored quantity becomes negative. |
| `SaleEngine.Store.Remove` | backend/src/controllers/venta.controller.js:137-156 | an unknown sale is refused with nothing changed; otherwise its lines are restocked and the sale is deleted; no stock and no stored quantity becomes negative if none was |
| `SaleFilter.Select` | backend/src/controllers/venta.controller.js:16-42 | a sale is listed iff every supplied constraint holds (customer, inclusive date range, payment method, inclusive total range), and each matching sale as often as it is stored |
| `SaleFilter.SelectConcat` | backend/src/controllers/venta.controller.js:16-42 | the list keeps the stored order: filtering two runs of sales gives the two filtered runs one after the other |
| `SaleFilter.NoFilterSelectsAll` | backend/src/controllers/venta.controller.js:16-42 | with no constraint supplied, every sale is listed, in order |
| `Grouping.TallyCorrect` | backend/src/controllers/venta.controller.js:226-230 | grouping yields one row per key, exactly the keys of the entries, each row summing quantity and amount of the entries with its key |
| `Grouping.SortDescCorrect` | backend/src/controllers/venta.controller.js:231 | the sort orders rows largest first and is a permutation of its input |
| `Grouping.PermutedTallyDistinct` | backend/src/controllers/venta.controller.js:209-210 | after sorting, each key still has a single row |
| `Grouping.PrefixOutranks` | backend/src/controllers/venta.controller.js:231-232 | in the ranking by quantity, the n groups ahead of any group sold at least as many units as it |
| `Reports.TotalsByMonthCorrect` | backend/src/controllers/venta.controller.js:165-170 | the per-month grouping of the year's sales holds, for each month present, the sum of totals of that month, and a month with no entry has revenue 0 |
| `Reports.VentasPorMesCorrect` | backend/src/controllers/venta.controller.js:159-178 | the report's year is the requested one when given and non-zero, else the current year; it lists months 1..12 and, for each, the total revenue of the sales dated in that month of that year |
| `Reports.QuietMonthIsZero` | backend/src/controllers/venta.controller.js:172-176 | in the monthly report, a month of the report's year in which no sale is dated has total 0 |
| `Reports.CategoryEntriesRevenue` | backend/src/controllers/venta.controller.js:192-209 | the unwound and joined lines of one category sum to that category's revenue over the sales in the date range, counting only lines whose product still exists |
| `Reports.CategoryEntriesKeys` | backend/src/controllers/venta.controller.js:192-209 | a category key appears among the unwound and joined lines exactly when some sale in the date range has a line of an existing product filed under it |
| `Reports.VentasPorCategoriaCorrect` | backend/src/controllers/venta.controller.js:184-215 | one row per category under which some sale in the date range has a line of an existing product, labelled by its name or 'Sin categoría', totalling exactly its revenue within the inclusive date range, ordered by total, largest first |
| `Reports.ResolveRows` | backend/src/controllers/venta.controller.js:233-246 | after the product join each row names an existing product with its name and group sums, and every ranked group of an existing product yields a row |
| `Reports.TopProductosCorrect` | backend/src/controllers/venta.controller.js:221-249 | rejected exactly when the limit is negative (absent, 0 or unparsable means 10); otherwise at most `limit` rows, ordered by units sold largest first, one per product, each an existing product with its name, exact units sold and exact revenue |
| `Reports.TopProductosComplete` | backend/src/controllers/venta.controller.js:223-239 | an existing product with sales is left out only when at least `limit` other groups sold at least as many units, because truncation happens before the join drops rows |

## Left out

- HTTP handling, routing, status codes and the database connection are not
  modelled; each endpoint returns a `Status` or a report value instead.
- The store (`findById`, `save`, `populate`, aggregation pipeline syntax) is
  modelled as in-memory maps and sequences; a store write error is not modelled.
- Concurrency is not modelled. The source prices a request's items with
  `Promise.all`, so all lookups start at once. Later items may also take stock
  when an earlier one fails, and a product named twice in one request can lose
  an update. The model processes items one after another and stops at the
  first unknown product. Races between requests are not modelled either.
- Money is an integer (cents), not a floating-point number; `parseFloat`,
  `parseInt` and the `Number` casts are taken as already done.
- Dates are abstracted to year, month and position within the month.
  Time zones are not modelled: the source builds the year bounds in local time
  while it reads the month in UTC. Date string parsing is not modelled either.
- `Reports.VentasPorMesCorrect`: the model reports the requested year as
  given. The source builds its window with `new Date(year, 0, 1)`, which maps
  years 0 to 99 onto 1900 to 1999: `?year=50` reports 1950's sales under
  `year: 50`, and `?year=99` gives the empty window [1999, 100) with all
  twelve totals 0. In both cases the model reports the sales dated in year 50
  or 99 instead.
- `Update` is modelled although no route registers it.
- `getById` (a plain lookup) and the `sort` parameter of the list endpoint are
  not modelled.
- Among groups with equal sums the store's sort order is unspecified; the
  model fixes one tie order: groups of equal weight come in the order of each
  group's last line, so the group whose last line comes first leads.
- `SaleEngine.Store.Create`, `Update`, `Remove`: sale ids come from a counter
  (`nextId`) rather than the store's object-id generator.
- The product, category and customer controllers, the customer schema, the
  seed script and the front end are not part of this model. A category is
  seen only through a map from category id to category name.

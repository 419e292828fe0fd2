# Restaurant order workflow, modelled in Dafny

This project models the order service of a restaurant back end
(`OrderService` in `src/order/order.service.ts`). The service seats tables,
composes orders from catalog products, keeps order totals and records settled
sales. It checks every order against two external services: an identity
service (does this user exist?) and a product catalog (name, price and stock of
a product).

The model is one class, `Service.OrderService`. It holds the stores as fields:

- `tables`: table rows in insertion order;
- `orders`: orders by id, each with its sequence of lines;
- `sales`: sale rows in insertion order.

It also holds the two resolvers as maps:

- `users`: the users the identity service answers OK for;
- `catalog`: the product service's records by id.

`effects` records, in issue order, each write the service makes: saves, item
removals, catalog stock update requests (whether the catalog accepts them or
not) and delivered receipt mails. So every contract can say
what was saved on which path, and how often.

Modules:

- `Records` (`records.dfy`): the stored rows, requests, replies and HTTP
  status codes (200, 201, 400, 404). It also has an `Error` for each failure
  the service reports, and an `Outcome` that separates a reply from an
  exception the service does not catch.
- `Search` (`search.dfy`): the first row that matches (the repository's
  `findOne`, the array's `findIndex`), substring containment for the pattern
  `%x%`, and filtering rows.
- `Pricing` (`pricing.dfy`): the snapshot a line takes from the catalog,
  where line total = price × quantity. Also the order total as the sum of line
  totals, splicing out one line, and lemmas relating them.
- `Service` (`order_service.dfy`): the service class. Each operation is a
  method proved against those functions.
- `Scenarios` (`scenarios.dfy`): two worked examples, checked by the verifier. A table is provisioned, and
  an order with one line is created and read back: price 10 × quantity 2 gives
  a line total of 20 and an order total of 20. The line is then deleted, which
  brings stock from 10 to 12 and the total to 0. Sales are then recorded and
  searched by user name and by date.

Where the system's written design and its code disagree, the model follows the
code:

- `getAllOrders` returns the stored lines and totals. It does not re-price
  them; only `getOrder` does.
- When the stock update in `deleteOrderItem` fails, the line has already been
  deleted from storage, but the order is not saved and its total is not
  lowered. `Pricing.StockFailureLeavesStaleTotal` proves that if the total
  matched the lines before, and the removed line's total is not 0, the stored
  total then no longer matches the lines.
- A receipt delivery error is swallowed (`src/order/extra/send_email.ts:35-47`).
  A failure to fetch the mail access token is not: `createSale` then fails, and
  the sale is not saved.

The code leaves one choice open, and the model fixes it: sale searches use SQL
`LIKE`, whose case sensitivity depends on the database collation, and no
collation is configured in the repository. The model chooses plain
case-sensitive substring matching, so a search for "ali" does not match
"Alice". See the `GetSalesByUser` and `GetSalesByDate` lines under
"## Left out".

## Model

| member | source | states |
|---|---|---|
| `Search.FirstIndex` | src/order/order.service.ts:666-669 | The result is the index of the first element that satisfies the predicate: it does satisfy it and no earlier one does. None means no element does. |
| `Search.Contains` | src/order/order.service.ts:453-456 | True exactly when the needle occurs at some position of the text. This is what the pattern `%x%` matches. |
| `Search.Filter` | src/order/order.service.ts:474-479 | A row is kept exactly when it is stored and selected. Every selected row comes back as often as the store holds it, and no other row comes back. The result has no more rows than the store. |
| `Pricing.FirstUnresolved` | src/order/order.service.ts:213-224 | The first request line whose product the catalog does not know. Every earlier line resolves. None exactly when every line resolves. |
| `Pricing.Snapshot` | src/order/order.service.ts:226-232 | The line as stored: the request's product, quantity and note; the catalog's product name and unit price; and a line total equal to unit price × quantity. Nothing the client quoted is kept. |
| `Pricing.Priced` | src/order/order.service.ts:213-237 | One snapshot line per request line, in request order (as many lines as the request has), each taken at the catalog record of that line's product. |
| `Pricing.PricedLines` | src/order/order.service.ts:283-298 | Each line of a priced (or re-priced) order keeps its product, quantity and note, carries the current catalog price and costs that price × its quantity. |
| `Pricing.ItemsTotal` | src/order/order.service.ts:233-240 | The order total as the sum of the line totals; an order of one line costs that line's total. |
| `Pricing.ItemsTotalNonNegative` | src/order/order.service.ts:233-240 | An order whose line totals are all non-negative has a non-negative total. |
| `Pricing.RemoveAt` | src/order/order.service.ts:676 | The lines with the one at the found index spliced out: one line fewer (what else it keeps is stated by `RemoveAtKeepsOthers`). |
| `Pricing.RemoveAtKeepsOthers` | src/order/order.service.ts:676 | The spliced lines: one fewer, earlier lines in place, later lines shifted down by one (so their relative order is kept). The removed line plus the result is the original multiset. |
| `Pricing.ItemsTotalConcat` | src/order/order.service.ts:236-240 | The sum of line totals over two sequences joined is the sum of the two sums. |
| `Pricing.RemoveAtTotal` | src/order/order.service.ts:676-701 | Splicing out one line lowers the sum of line totals by exactly that line's total. |
| `Pricing.SplitTotal` | src/order/order.service.ts:236-240 | An order total splits at any line: the lines before it, plus that line, plus the lines after it. |
| `Pricing.PricedTotalIsCost` | src/order/order.service.ts:226-240 | The sum of the priced lines equals the sum of catalog price × requested quantity. Prices are the catalog's at the time of pricing. |
| `Pricing.PricingIgnoresClientFigures` | src/order/order.service.ts:226-232 | Two requests that agree on product, quantity and note are priced identically, whatever product names, unit prices and totals the client quoted. |
| `Pricing.RepriceUnchangedCatalog` | src/order/order.service.ts:283-298 | Re-pricing stored lines against an unchanged catalog gives back the stored lines. |
| `Pricing.RepricedLinesFollowCurrentCatalog` | src/order/order.service.ts:283-298 | Lines read back are priced by the current catalog, whichever catalog priced them when stored. Their totals sum to the current cost. |
| `Pricing.DeletionKeepsConsistent` | src/order/order.service.ts:676-702 | If an order's total matched its lines, it still matches after one line is spliced out and the total is lowered by that line's total. |
| `Pricing.StockFailureLeavesStaleTotal` | src/order/order.service.ts:676-699 | If the line is spliced out but the total is not lowered, the total no longer matches the lines, unless the removed line cost nothing. |
| `Service.NameIndex` | src/order/order.service.ts:113-117 | The row found by name has that name. No row is found exactly when no table has that name. |
| `Service.IdIndex` | src/order/order.service.ts:158-165 | The row found by id has that id. No row is found exactly when no table has that id. |
| `Service.LineIndex` | src/order/order.service.ts:666-674 | The first line for the product: it is for that product and no earlier line is. No line is found exactly when no line is for that product. |
| `Service.OrderService.constructor` | src/order/order.service.ts:69-100 | Empty stores wired to the given identity service and catalog. |
| `Service.OrderService.TableById` | src/order/order.service.ts:158 | The table with that id, which is a stored table; none exactly when no stored table has that id. |
| `Service.OrderService.UserOf` | src/order/order.service.ts:265-275 | The identity service's user when it knows the id; no user (the code's null) exactly when it does not. |
| `Service.OrderService.CreateTable` | src/order/order.service.ts:102-108 | A new name: the table is appended with an id no stored table has, and no active order, one save, reply CREATED. A name in use: the store's unique constraint throws and nothing changes. |
| `Service.OrderService.GetTablesByName` | src/order/order.service.ts:110-136 | OK exactly when a table has that name. The table returned is the one with that name. Otherwise NOT_FOUND, citing the name, with no table. |
| `Service.OrderService.UpdateTableState` | src/order/order.service.ts:152-174 | Unknown id: NOT_FOUND and nothing changes. Otherwise that row's seat count, state and active order are overwritten, its id and name kept, every other row unchanged, one save, reply OK. |
| `Service.OrderService.ResolveLines` | src/order/order.service.ts:210-237 | The loop stops at the first line whose product is unknown and cites that product. Otherwise it gives every line priced in request order, and a total equal to the request's cost at catalog prices. |
| `Service.OrderService.CreateOrder` | src/order/order.service.ts:176-248 | The user is checked, then the table, then each line. An unknown user gives BAD_REQUEST; an unknown table gives NOT_FOUND; the first unknown product gives BAD_REQUEST citing it. On any failure: no id, no save, no change. On success: a fresh id, the lines priced by the catalog, a total equal to the sum of the line totals, exactly one save, reply CREATED. |
| `Service.OrderService.UpdateOrder` | src/order/order.service.ts:307-387 | An unknown order gives NOT_FOUND before any other check. Then the same user, table and product checks as creation, with no save on failure. On success: user, table, email and every line replaced, the total recomputed from scratch, one save, reply CREATED. |
| `Service.OrderService.GetOrder` | src/order/order.service.ts:250-305 | Unknown order: NOT_FOUND. A line whose product the catalog no longer knows: the read throws. Otherwise OK: every line re-priced at current catalog prices, the stored total unchanged, and no user when the user lookup fails. |
| `Service.OrderService.GetAllOrders` | src/order/order.service.ts:389-413 | Always OK with no error. One view per stored order, with the stored lines and total (not re-priced) and the user, or no user if the lookup fails. |
| `Service.OrderService.GetUser` | src/order/order.service.ts:415-430 | OK with the user when the identity service knows the user; otherwise BAD_REQUEST citing the user id. |
| `Service.OrderService.GetSalesByUser` | src/order/order.service.ts:450-469 | Always OK. A stored sale is returned exactly when its user name contains the query, and as many times as it is stored. |
| `Service.OrderService.GetSalesByDate` | src/order/order.service.ts:471-490 | Always OK. A stored sale is returned exactly when its date contains the query, and as many times as it is stored. |
| `Service.OrderService.CreateSale` | src/order/order.service.ts:492-633 | The sale is stored exactly as given, with no checks. The receipt mail comes first and the save second. A delivery failure still saves the sale and replies CREATED. A token failure throws and saves nothing. |
| `Service.OrderService.DeleteOrderItem` | src/order/order.service.ts:635-705 | Checks in order: unknown order gives NOT_FOUND, unknown product gives BAD_REQUEST, no line for the product gives NOT_FOUND. None of these change anything. Otherwise the first matching line is spliced out and deleted. The stock update is requested in both cases. A rejected one returns the upstream status, leaves the catalog as it was and the total unlowered, and does not save the order. Otherwise stock becomes stock + the removed quantity, the total drops by the line's stored total (so a matching total stays matching), and the order is saved. |

## Left out

- `getAllTables` and `getAllSales` (src/order/order.service.ts:138-150, 432-448) are not modelled. They return the whole store, and their NOT_FOUND branches cannot be reached because `find` always resolves to an array.
- The HTML receipt (src/order/order.service.ts:513-626) is presentation only. The `Mailed` effect carries the sale the receipt renders and the fixed subject line.
- The notifier's OAuth and SMTP traffic is left out. Its outcome is a parameter: delivered, delivery failed (swallowed), or token rejected (thrown).
- The identity service, the product service and the stock-update answer are parameters or fields. A failed lookup means the id is absent from the map. The catalog is not changed when a stock update is rejected.
- Failures of the transport or the database (an unreachable service, a failed write) are not modelled. Neither is the `try`/`catch` in `createOrder`, which rethrows unchanged.
- Integer widths are not modelled. Prices, quantities and totals are unbounded integers: no 32-bit column overflow, no floating-point behaviour of JavaScript numbers.
- Service.OrderService.GetSalesByUser: `%` and `_` inside the query are taken literally, though SQL `LIKE` treats them as wildcards. Case-insensitive matching under some database collations is not modelled either.
- Service.OrderService.GetSalesByDate: the same two limits apply as for GetSalesByUser.
- Service.OrderService.GetSalesByUser: the contract says which sales are returned, but not that they keep their stored order.
- Service.OrderService.GetSalesByDate: likewise, the order of the returned sales is not stated.
- Service.OrderService.GetOrder: the lines are re-priced one by one in sequence, where the code runs the lookups concurrently. When several products are missing, the model cites the first line's product; which failure the code reports depends on timing.
- Request validation is out of scope. This covers integer and string fields and e-mail format, done by decorators on the request classes. Requests are taken as already well-typed.
- Row ids of order lines and sales are left out. A sale is identified by its position in `sales`.
- The entity classes declare no columns for an order's email, a line's name, unit price, total and note, or a table's active order. The model treats all of them as stored, as the service writes them.
- Races between concurrent requests are out of scope: each call runs alone on the stores.

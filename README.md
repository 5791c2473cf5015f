# Gestion-quincaillerie: the inventory ledger and stock engine, in Dafny

This project models the stock engine of a hardware-store management application written in PHP.
The application keeps a products table and an append-only stock ledger (`stock_movements`).
Five page handlers change stock, and one page reports on it:

- the point-of-sale cart and checkout (`Sales`): the cart freezes sale prices; checkout re-checks
  stock, writes the sale and its items, decrements stock and appends one 'Sortie - Vente' movement
  per line, all in one transaction;
- goods receipt against a purchase order (`Receiving`): each submitted quantity raises the item's
  quantity_received and the product's stock, and appends an 'Entree - Approvisionnement' movement;
  the order is then forced to Received;
- manual stock movements (`ManualMovements`): an adjustment, a breakage or an internal use, signed by
  its type;
- the purchase-order cart, saving an order, and the order status machine (`PurchaseOrders`);
- the product form and the CSV product import (`Catalog`, `ProductImport`): both overwrite
  current_stock directly and write no ledger entry;
- the reports page (`Reports`): which role sees which report, the filters and the four queries.

The database is the class `Store.Database`, with one field `tables` of type `Store.Tables`. Every
handler reads the tables and computes the new state in locals. It assigns `tables` only when its
transaction commits. A storage error is the parameter `fault` (the n-th write statement of the
handler throws). Every handler's `ensures` states both outcomes: the committed new state, or
`db.tables == old(db.tables)` on a rollback. The two session carts are classes too
(`Sales.SaleCart`, `PurchaseOrders.PoCart`), each holding one `seq` of lines keyed by product id.

The ledger property is proved per operation. For a sale, a receipt and a manual movement, a
product's new current_stock is its old one plus the sum of the movements the operation appended for
it. No global invariant is claimed, because a product edit and the import overwrite current_stock.

Several behaviours of the code are modelled as written, not as intended:

- the import ignores the first data row;
- the import looks a product up by reference only after a non-empty barcode matched nothing;
- the receipt handler's Received/Cancelled guard compares the order id with the status texts, so it
  never fires (only the receive page turns closed orders away);
- the manual-movement form never posts `movement_type_base`, so every submission of it is refused;
- the reports page binds the raw request values on display, but the `filter_var` results on export.

Three rules about purchase orders hold on one path and not on another, and the model keeps each path as written:

- the receive page turns a Received or Cancelled order away (public/receive_po.php:187-191), but the
  receipt handler's own guard lets it through (public/receive_po.php:54-62;
  `Receiving.ClosedOrderBypassesHandlerCheck`);
- the receive page lists only the order's items (public/receive_po.php:195-201), and the handler
  silently skips a submitted line whose item is not in the order rather than refusing the submission
  (public/receive_po.php:77-104; `Receiving.WriteReceptionLines`);
- a receipt moves an order to Received after raising its items and stock, but the status handler's
  mark_as_received moves it to Received with no item or stock change (public/compar.php:200-236;
  `PurchaseOrders.UpdateStatus`).

Number parsing (`filter_var`) is a parameter, `Php.Filters`. The database's reading of a date text
and its coercion of a text compared with an integer column are parameters too, in `Reports.Parsers`.
The user id, role and current time are also parameters. Money is exact `real`, with
`TAX_RATE = 0.18`.

## Model

| member | source | states |
|---|---|---|
| Store.WithDelta | public/sales.php:221-227 | `current_stock = current_stock + delta` for one id changes only that row's stock, keeps every other row, and creates no row for an absent id |
| Store.LedgerDelta | public/stock_movements.php:80-99 | applying any batch of movements changes a product's stock by exactly the sum of the batch's signed quantities for it, and nothing else about the product |
| Store.ApplyMovementsAppend | public/sales.php:207-240 | applying two batches in turn is the same as applying their concatenation |
| Store.LedgerSumAppend | public/sales.php:207-240 | the ledger sum of a concatenation is the sum of the two parts' ledger sums |
| Store.LedgerInvariantPreserved | public/receive_po.php:104-131 | if stock equals base plus the ledger so far, it still equals base plus the extended ledger after a batch is applied |
| Store.IndexOfKey | public/sales.php:70-72 | `isset($cart[$id])`: a found position holds that id, and None exactly when no line has it |
| Store.RemoveAt | public/sales.php:118-121 | `unset` of one line keeps all other lines, in order, and shortens the cart by one |
| Store.CategoryIds | public/products.php:179-181 | an id is a category id exactly when some row of the categories table carries it |
| Php.TrimSpec | public/products.php:116-118 | `trim` returns an infix of its argument with no space character at either end |
| Php.TrimIdempotent | public/products.php:520-532 | trimming a trimmed value changes nothing |
| Php.OrNull | public/stock_movements.php:88 | `!empty($s) ? $s : null` stores NULL for "" and "0" and the text otherwise |
| Php.Trim | public/products.php:116-118 | `trim`: spaces, tabs, newlines, carriage returns, NUL and vertical tabs dropped at both ends |
| Php.Empty | public/products.php:550 | `empty()` on a string: "" and "0" |
| Php.Lower | public/products.php:463 | `strtolower` on ASCII letters |
| Php.Underscored | public/products.php:463 | `str_replace([' ', '-'], '_', ...)` |
| Php.CommaToDot | public/products.php:534-537 | `str_replace(',', '.', ...)` |
| Php.StartsWith | public/stock_movements.php:73 | `strpos(...) === 0` |
| Sales.SaleCart.constructor | public/sales.php:66-68 | an unset cart is empty and well formed |
| Sales.SaleCart.Add | public/sales.php:48-112 | an unparsable id or quantity, a quantity below 1, an unknown product, stock below the quantity, or stock below the summed quantity of an existing line are each rejected with the cart unchanged; otherwise a new line freezes the sale price, or the existing line keeps its position and price and takes the summed quantity; line totals stay quantity × frozen price |
| Sales.SaleCart.RemoveItem | public/sales.php:115-125 | removes exactly the product's line and keeps the others in order; an absent or unparsable id changes nothing and is reported |
| Sales.SaleCart.Clear | public/sales.php:144-145 | the cart becomes empty |
| Sales.SubtotalIsQuantityTimesPrice | public/sales.php:77-91 | in a well-formed cart the stored line totals add up to Σ quantity × frozen unit price |
| Sales.Subtotal | public/sales.php:178-181 | the foreach computes Σ line_total |
| Sales.Totals | public/sales.php:267-280 | the cart summary: subtotal Σ line_total, tax = subtotal × TAX_RATE, discount 0, final = subtotal + tax − discount, and the line count |
| Sales.FirstShort | public/sales.php:168-176 | the first line whose product is missing or has less stock than its quantity, with every earlier line servable; None exactly when every line is servable |
| Sales.CheckStock | public/sales.php:168-176 | the re-check loop stops at exactly that first unservable line |
| Sales.WriteSale | public/sales.php:178-245 | the transaction commits exactly when none of its 1 + 3n writes throws, and then yields the sale row, the items, the decrements and the movements of `CommittedSale` |
| Sales.ApplySaleLinesItems | public/sales.php:207-218 | writing the lines one by one appends one sale_items row per line, in cart order |
| Sales.ApplySaleLinesMoves | public/sales.php:229-240 | writing the lines one by one appends one 'Sortie - Vente' movement of −quantity per line |
| Sales.ApplySaleLinesStock | public/sales.php:221-227 | the per-line decrements are exactly the application of those movements to the stock |
| Sales.WriteSaleLines | public/sales.php:207-240 | the per-line loop commits exactly when none of its writes throws, and then produces the items, movements and stock defined by the ledger functions |
| Sales.FinalizeSale | public/sales.php:151-264 | an empty cart is refused; an unservable line is reported with its available stock, and nothing is written; a storage error rolls everything back and keeps the cart; otherwise the store becomes `CommittedSale` and the cart is cleared |
| Sales.CommittedSaleWellKeyed | public/sales.php:191-205 | a committed sale adds exactly the new sale id and keeps every key below its counter |
| Sales.SaleLedgerSum | public/sales.php:229-240 | the sale's movements for a product add up to minus the quantity sold of it |
| Sales.CartQuantityOfDistinct | public/sales.php:67-80 | with one line per product, the quantity sold of a product is that of its line, or 0 |
| Sales.SaleStockMatchesLedger | public/sales.php:207-245 | after a sale a product's stock is its old stock minus the quantity sold, which equals old stock plus the sum of the ledger entries appended for it; nothing else about the product changes |
| Sales.SaleNeverOversells | public/sales.php:168-176 | after a sale that passed the re-check, every sold product's new stock is its old stock minus its line quantity, and is not negative |
| Sales.TwoUnitsAtOneThousand | public/sales.php:178-240 | two units at 1000 give total 2000, tax 360, final 2360 and one movement of −2 |
| Sales.SaleRecord | public/sales.php:191-202 | the sales row: subtotal, tax, zero discount, final amount, user, customer and notes |
| Sales.CommittedSale | public/sales.php:188-240 | the store after a committed checkout: the sale row, its items, the decrements and the movements |
| Receiving.CheckOrder | public/receive_po.php:54-62 | the handler's status guard: a missing order is not found, and an existing one always passes, because the fetched column is the id |
| Receiving.Accepted | public/receive_po.php:77-104 | the receipts a submission yields: lines of the order with a positive parsed quantity, in submission order |
| Receiving.ReceiveItems | public/receive_po.php:106-112 | `quantity_received = quantity_received + q` for each receipt in turn |
| Receiving.ReceiptMovements | public/receive_po.php:122-131 | one 'Entree - Approvisionnement' movement per receipt, in order |
| Receiving.CommittedReceipt | public/receive_po.php:104-143 | the store after a committed receipt: items raised, movements appended and applied, the order Received |
| Receiving.ApplyReceiptsIsLedger | public/receive_po.php:104-131 | the per-line writes raise quantity_received by `ReceiveItems`, append one 'Entree - Approvisionnement' movement per receipt, and update stock by applying exactly those movements |
| Receiving.FailureIsFinal | public/receive_po.php:154-159 | a failed write, or a missing product at any accepted line, prevents the whole submission from committing |
| Receiving.WriteReceptionLines | public/receive_po.php:77-137 | lines outside the order are ignored; invalid or zero quantities are counted as processed but write nothing; the loop succeeds exactly when no write throws and every product exists; the counters are the processed lines and the positive receipts |
| Receiving.WriteReception | public/receive_po.php:72-146 | the line writes followed by the unconditional status update: commits exactly when `ReceiptCommits`, and yields `CommittedReceipt` |
| Receiving.FinalizeReception | public/receive_po.php:41-165 | an unparsable order id, an empty or missing quantity map, and an unknown order are refused with no writes; a closed order is never refused; a failed write rolls back; otherwise the store becomes `CommittedReceipt` with the order Received |
| Receiving.ReceptionPage | public/receive_po.php:169-216 | the page turns away a missing id; an order without a row or supplier; a Received or Cancelled order (reporting its status); and an existing, supplied, Pending or Sent order without listed items, each exactly in that case. It shows the form exactly for an existing, supplied, Pending or Sent order with listed items, listing exactly its items whose product exists |
| Receiving.ListedItems | public/receive_po.php:195-201 | the `JOIN products` item query: the order's items whose product still exists |
| Receiving.ClosedOrderBypassesHandlerCheck | public/receive_po.php:54-62 | a Received or Cancelled order is turned away by the page, yet passes the handler's guard |
| Receiving.ReceivedQuantityGrows | public/receive_po.php:106-112 | each item's quantity_received grows by exactly what was received for it, and nothing else about the item changes |
| Receiving.ReceiptLedgerSum | public/receive_po.php:122-131 | a receipt's movements for a product add up to what was received of it |
| Receiving.ReceiptStockMatchesLedger | public/receive_po.php:104-131 | after a receipt a product's stock is its old stock plus what was received of it, which equals the sum of the ledger entries appended for it |
| Receiving.ZeroQuantityLineWritesNothing | public/receive_po.php:100-104 | a line with quantity 0 is counted as processed and produces no receipt |
| Receiving.AcceptanceIgnoresQuantities | public/receive_po.php:78-104 | acceptance never reads quantity_ordered or quantity_received, so any amount may be received |
| Receiving.CommittedReceiptWellKeyed | public/receive_po.php:104-143 | a committed receipt keeps every table's keys and counters |
| ManualMovements.ResolveType | public/stock_movements.php:48-61 | 'Entree' resolves to 'Entree - Ajustement'; 'Sortie' to the enum field when it is a manual value; anything else to "" |
| ManualMovements.ResolvedTypeSign | public/stock_movements.php:72-75 | every resolved type is "" or a manual value; an adjustment is recorded positive, and a breakage or internal use negative |
| ManualMovements.RecordedQuantity | public/stock_movements.php:72-75 | the quantity is negated exactly for a type starting with 'Sortie - ' |
| ManualMovements.ManualMovement | public/stock_movements.php:81-90 | the movement row inserted |
| ManualMovements.CommittedMovement | public/stock_movements.php:80-99 | the store after the insert and the stock update |
| ManualMovements.FormSubmissionNeverResolves | public/stock_movements.php:286-292 | the form posts no `movement_type_base`, so whatever type is picked the resolved type is "" |
| ManualMovements.ManualNote | public/stock_movements.php:40 | the note is stored as NULL exactly when the trimmed text is empty |
| ManualMovements.AddManualMovement | public/stock_movements.php:36-121 | an empty type, an unparsable id or quantity, or a quantity below 1 is refused; with no `movement_type_base` posted (the form's case) the answer is always the type error, with no change; a failed write or a missing product rolls back both writes; otherwise one movement with the signed quantity is appended and the same value added to the stock |
| ManualMovements.ManualStockMatchesLedger | public/stock_movements.php:80-99 | the product's stock changes by the recorded quantity, which is the sum of the movements appended for it; nothing else about it changes |
| ManualMovements.BreakageCanDriveStockNegative | public/stock_movements.php:72-99 | a breakage larger than the stock is recorded anyway and leaves a negative stock |
| PurchaseOrders.PoCart.constructor | public/purchase_orders.php:66-69 | an unset order cart is empty and well formed |
| PurchaseOrders.PoCart.Add | public/purchase_orders.php:49-103 | an unparsable id or quantity, a quantity below 1, or an unknown product is rejected with the cart unchanged; there is no stock test; a new line freezes the purchase price, and an existing line sums the quantities at its stored price |
| PurchaseOrders.PoCart.RemoveItem | public/purchase_orders.php:106-116 | removes exactly the product's line; an absent or unparsable id changes nothing and is reported |
| PurchaseOrders.PoCart.Clear | public/purchase_orders.php:123-124 | the order cart becomes empty |
| PurchaseOrders.OrderTotalIsQuantityTimesPrice | public/purchase_orders.php:75-92 | in a well-formed order cart the stored line totals add up to Σ quantity × frozen purchase price |
| PurchaseOrders.CartSummary | public/purchase_orders.php:213-221 | the displayed total is Σ line_total and the count is the number of lines |
| PurchaseOrders.OrderItemsSpec | public/purchase_orders.php:175-186 | the new item rows take exactly the next ids, one per cart line in order, and existing rows are kept |
| PurchaseOrders.OrderItemsStep | public/purchase_orders.php:175-186 | inserting one more line's item row extends the item table by exactly that row |
| PurchaseOrders.OrderItems | public/purchase_orders.php:175-186 | the item rows inserted, one per cart line, with ids from the next item id |
| PurchaseOrders.CommittedOrder | public/purchase_orders.php:159-189 | the store after a saved order: the Pending order row and its items |
| PurchaseOrders.CommittedOrderWellKeyed | public/purchase_orders.php:159-189 | a saved order adds exactly the new order id and keeps every key below its counter |
| PurchaseOrders.WriteOrderItems | public/purchase_orders.php:175-186 | the item-insert loop succeeds exactly when none of its writes throws, and then yields `OrderItems` |
| PurchaseOrders.SavePurchaseOrder | public/purchase_orders.php:131-209 | an unparsable supplier id, an empty cart, and an unknown supplier are refused with no writes; a failed write rolls back and keeps the cart; otherwise a Pending order with total Σ line_total and its items are written, and the cart is cleared |
| PurchaseOrders.SavedItemsMatchCart | public/compar.php:129-163 | every item of a saved order belongs to it, orders its cart line's quantity and has received nothing; the order is Pending with total Σ line_total |
| PurchaseOrders.ParseAction | public/compar.php:180-184 | exactly the three status action names are accepted |
| PurchaseOrders.Transition | public/compar.php:200-236 | mark_as_sent is allowed only from Pending; mark_as_received and mark_as_cancelled only from Pending or Sent; an allowed action moves to its target status, which differs from the current one |
| PurchaseOrders.Target | public/compar.php:200-236 | the status each action moves to |
| PurchaseOrders.TerminalStatesRefuseEveryAction | public/compar.php:200-236 | Received and Cancelled refuse every action |
| PurchaseOrders.AtMostTwoTransitions | public/compar.php:200-236 | whatever actions arrive, an order changes status at most twice, a Sent one at most once, and a closed one never |
| PurchaseOrders.UpdateStatus | public/compar.php:179-260 | an unparsable id or an unknown action does not enter the handler; an unknown order and a refused transition change nothing; otherwise only the order's status changes, and neither items nor stock are touched |
| Catalog.ParseForm | public/products.php:116-124 | the form parses exactly when the trimmed name is not empty and every number parses; the parsed product holds the trimmed name, barcode, reference and location and the parsed category, prices, stock and threshold |
| Catalog.CodeTaken | public/products.php:159-172 | the duplicate check: some product (other than the edited one) holds the non-empty barcode or the non-empty reference |
| Catalog.StoredRow | public/products.php:186-200 | an empty barcode, reference or location is stored as NULL, exactly in that case, and a non-empty one as given; name, category, prices, stock and threshold are stored as given |
| Catalog.AddProduct | public/products.php:114-211 | an invalid form, a barcode or reference already in use, an unknown category, and a failed insert are each refused with no change; otherwise the product is inserted under the next id |
| Catalog.UpdateProduct | public/products.php:285-405 | as for an add, but the duplicate check ignores the product itself; every column is overwritten, current_stock included |
| Catalog.UpdatedRow | public/products.php:380-400 | the UPDATE replaces only the given id's row and creates no row |
| Catalog.AddedCodesAreUnique | public/products.php:159-184 | a product added past the duplicate check has a barcode and a reference no other product holds |
| Catalog.UpdatedCodesAreUnique | public/products.php:351-378 | the same for an edit |
| Catalog.EditBypassesLedger | public/products.php:380-400 | an edit that changes current_stock writes no movement, so stock no longer matches the ledger |
| ProductImport.HeaderMapKeys | public/products.php:460-468 | a name is in the header map exactly when it is an expected column and some header cell cleans to it |
| ProductImport.HeaderMapLast | public/products.php:460-468 | a mapped name points at the last header cell that cleans to it |
| ProductImport.PaddedHeaderIsNotRecognised | public/products.php:463 | a header padded with a space is not recognised, because the space becomes an underscore before the trim |
| ProductImport.CleanHeader | public/products.php:463 | the header cell cleaned by `strtolower(trim(str_replace(...)))` |
| ProductImport.HeaderMap | public/products.php:460-468 | `$header_map`, built cell by cell, a later cell overriding an earlier one |
| ProductImport.BuildHeaderMap | public/products.php:460-468 | the foreach over the header cells builds `HeaderMap` |
| ProductImport.Missing | public/products.php:473-475 | the missing headers are exactly the required names absent from the map |
| ProductImport.CategoryNamesSpec | public/products.php:481-487 | every category's cleaned name is a key, and every key resolves to the id of a category with that name |
| ProductImport.CategoryNames | public/products.php:484-487 | `$categories_name_to_id`, a later category overriding an earlier one |
| ProductImport.CategoryKey | public/products.php:486 | a category's name lower-cased and trimmed |
| ProductImport.LoadCategories | public/products.php:481-487 | the loop over the categories builds both lookup tables |
| ProductImport.Cell | public/products.php:520-545 | `trim($row[$header_map[name]] ?? '')` before the trim: an unmapped column or a short row reads as "" |
| ProductImport.Blank | public/products.php:508 | a row is blank when every cell is empty in PHP's sense |
| ProductImport.Price | public/products.php:529-541 | a price cell trimmed, its comma replaced by a point, parsed as a float and required ≥ 0 |
| ProductImport.Count | public/products.php:531-543 | a count cell trimmed, its comma replaced by a point, parsed as an integer and required ≥ 0 |
| ProductImport.ResolveCategory | public/products.php:551-566 | an existing integer id is used as it is; otherwise an empty value resolves to nothing and a non-empty one to the id stored under its trimmed lower-cased name, or nothing when no name matches; any resolved category is a known id or a name's id |
| ProductImport.CheckRow | public/products.php:520-571 | an accepted row has a non-empty name, a known category, and non-negative prices, stock and threshold; a rejected row names at least one problem |
| ProductImport.CheckRowAccepts | public/products.php:520-571 | a row is accepted exactly when the trimmed name is not empty, the category resolves and both prices and both counts parse and are ≥ 0; the accepted product holds the trimmed name, barcode, reference and location cells, the resolved category and the parsed numbers |
| ProductImport.ProblemList | public/products.php:550-571 | `$row_errors`: one entry per failed check, in the order the checks run |
| ProductImport.ProblemListNamesEachCheck | public/products.php:550-571 | each failed check has its entry and no passed check has one, and the list is empty exactly when every check passes |
| ProductImport.RejectedRowProblems | public/products.php:550-571 | a rejected row reports a missing name, a missing or unknown category, a bad purchase price, a bad sale price, a bad stock and a bad threshold, each exactly when that check fails |
| ProductImport.LowestWith | public/products.php:577-586 | the lowest id whose field equals the value, with no match below it; None exactly when no id matches |
| ProductImport.ExistingProduct | public/products.php:574-587 | an empty barcode looks nothing up; a non-empty barcode is looked up first; the reference only when the barcode matched nothing |
| ProductImport.Overwritten | public/products.php:598-616 | an update keeps barcode and reference and overwrites name, category, both prices, stock and threshold with the row's values, and the location too, stored as NULL exactly when empty |
| ProductImport.SkipRow | public/products.php:509-511 | a skipped row raises the skipped count and adds one error under its row number |
| ProductImport.WriteRow | public/products.php:598-635 | an accepted row updates the product it matches, or inserts a new product under the next id |
| ProductImport.ApplyRow | public/products.php:506-636 | one row is skipped as blank, skipped with its problems, or written |
| ProductImport.ImportFold | public/products.php:503-637 | the row loop: the first data row is only counted, each later row is applied in turn |
| ProductImport.WriteRowKeeps | public/products.php:598-634 | a written row keeps every existing product with its barcode and reference, and every id below the next id |
| ProductImport.ImportCounts | public/products.php:503-640 | every row after the first is either imported or skipped, and each skipped row leaves one error |
| ProductImport.FirstDataRowIgnored | public/products.php:503-505 | the content of the first data row never changes the result |
| ProductImport.ImportedGrows | public/products.php:616-634 | the imported count never decreases along the batch |
| ProductImport.ImportKeepsCodes | public/products.php:598-634 | after any number of rows every existing product is kept with its barcode and reference, and ids stay below the next id |
| ProductImport.RowWithoutBarcodeInserts | public/products.php:574-587 | an accepted row without a barcode always inserts, even when its reference is already in use |
| ProductImport.ImportRows | public/products.php:495-640 | the row loop succeeds exactly when none of its writes throws, and then yields the fold over the rows |
| ProductImport.ImportProducts | public/products.php:439-679 | only role 1 may import; a missing required header refuses the import; a failed write rolls the whole batch back; otherwise the products table becomes the fold's, with its counts and errors reported |
| Reports.ParseReportType | public/reports.php:37-65 | exactly the four report keys name a report |
| Reports.Authorize | public/reports.php:64-89 | an empty type selects nothing; an unknown type is invalid; a role outside the report's list, or no role, is refused; otherwise the report is granted |
| Reports.RoleTable | public/reports.php:23-25 | stock reports are granted exactly to roles 1 and 3, the sales report to roles 1 and 2, and all four only to role 1 |
| Reports.NoRoleNoReport | public/reports.php:64-72 | without a role no report is granted |
| Reports.IntFilter | public/reports.php:76-79 | `filter_var(...) ?: null`: a value that does not parse, or parses to 0, is no filter |
| Reports.RawIntFilter | public/reports.php:445-452 | a raw id value is a filter exactly when `!empty` holds |
| Reports.DateFilter | public/reports.php:74-75 | a date filter is absent exactly when the value is empty |
| Reports.TextFilter | public/reports.php:78 | the movement-type filter is the raw text, absent exactly when it is empty |
| Reports.UnparsableIdFilterDiffers | public/reports.php:76-79 | an id that does not parse is dropped on export but kept, as the raw text, on display |
| Reports.ExportFilters | public/reports.php:74-79 | `$filters`: the ids through `filter_var ?: null`, dates and type as given |
| Reports.DisplayFilters | public/reports.php:442-452 | `$filters_applied`: every value as the raw request text |
| Reports.MovementWhereAppend | public/reports.php:170-173 | `implode(" AND ", ...)` of two lists holds exactly when both hold |
| Reports.SaleWhereAppend | public/reports.php:202-205 | the same for the sales WHERE |
| Reports.MovementClauses | public/reports.php:145-169 | one WHERE clause per movement filter present, in the page's order |
| Reports.SaleClauses | public/reports.php:186-201 | one WHERE clause per sales filter present |
| Reports.MovementFiltersAreConjunctive | public/reports.php:145-173 | the movements WHERE is the conjunction of the filters present, and an absent filter adds no condition |
| Reports.SaleFiltersAreConjunctive | public/reports.php:186-205 | the same for the sales report's three filters |
| Reports.StrLeTotal | public/reports.php:110 | the name order is total |
| Reports.PrependByName | public/reports.php:110 | a row no greater than the head of a sorted list keeps it sorted |
| Reports.InsertByNameSorted | public/reports.php:110 | inserting into a name-sorted list keeps it sorted |
| Reports.InsertByNameCount | public/reports.php:110 | inserting adds exactly that row |
| Reports.SortByNameSpec | public/reports.php:110 | `ORDER BY p.name ASC` returns the same rows, ordered by name |
| Reports.PrependByDate | public/reports.php:175 | a row no older than the head of a sorted list keeps it sorted |
| Reports.InsertByDateSorted | public/reports.php:175 | inserting into a date-descending list keeps it sorted |
| Reports.InsertByDateCount | public/reports.php:175 | inserting adds exactly that row |
| Reports.SortByDateSpec | public/reports.php:175 | `ORDER BY ... DESC` returns the same rows, newest first |
| Reports.ZeroThresholdNeverAlerts | public/reports.php:121-124 | a threshold of 0 or below never raises a low-stock alert |
| Reports.IsLowStock | public/reports.php:121-124 | `current_stock <= alert_threshold AND alert_threshold > 0` |
| Reports.CategoryName | public/reports.php:104-106 | the join finds a category name exactly when the product's category id exists |
| Reports.StockRowsCount | public/reports.php:102-137 | a row occurs once in the unordered stock query exactly when it is in the report, and otherwise not at all |
| Reports.StockReportSpec | public/reports.php:102-137 | a stock report lists every stored product that has a category and passes the filters exactly once, and nothing else, ordered by name |
| Reports.StockReport | public/reports.php:102-137 | the current-stock or low-stock query |
| Reports.LowStockIsPartOfCurrentStock | public/reports.php:120-137 | every low-stock row is a current-stock row under the same category filter |
| Reports.MovementRowsSpec | public/reports.php:139-173 | a row is in the movement query exactly when its movement is in the ledger, its product exists and it passes the WHERE |
| Reports.MovementRowsCount | public/reports.php:139-173 | a row occurs in the movement query as many times as its movement occurs in the ledger when its product exists, the name matches and it passes the WHERE, and otherwise not at all |
| Reports.MovementReportSpec | public/reports.php:139-180 | the movements report holds each ledger entry of an existing product that passes every filter present, as often as it was recorded, and nothing else, newest first |
| Reports.MovementReport | public/reports.php:139-180 | the movements query, newest first |
| Reports.SaleRowOfCount | public/reports.php:182-212 | one sale id contributes its row once when it passes the WHERE, and nothing otherwise |
| Reports.SaleRowsCount | public/reports.php:182-212 | a row occurs once in the unordered sales query exactly when it is in the report |
| Reports.SalesReportSpec | public/reports.php:182-212 | the sales report lists every stored sale that passes every filter present exactly once, newest first |
| Reports.SalesReport | public/reports.php:182-212 | the sales query, newest first |
| Reports.RunReport | public/reports.php:99-216 | the `switch ($report_type)` over the four queries |
| Reports.ReportsPage | public/reports.php:64-564 | the access decision is `Authorize`; rows are produced only for a granted report with a display or export action; export reads the `filter_var` filters and display reads the raw request values |

## Left out

- Sessions, login, logout and the role lookup: the actor id and the role are parameters.
- HTML, redirects and message strings: outcomes are datatype values.
- PDF and CSV export output, and the export of an empty report: Dompdf and file output.
- The formatting of generated movement notes: a note records the facts it is formatted from (`Store.Note`).
- The clock: the current time is a parameter, and `DATE()` is `timestamp / 86400`, with no timezone.
- `filter_var`'s number grammar, the database's reading of a date text, and its coercion of text to
  an integer: these are the parameters `Php.Filters` and `Reports.Parsers`.
- Float rounding and `number_format`: money is exact `real`.
- Failures of the SELECT statements: only the writes inside a transaction can fail (`Store.Fault`).
- The duplicate-key error code 23000 of the product form: it is reported as a storage error.
- The race between checkout's stock re-check and the decrement: the store is single-threaded.
- compar.php's cart and save handlers, which repeat purchase_orders.php's: they are modelled once, in `PurchaseOrders`.
- Foreign keys: only `stock_movements.product_id` is enforced, as a rollback when the product is missing.
- `LIMIT 1` without `ORDER BY` returns the lowest matching id.
- The order of rows with equal sort keys: the proofs say only that the order is by name or by date.
- String collation: names compare byte-wise; the import's category names are compared ASCII-lower-cased.
- Catalog.CodeTaken, ProductImport.LowestWith and ProductImport.RowWithoutBarcodeInserts: the unique keys
  on barcode and reference are not enforced by the model's tables, and codes compare byte-wise rather
  than under the column collation. On the product form the duplicate check runs before the write, so
  only the collation difference applies there.
  An import row with an empty barcode and a reference already in use is inserted by the model. The
  database would refuse that INSERT and roll the whole batch back (public/products.php:620-633, 651-656).
- The users LEFT JOIN of the reports: usernames are not modelled, only the user id.
- Category, supplier and user CRUD, and the dashboard: reference data is given to the store's constructor.
- Image upload and deletion, and the CSV file's upload checks and byte-level reading: the import
  takes the header cells and the rows as strings.
- Product deletion: it is not a stock-changing operation here.
- Reports.CategoryName: it takes the first category with the id, relying on ids being the table's key.
- Sales.SaleMovements and Sales.SaleItemsOf: their contracts give only the lengths. Their content is
  stated through `Sales.ApplySaleLinesItems`, `Sales.ApplySaleLinesMoves` and `Sales.SaleLedgerSum`.

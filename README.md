# MarketPro invoice and inventory reconciliation, in Dafny

MarketPro is a Django back end for small businesses. This project models its core:
- purchase invoices and sales invoices with their lines;
- the restock and deduction ledger kept against those lines;
- the stock table (`InventoryItem`), which receiving a purchase updates; completing a sale is
  modelled as the stock movements it requests, with the stock rows left unchanged.

The model covers:

- **Totals.** `adjust_totals` on both kinds of invoice computes the subtotal, an invoice-level or
  line-level discount, and a percentage or flat tax. An unrecognised type raises.
- **Flag state machines.** These are the line flags (`update_restock_flags`), the purchase invoice's
  `update_restock_flags` and `is_fulfilled`, and the sales invoice's `update_deduction_flags`.
- **The ledger.** `compute_restock_delta` is the ordered quantity minus what the ledger holds for
  the line. `logRestockEvent` appends to the ledger. Deleting a line cascades to its ledger rows.
- **The sale pass.** `updateInventoryOnSale` runs on a COMPLETED or PARTIALLY_COMPLETED sale that
  is not yet deducted. Each line whose product the business stocks and whose delta is positive is
  deducted: the delta is logged and the line's flags are recomputed. Then the invoice's flags are
  recomputed.
- **Receiving a purchase.** `RestockSerializer.save` tops up existing stock rows and creates the
  missing ones.
- **Saves with items.** The four with-items serializers create or update an invoice together with
  its lines. Purchase saves run in one transaction; the sales update does not.
- **Adding one purchase line** (`PurchaseInvoiceItemCreateSerializer`).
- **Validators and helpers.** These are the input validators and the helpers of `sales/utils.py`.
- **Smaller pieces:**
  - the post-save signal that adds a new sales line to its invoice's totals;
  - at most one confirmed supplier per purchase quotation;
  - `restock_needed` on stock rows;
  - the `activate` action that leaves an owner with one active business.

Database rows that the code updates in place are modelled as classes. Invoices, the stock table,
the quotation–supplier table and the business table are classes whose methods reassign their
fields. Each invoice holds its lines as a `seq` of `Line` records and its ledger as a `seq` of
`LedgerRow`. Pure computations are functions, and their properties are lemmas. Loops in the source
become methods with loop invariants, each proved equal to the function that specifies it.

Money is `real` and quantities are `int`. A well-formed JSON charge such as
`{"value": 10, "type": "percentage"}` is a `Charge`. An empty or NULL column is `Unset`, and any
type other than percentage or amount is `Unrecognized`. Malformed charges are listed under Left out. The ids the database assigns to new lines are an input (`freshIds`). The stock
table is keyed by (business, product), since each business has one inventory.

`PurchaseInvoice` has two fulfilment checks, `update_restock_flags` and `is_fulfilled`. They differ
on an invoice without lines; both are modelled, and
`PurchaseInvoices.RestockFlagsAgreeWithFulfilled` states where they agree.

Three places in the code evidently do not do what their authors meant (see Findings). The methods
of the model run the code as written there:
- `SalesInvoice.AdjustTotals` raises on a line discount that is not a percentage;
- `CreatePurchaseItem` looks the line up without the product;
- the with-items updates delete the lines they have just created.

For each finding, the corrected definition is stated beside the as-written one, with the intended
property proved about it and a lemma relating the two. Rows below that describe a corrected
definition say "corrected".

## Model

| member | source | states |
|---|---|---|
| Ledger.LedgerSum | sales/models.py:23-25 | the quantity already applied to a line is never negative, since each row's quantity is a PositiveIntegerField |
| Ledger.LedgerSumAppend | sales/models.py:506-507 | the aggregate over two ledgers joined is the sum of their aggregates |
| Ledger.LedgerSumAppendRow | sales/utils.py:24-39 | one more ledger row adds its quantity to its own line's total and nothing to any other line |
| Ledger.LedgerSumNoRows | sales/models.py:282-283 | a line with no ledger rows aggregates to 0 (the `or 0` default) |
| Ledger.RestockDelta | sales/models.py:278-284 | the delta never exceeds the ordered quantity, and it equals it when the ledger has no row for the line |
| Ledger.DeltaClosedByLogging | sales/utils.py:209-212 | after a positive delta is logged for the line, its delta is 0 |
| Ledger.Cascade | sales/models.py:543-547 | deleting lines deletes exactly their ledger rows: no row of a deleted line survives, every other line's total is unchanged, and nothing changes when no row is affected |
| InvoiceLines.Line.WithRestockFlags | sales/models.py:510-518 | exactly one flag is set; the full flag is set iff the quantity received covers the quantity ordered; no other field changes |
| InvoiceLines.Line.Clean | sales/models.py:472-476 | the check raises iff both restock flags are set |
| InvoiceLines.RestockFlagsPassClean | sales/models.py:522-528 | flags recomputed by `update_restock_flags` never violate the mutual-exclusion check constraint |
| InvoiceLines.NewLine | sales/serializers.py:189-195 | a line built from a request passes the check constraint and has nothing received |
| InvoiceLines.LineForProduct | sales/utils.py:203 | the product map has an entry for exactly the invoice's products, and each entry is a line of that product |
| InvoiceLines.LineForProductUnique | sales/models.py:299 | under the unique (invoice, product) constraint the product map returns each line itself |
| InvoiceLines.IndexOfId | sales/serializers.py:241-249 | the lookup finds a line with the requested id, or reports that no line has it |
| InvoiceLines.IndexOfProduct | sales/serializers.py:47-50 | corrected: the lookup by product that the code evidently intends finds a line of the requested product, or reports that no line has it |
| Totals.SubtotalAppend | sales/models.py:171 | one more line adds quantity × price to the subtotal |
| Totals.SubtotalOnlyPricing | sales/models.py:171 | the subtotal depends only on the lines' quantities and prices |
| Totals.SubtotalNonNegative | sales/models.py:400 | lines with non-negative quantities and prices give a non-negative subtotal |
| Totals.ChargeOn | sales/models.py:175-183 | a percentage charge is that percentage of the base; an amount is the flat value; any other type raises |
| Totals.TaxOn | sales/models.py:199-209 | no tax when the column is empty; raises iff the tax type is not recognised |
| Totals.SumDiscountsPrefixFails | sales/models.py:186-197 | once a line raises, the whole discount raises the same error |
| Totals.LineDiscountsNeverRaise | sales/models.py:186-197 | with recognised types, the corrected line discounts never raise, and each line adds its own discount |
| Totals.AmountLineDiscountRaisesAsWritten | sales/models.py:193 | as written, one flat-amount line discount makes the whole computation raise, where the corrected one yields its value |
| Totals.LineDiscountsIgnoreQuantity | sales/models.py:186-197 | a percentage line discount applies to the unit price, so the line discounts as written do not depend on quantities |
| Totals.InvoiceDiscountOverridesLines | sales/models.py:175-185 | with an invoice-level discount, line discounts have no effect on the totals |
| Totals.UnknownKindRaises | sales/models.py:182-209 | an unrecognised discount or tax type always raises on a sales invoice; on a purchase invoice only the tax matters |
| Totals.SalesTotalsMeaning | sales/models.py:211-212 | sub_total is Σ quantity × price, and total − sub_total is exactly tax − discount |
| Totals.FlatChargesFixMargin | sales/models.py:175-212 | with a flat invoice-level discount and no tax or a flat one, nothing raises and total − sub_total is the same for any lines |
| Totals.DoubledQuantitiesKeepLineDiscount | sales/models.py:171-197 | doubling every quantity doubles the subtotal and leaves the line discounts (or their error) as they were |
| Totals.PurchaseTotals | sales/models.py:397-416 | succeeds iff the tax type is recognised; sub_total is Σ quantity × unit_cost (0 for no lines); total is sub_total + tax |
| PurchaseInvoices.RestockFlags | sales/models.py:432-449 | no lines: flags unchanged; all restocked: restocked, not partial, RECEIVED; otherwise the partial flag is raised by any partial line and `is_restocked` is never cleared |
| PurchaseInvoices.FulfilledFlags | sales/models.py:418-427 | exactly one flag is set; restocked iff every line is restocked; RECEIVED exactly then |
| PurchaseInvoices.StaleRestockedFlag | sales/models.py:440-449 | a restocked invoice whose line turns partial ends with both invoice flags set |
| PurchaseInvoices.RestockFlagsAgreeWithFulfilled | sales/models.py:418-449 | on an invoice not yet restocked whose lines each carry one flag, the two flag methods agree; they differ on an invoice without lines |
| PurchaseInvoices.PurchaseInvoice.constructor | sales/serializers.py:183-187 | a new invoice has no lines, no ledger, NULL totals and neither flag |
| PurchaseInvoices.PurchaseInvoice.AdjustTotals | sales/models.py:397-416 | writes sub_total and total as `PurchaseTotals` gives them, or raises and writes nothing |
| PurchaseInvoices.PurchaseInvoice.IsFulfilled | sales/models.py:418-427 | the loop leaves the flags `FulfilledFlags` gives |
| PurchaseInvoices.PurchaseInvoice.UpdateRestockFlags | sales/models.py:432-449 | the counting loop leaves the flags `RestockFlags` gives |
| SalesInvoices.DeductionFlagsIdempotent | sales/models.py:144-161 | recomputing the deduction flags from unchanged lines changes nothing |
| SalesInvoices.DeductionFlagsFollowLines | sales/models.py:144-161 | with one flag per line: COMPLETED iff every line is deducted, PARTIALLY_COMPLETED iff some line is not, and exactly one invoice flag is set |
| SalesInvoices.SalesInvoice.constructor | sales/serializers.py:513-518 | a new invoice has no lines, no ledger, NULL totals and neither flag |
| SalesInvoices.SalesInvoice.UpdateDeductionFlags | sales/models.py:144-161 | the early-exit loop leaves the flags `DeductionFlags` gives: partial wins, then all-deducted, else unchanged |
| SalesInvoices.SalesInvoice.AdjustTotals | sales/models.py:166-213 | an invoice without lines is left alone; otherwise writes the totals `SalesTotals` gives, or raises and writes nothing; as written, any line discount that is not a percentage raises AttributeError |
| Quotations.SavedRows | sales/models.py:599-607 | the saved row is stored; a confirmed row leaves itself the only confirmed supplier of its quotation; other quotations' rows and all suppliers are untouched; no row becomes confirmed |
| Quotations.SavePreservesAtMostOneConfirmed | sales/models.py:599-607 | saving any row keeps at most one confirmed supplier per quotation |
| Quotations.QuotationSupplierTable.Save | sales/models.py:599-607 | the bulk unconfirm followed by the save leaves the table `SavedRows` gives, and keeps the invariant |
| Inventory.RestockNeeded | inventory/serializers.py:17-25 | none without a (non-zero) reorder level; otherwise true iff the stock on hand is at or below it; a NULL stock on hand raises |
| Inventory.RestockNeededReadsTwoFields | inventory/serializers.py:17-25 | the answer depends only on the reorder level and the stock on hand |
| Inventory.RestockNeededMonotone | inventory/serializers.py:22-25 | selling keeps a row needing restock, and restocking keeps a row not needing it |
| Businesses.Activated | root/views.py:82-85 | keys and owners are unchanged, and other owners' businesses are untouched |
| Businesses.ActivateLeavesOneActive | root/views.py:82-85 | afterwards the owner's only active business is `pk` when it is theirs, and none otherwise |
| Businesses.ActivateIdempotent | root/views.py:73-89 | activating twice equals activating once |
| Businesses.BusinessTable.Activate | root/views.py:76-89 | an owner without businesses changes nothing (404); otherwise the loop leaves the table `Activated` gives |
| Signals.UpdateTotalsForNewItem | sales/signals.py:7-17 | acts only on creation; raises on a NULL total; otherwise both totals grow by quantity × price, so their difference is kept |
| SalesUtils.RestockField | sales/utils.py:13-14 | the received quantity is chosen iff the restock is partial |
| SalesUtils.SplitNewAndOld | sales/utils.py:16-22 | stocked and new products partition the products; the stocked ones are those with a row of the business |
| SalesUtils.LogRestockEvent | sales/utils.py:24-39 | one row is appended, earlier rows are kept, and only the line's total grows, by the quantity |
| SalesUtils.InventoryRowFromRestock | sales/utils.py:41-58 | the chosen quantity becomes both the quantity and the stock on hand; cost, code and notes are copied |
| SalesUtils.CheckPurchaseInvoiceItemFields | sales/utils.py:163-169 | passes iff received ≤ ordered and the invoice is not RECEIVED; the quantity check comes first |
| SalesUtils.AcceptedLineFlags | sales/utils.py:163-166 | an accepted line is fully restocked iff everything ordered was received |
| SalesUtils.CheckPurchaseInvoiceCreateFields | sales/utils.py:171-176 | raises iff the status is RECEIVED or PARTIALLY_RECEIVED |
| SalesUtils.CheckSalesInvoiceItemCreateFields | sales/utils.py:178-188 | passes iff quantity > 0, unit price > 0 and one stock row holds enough; errors in that order |
| SalesUtils.StockCheckIgnoresBusiness | sales/utils.py:186-188 | another business's stock row is enough to pass the stock check |
| SalesUtils.DeductLines | sales/utils.py:207-213 | the pass keeps every line but its flags and only appends to the ledger |
| SalesUtils.DeductLinesMeaning | sales/utils.py:207-213 | a deducted line ends with its ledger total equal to its quantity and its flags recomputed; other lines and their totals are unchanged |
| SalesUtils.NothingToDeduct | sales/utils.py:207-213 | with nothing to deduct, the pass writes nothing |
| SalesUtils.SecondPassWritesNothing | sales/utils.py:207-213 | a second pass adds no ledger row, moves no stock and flips no flag |
| SalesUtils.SalePass | sales/utils.py:193-216 | an invoice already deducted or not (partially) completed is left as it is; line count is kept |
| SalesUtils.SalePassIdempotent | sales/utils.py:193-216 | running the sale pass twice equals running it once, and the second run moves no stock |
| SalesUtils.SalePassKeepsKeys | sales/utils.py:193-216 | the pass keeps line ids and the unique products |
| SalesUtils.DeductInvoiceLines | sales/utils.py:207-213 | the loop leaves the lines, ledger and movements `DeductLines` gives |
| SalesUtils.VisitItem | sales/utils.py:208-213 | one iteration of the loop does what `VisitLine` says |
| SalesUtils.UpdateInventoryOnSale | sales/utils.py:193-216 | the invoice ends in the state `SalePass` gives, the stock movements are those of `SaleMoves`, and the keys are kept |
| RestockSerializer.Bumped | sales/serializers.py:486-493 | the ordered quantity is added to the quantity and to the stock on hand; location, cost and notes are replaced; nothing else changes |
| RestockSerializer.Created | sales/serializers.py:474-484 | a new row holds the ordered quantity as both quantity and stock on hand |
| RestockSerializer.RestockedRowsPrefixFails | sales/serializers.py:486-493 | once a line raises, the whole restock raises |
| RestockSerializer.RestockedRowsKeys | sales/serializers.py:471-496 | a restock keeps every row and adds one per invoice product without a row |
| RestockSerializer.RestockedRowsUntouched | sales/serializers.py:466-469 | rows of other products and other businesses are untouched |
| RestockSerializer.RestockedRowsFails | sales/serializers.py:486-493 | raises iff an existing row of an invoice product has a NULL stock on hand |
| RestockSerializer.RestockedRowsMeaning | sales/serializers.py:471-493 | each invoice product's row is its old row bumped by the line, or a new row made from the line |
| RestockSerializer.RestockTwiceAddsTwice | sales/serializers.py:451-502 | restocking is not idempotent: a second restock adds every ordered quantity again |
| RestockSerializer.Restock | sales/serializers.py:451-502 | an invoice without lines returns False and changes nothing; otherwise the table becomes `RestockedRows`, or the call raises and changes nothing |
| ItemCreate.AddItemAsWritten | sales/serializers.py:41-63 | a request fails iff more was received than ordered, the invoice is RECEIVED, or the invoice already has two or more lines (MultipleObjectsReturned); an accepted request leaves exactly one line |
| ItemCreate.AddItemAsWrittenKeepsKeys | sales/serializers.py:45-63 | as written, an invoice without lines gains a line of the requested product with the new id; otherwise its one line keeps its id and product, gains the quantities and takes the cost; keys and the check constraint hold |
| ItemCreate.AddItemAsWrittenAgrees | sales/serializers.py:45-63 | the code as written does what the intended lookup does iff validation refuses the request, the invoice has no line, or its one line is of the requested product |
| ItemCreate.AddItem | sales/serializers.py:41-63 | corrected: a request fails iff more was received than ordered or the invoice is RECEIVED, with that error |
| ItemCreate.AddItemKeepsKeys | sales/serializers.py:45-63 | corrected: an accepted request keeps distinct ids, the unique products and the check constraint, and adds its product |
| ItemCreate.AddItemMeaning | sales/serializers.py:45-63 | corrected: the line of the product is topped up (quantities added, cost replaced) or created; every other line is unchanged |
| ItemCreate.AddItemWrongLineAsWritten | sales/serializers.py:47-50 | as written, a one-line invoice of another product is topped up and the requested product never arrives; two lines raise where the corrected lookup accepts |
| ItemCreate.CreatePurchaseItem | sales/serializers.py:41-63 | as written: returns the error, or the line written with the invoice's lines set to what `AddItemAsWritten` gives (that one line); a valid invoice stays valid |
| LineSync.Plan | sales/serializers.py:246-261 | the loop raises only KeyError; it keeps the line count and every field but product, quantity and price; it updates only existing ids |
| LineSync.PlanFails | sales/serializers.py:246-248 | the loop raises iff some request item has no "id" key |
| LineSync.PlanPrefixFails | sales/serializers.py:246-248 | once an item raises, the whole loop raises |
| LineSync.PlanSync | sales/serializers.py:246-261 | the loop computes `Plan` |
| LineSync.LastRequestFor | sales/serializers.py:579-587 | the last item naming a line is one of the request's items, and there is none iff no item names it |
| LineSync.PlanLinesMeaning | sales/serializers.py:579-594 | each line takes the values of the last item naming it, and it is counted updated iff some item names it |
| LineSync.PlanCreatedMeaning | sales/serializers.py:248-261 | the created items are exactly those with a null id or an id of no existing line |
| LineSync.SyncLines | sales/serializers.py:225-284 | corrected: a refused sync deletes nothing, and the only errors are KeyError and the duplicate product |
| LineSync.SyncLinesAsWritten | sales/serializers.py:225-284 | as written, the sync ends with the same outcome as the corrected one, and a refused sync is the same in both |
| LineSync.SyncAsWrittenDropsCreated | sales/serializers.py:262-277 | as written, a successful sync ends with the corrected sync's lines minus the new ones, and deletes what the corrected one deletes plus the new ones |
| LineSync.SyncAsWrittenKeepsKeys | sales/serializers.py:225-284 | as written, the sync keeps ids and products distinct and keeps the check constraint, whether it succeeds or stops half-way |
| LineSync.SyncDropsCreatedLinesAsWritten | sales/serializers.py:275-277 | as written, a successful sync keeps none of the lines it created: every surviving line is an old one |
| LineSync.SyncKeepsRequestedLines | sales/serializers.py:246-277 | the corrected sync keeps a new line for every item naming no line and every updated line, and deletes exactly the old lines no item named |
| LineSync.NewLineLostAsWritten | sales/serializers.py:609-611 | adding one line to an empty invoice leaves it empty as written, and with that line as corrected |
| LineSync.SyncKeepsKeys | sales/serializers.py:225-284 | the corrected sync keeps ids and products distinct |
| LineSync.CreatedIdsDistinct | sales/serializers.py:262-266 | new lines' ids are distinct from each other and from the old ones |
| LineSync.SyncKeepsClean | sales/serializers.py:189-195 | the corrected sync keeps the check constraint and the absence of line discounts |
| InvoiceSaves.ComputeSync | sales/serializers.py:229-277 | the lines end as `SyncLinesAsWritten` gives (the delete re-run after the inserts); the ledger loses exactly the deleted lines' rows; a refused sync keeps the ledger |
| InvoiceSaves.UpdatePurchaseInvoiceWithItems | sales/serializers.py:225-284 | inside the transaction a raise leaves the invoice as it was and returns None; otherwise header, lines (as `SyncLinesAsWritten` leaves them) and ledger are written, then the totals, whose raise makes it return None |
| InvoiceSaves.UpdateSalesInvoiceWithItems | sales/serializers.py:558-620 | the header is always saved; a refused sync keeps the lines inserted so far; otherwise the lines `SyncLinesAsWritten` leaves, the totals, then the sale pass |
| InvoiceSaves.FinishSalesUpdate | sales/serializers.py:613-619 | when `adjust_totals` raises, nothing after the header changes and the call answers None; otherwise the totals are stored and the lines, ledger and flags become the sale pass of the stored state |
| InvoiceSaves.CreatePurchaseInvoiceWithItems | sales/serializers.py:177-204 | a product requested twice stores nothing; otherwise the invoice and its lines are stored, then the totals, whose raise makes it return None |
| InvoiceSaves.CreateSalesInvoiceWithItems | sales/serializers.py:509-535 | as for purchases, then the sale pass on the new invoice when the totals did not raise |
| InvoiceSaves.CreatedLinesValid | sales/serializers.py:189-197 | new lines from a request have distinct ids, pass the check constraint and carry no discount |

## Left out

- HTTP handling, the view sets (sales/views.py), authentication and response bodies are not part of this model. A save that answers None is modelled by its `returned` flag.
- KPI queries and `in_period` filters are not modelled: they only read data.
- `update_inventory` (sales/utils.py:60-156) is not called anywhere, so it is not modelled.
- `createInventoryItemFromRestock` is never called. It passes a `last_transaction` keyword that `InventoryItem` does not have, and that call is not modelled. `SalesUtils.InventoryRowFromRestock` models the row it means to build.
- `apply_restock_delta` is not defined on `InventoryItem`. As the code stands, the first line that has a stock row of the business and a positive delta raises AttributeError (sales/utils.py:211), before `logRestockEvent`. A with-items sales save whose pass reaches such a line answers None and writes nothing of the pass; the update keeps its header, lines and totals, and the create keeps the stored invoice and lines. A pass that is skipped (sales/utils.py:194, 196) or has nothing to deduct does not raise. The model treats the call as an abstract step that the code as written never gets past: the sale pass records each call as a `StockMovement` and goes on, and its effect on the stock row is not modelled.
- `SalesInvoice.is_fulfilled` writes attributes a sales invoice does not have and is never saved, so it is not modelled.
- `quantity_field` in `updateInventoryOnSale` is chosen but never read, so it is not modelled.
- Transactions, concurrency and locking are not modelled.
- A purchase save is modelled as all-or-nothing. The sales update is modelled as the statements it runs in order.
- The unique (invoice, product) constraint is modelled as checked on the final set of lines of each bulk statement. Row-by-row checking inside one statement is not modelled.
- Floating-point rounding is not modelled: money is `real`.
- A `tax` or `discount` column (a JSONField no serializer validates) that is truthy but malformed is not modelled. This covers a charge without "type", a charge without "value", a non-numeric "value", and a value that is not a JSON object. `adjust_totals` raises KeyError or TypeError on these. `Charge` holds only an empty column or a numeric value with a type, so the iff contracts of `Totals.ChargeOn`, `Totals.TaxOn` and `Totals.PurchaseTotals` speak of well-formed charges only.
- A request item missing a key other than "id" would raise KeyError. Only the missing "id" is modelled (`MissingKey`).
- The order of ledger rows and of query results is not modelled: lines are visited in invoice order.
- `morph`, `generateTransactionId` and the default location are not modelled. `last_transaction` is a parameter, and the location of a restock is an input.
- The `quantity_received` default of `True` (read as 1) in `PurchaseInvoiceItemCreateSerializer` is not modelled. The request always carries a number.
- A missing `quantity` or `quantity_received` in the validators (a comparison with None) is not modelled.
- `ItemCreate.AddItemAsWritten`: the lookup's business filter is taken to be the invoice's own business, so it is not modelled separately.
- `SalesInvoices.SalesInvoice.AdjustTotals`: a sales line's `unit_price` may be NULL, and `adjust_totals` then raises TypeError. The model's price is always a number, so this error is not modelled.
- `InvoiceSaves.CreateSalesInvoiceWithItems`: a request item whose `unit_price` is null is stored unchecked; the totals then raise and the sale pass never runs. This is not modelled, since a price is always a number here.
- `InvoiceSaves.UpdateSalesInvoiceWithItems`: a request item whose `unit_price` is null is stored unchecked; the totals then raise and the sale pass never runs. This is not modelled, since a price is always a number here.
- `InvoiceLines.IndexOfProduct`: serves only the corrected item lookup. The code's lookup is `ItemCreate.AddItemAsWritten`.
- `ItemCreate.AddItem`: states the corrected lookup by product, not the code. The code is `ItemCreate.AddItemAsWritten`, related to it by `ItemCreate.AddItemAsWrittenAgrees`.
- `ItemCreate.AddItemKeepsKeys`: "adds its product" holds for the corrected lookup only. As written, the product is added only to an invoice without lines (`ItemCreate.AddItemAsWrittenKeepsKeys`).
- `ItemCreate.AddItemMeaning`: states the corrected lookup, not the code.
- `LineSync.SyncLines`: states the corrected delete, not the code. The code is `LineSync.SyncLinesAsWritten`, related to it by `LineSync.SyncAsWrittenDropsCreated`.
- `LineSync.SyncKeepsKeys`: states the corrected sync. The code is covered by `LineSync.SyncAsWrittenKeepsKeys`.
- `LineSync.SyncKeepsClean`: states the corrected sync. The code is covered by `LineSync.SyncAsWrittenKeepsKeys`.
- `Totals.LineDiscountsNeverRaise`: states the corrected line discount, not the code. The code is `Totals.LineDiscountsAsWritten`, which `Totals.SalesTotals` uses.
- `Businesses.BusinessTable.Activate`: a `pk` that is not numeric raises in the source. The model takes `pk` as an integer.
- Invoice header fields other than status, tax and discount (notes, supplier, customer, dates, payment status) are not modelled: no computation reads them.
- `bulk_create` does not send `post_save`, so the signal never fires for lines created by the with-items saves. The model follows this.

## Findings

| source | as written | input that shows it | evidently intended | confidence | as-written member | corrected member |
|---|---|---|---|---|---|---|
| sales/models.py:193 | a line discount that is not a percentage tests `item.tax["type"]`; sales lines have no `tax`, so AttributeError | one line with discount `{"value": 5, "type": "amount"}` on an invoice without an invoice-level discount | test `item.discount["type"]` and subtract the flat amount | high, not executed | Totals.AmountLineDiscountRaisesAsWritten | Totals.LineDiscountsNeverRaise |
| sales/serializers.py:47-50 | the existing line is looked up by invoice and business only, not by product | an invoice with one line of product 1 and a request for product 2: product 1's line is topped up, product 2 never appears | look the line up by invoice and product | high, not executed | ItemCreate.AddItemWrongLineAsWritten | ItemCreate.AddItemMeaning |
| sales/serializers.py:275-277 and 609-611 | the delete re-runs "lines of this invoice minus the updated ids" after the new lines are inserted, so it deletes them too | an invoice without lines and one request item with a null id: it stays without lines | delete only the old lines that no request item updated | high, not executed | LineSync.NewLineLostAsWritten | LineSync.SyncKeepsRequestedLines |

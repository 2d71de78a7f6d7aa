# Inventory ledger and document lifecycles of a Laravel manufacturing ERP

This project models the core of an ERP for a small manufacturer: the stock ledger and the documents that move it.

**The stock ledger.** It has two balance tables and two movement logs:
- Product stock and raw-material stock, each keyed by (item, warehouse).
- A product movement log and a raw-material movement log.

The `Ledger` class holds all four. Its batch operations each loop over the lines of a document and are all-or-nothing, like the `DB::transaction` blocks they model:
- increment, creating a missing row at 0;
- checked decrement, which fails on a missing row or a short balance;
- unchecked decrement, which fails only on a missing row;
- transfer.

Each batch operation is specified by a pure function over the lines. The central invariant is `Ledger.Reconciled`: every balance equals the signed sum of its log rows, with the sign conventions of the stock summary. Every document that changes balances is proved to keep this invariant. For the raw-material adjustment this holds only for the corrected movement row: the row as written breaks it (see Findings).

**The documents.** Every document is a class whose methods change its status, items and flags in place, and take the `Ledger` when they move stock:
- stock requests and stock-outs;
- product stock adjustments;
- transfers;
- opening stock;
- manual movements and the stock summary;
- raw-material stock-ins, stock-outs and adjustments;
- purchase requests and their items;
- purchase orders, a table class because the source queries across orders;
- goods receipts, purchase returns and invoice receipts;
- bills of materials and their costing;
- production orders: release, start and complete;
- yearly opening balances of the chart of accounts, also a table class.

**Responses.** An HTTP error response becomes `Refused(code)` or `Err(code)`, with the status code the controller returns. Documents with soft deletes carry a `deleted` flag; a lookup with `findOrFail` does not see a soft-deleted row, so every modelled action on such a document answers 404, or 500 where the lookup sits inside a `try` that turns every exception into a 500. Validation rules become `requires` clauses. Foreign-key existence checks (`exists:`) are assumed to hold, except for the purchase-order id of goods receipts, purchase returns and invoice receipts: an unknown id is refused with 422, because the `exists:` rule also counts soft-deleted rows.

**Database behaviour that is modelled:**
- The purchase-request status and type columns are ENUMs. `store` writes the type as given, so a type naming no member fails (500). `submit` writes the literal `SUBMITTED`, and the column stores it as its member `submitted` (`PurchaseRequests.EnumValue`). `approve` and `reject` therefore see `submitted`.
- The opening-balance table is unique on (year, account). A draft that lists an account twice therefore aborts `store` with a 500.
- An opening-balance line's `budget` is not among the validated fields, so it is always stored as 0.

## Model

| member | source | states |
|---|---|---|
| Ledger.Ledger.IncrementAll | app/Http/Controllers/Api/StockInitialController.php:59-82 | every line's row grows by the line quantity, created at 0 if missing (`Incremented`); one movement per line is appended to the log of its kind |
| Ledger.Ledger.DecrementChecked | app/Http/Controllers/Api/StockOutController.php:59-86 | succeeds iff `CheckedDecremented` (every row exists and covers the running total) succeeds; on failure no balance and no log changes |
| Ledger.Ledger.DecrementExisting | app/Http/Controllers/Api/ProductionExecutionController.php:42-76 | succeeds iff every row exists (`Decremented`), with no sufficiency check; on failure nothing changes |
| Ledger.Ledger.TransferAll | app/Http/Controllers/Api/StockTransferController.php:102-155 | succeeds iff every source row exists and covers its total; each line moves from its source row to the same item at the destination; on failure nothing changes |
| Ledger.Ledger.Record | app/Http/Controllers/Api/StockMovementController.php:76-92 | appends one row to one log and changes no balance |
| Ledger.Ledger.SetBalance | app/Http/Controllers/Api/RawMaterialStockAdjustmentController.php:53-64 | sets one row to a value and logs one row in that row's log |
| Ledger.CheckedFailurePersists | app/Http/Controllers/Api/StockOutController.php:65-67 | once a prefix of the lines fails the checked decrement, the whole batch fails: the transaction aborts on the first bad line |
| Ledger.UncheckedFailurePersists | app/Http/Controllers/Api/ProductionExecutionController.php:46-49 | once a prefix of the lines names a missing row, the whole batch fails |
| Ledger.TransferFailurePersists | app/Http/Controllers/Api/StockTransferController.php:102-111 | once a prefix of the lines fails the transfer check, the whole transfer fails |
| LedgerProps.IncrementedAt | app/Http/Controllers/Api/StockInitialController.php:59-70 | after an increment, each row's balance is the old balance (0 if missing) plus the lines' total for it; a row exists afterwards iff it existed or a line names it |
| LedgerProps.QtyForNonNegative | app/Http/Controllers/Api/StockInitialController.php:53 | with non-negative line quantities, every row's total is non-negative |
| LedgerProps.CheckedDecrementedAt | app/Http/Controllers/Api/StockOutController.php:65-74 | a successful checked decrement keeps the set of rows, lowers each row by its total, and leaves every touched row non-negative |
| LedgerProps.CheckedDecrementSucceedsIff | app/Http/Controllers/Api/StockOutController.php:65-67 | with non-negative lines, a checked decrement succeeds iff every named row exists and holds at least the lines' total for it |
| LedgerProps.DecrementedAt | app/Http/Controllers/Api/ProductionExecutionController.php:46-52 | an unchecked decrement keeps the set of rows and lowers each by its total |
| LedgerProps.DecrementSucceedsIff | app/Http/Controllers/Api/ProductionExecutionController.php:46-49 | an unchecked decrement succeeds iff every named row exists, whatever the balances |
| LedgerProps.TransferredAt | app/Http/Controllers/Api/StockTransferController.php:113-123 | a successful transfer lowers each item's source row by its total and raises its destination row by the same total; rows at other warehouses are untouched |
| LedgerProps.TransferConservesPair | app/Http/Controllers/Api/StockTransferController.php:113-151 | a transfer keeps each item's source-plus-destination sum |
| LedgerProps.ReconciledStep | app/Http/Controllers/Api/StockMovementController.php:110-148 | changing one row by delta while logging a row whose signed quantity is delta keeps balances equal to the signed log sums |
| LedgerProps.IncrementReconciles | app/Http/Controllers/Api/StockInitialController.php:70-82 | increments logged with inbound types keep the ledger reconciled |
| LedgerProps.CheckedDecrementReconciles | app/Http/Controllers/Api/StockOutController.php:74-85 | checked decrements logged with outbound types keep the ledger reconciled |
| LedgerProps.DecrementReconciles | app/Http/Controllers/Api/ProductionExecutionController.php:52-75 | unchecked decrements logged as `OUT` keep the ledger reconciled, even below zero |
| LedgerProps.TransferReconciles | app/Http/Controllers/Api/StockTransferController.php:113-151 | transfers logged as out/in pairs keep the ledger reconciled |
| LedgerProps.EntriesOnePerLine | app/Http/Controllers/Api/StockInitialController.php:73-82 | a batch of one kind writes exactly one row per line, in order, carrying the line quantity |
| LedgerProps.EntriesOtherKindEmpty | app/Http/Controllers/Api/RawMaterialStockInController.php:99-107 | a batch of one kind writes nothing into the other log |
| StockMovements.ToLower | app/Http/Controllers/Api/StockMovementController.php:80 | the same length, no capital left, every capital moved to its small letter and nothing else changed |
| StockMovements.ToUpper | app/Http/Controllers/Api/StockMovementController.php:89 | the same length, no small letter left, every small letter moved to its capital and nothing else changed |
| StockMovements.ManualMovement | app/Http/Controllers/Api/StockMovementController.php:76-92 | a product row gets the lower-cased type and a raw-material row the upper-cased type, with the given item, warehouse and quantity |
| StockMovements.Store | app/Http/Controllers/Api/StockMovementController.php:58-102 | appends exactly that row to the log of its category and leaves every balance unchanged |
| StockMovements.StockSummary | app/Http/Controllers/Api/StockMovementController.php:110-155 | one entry per product, then one per raw material, each holding the item's signed log total |
| StockMovements.SummaryIsSignedTotal | app/Http/Controllers/Api/StockMovementController.php:115-145 | the type-by-type formulas `(in + adjustment) - out` and `(IN + TRANSFER_IN + ADJUSTMENT) - (OUT + TRANSFER_OUT)` equal the signed total of the item's rows |
| StockMovements.StoreMovesSummary | app/Http/Controllers/Api/StockMovementController.php:76-92 | a manual movement moves its own item's current stock by its signed quantity and no other item's |
| StockMovements.UnknownTypeIgnored | app/Http/Controllers/Api/StockMovementController.php:64 | a row with a type the summary does not know leaves every current stock unchanged |
| StockMovements.TransferKeepsSummary | app/Http/Controllers/Api/StockTransferController.php:116-151 | the rows a transfer writes leave every item's current stock unchanged |
| StockRequests.StockRequest.Store | app/Http/Controllers/Api/StockRequestController.php:29-73 | a new draft holding exactly the submitted lines |
| StockRequests.StockRequest.Update | app/Http/Controllers/Api/StockRequestController.php:89-141 | 404 for a soft-deleted request; only a draft changes (else 422); date, notes and the whole item set are replaced |
| StockRequests.StockRequest.Destroy | app/Http/Controllers/Api/StockRequestController.php:146-161 | 404 for a request already soft-deleted; refused for an approved request (422); otherwise soft-deleted |
| StockRequests.StockRequest.Approve | app/Http/Controllers/Api/StockRequestApprovalController.php:12-31 | 404 for a soft-deleted request; only from draft (else 422); status approved with approver and time |
| StockRequests.StockRequest.Reject | app/Http/Controllers/Api/StockRequestApprovalController.php:33-52 | 404 for a soft-deleted request; only from draft (else 422); status rejected, recorded in the approver fields |
| StockOuts.Store | app/Http/Controllers/Api/StockOutController.php:25-110 | 404 for a soft-deleted request; 422 unless it is approved and not completed; a short or missing row gives a 500 with nothing changed; otherwise every line is decremented with one `out` row, the request becomes completed and the stock-out record is created, yet the response is a 500 because it loads the undefined relation `stockRequest` |
| StockOuts.DestroyAsWritten | app/Http/Controllers/Api/StockOutController.php:112-161 | as written, the lookup eager-loads the undefined relation `stockRequest`, so destroy always answers 500 with no balance, log row or request changed |
| StockOuts.Destroy | app/Http/Controllers/Api/StockOutController.php:112-161 | the destroy evidently intended, with the request loaded through the defined `request` relation: every item is added back where its row exists; the stock-out's rows for its products are deleted; a live request returns to approved with completion cleared |
| StockOuts.StoreSucceedsIff | app/Http/Controllers/Api/StockOutController.php:59-67 | a stock-out succeeds iff every product's row exists and holds the request's total for it |
| StockOuts.StoreThenDestroyRestores | app/Http/Controllers/Api/StockOutController.php:59-143 | a successful stock-out followed by the intended destroy gives back the original balances and the original log |
| StockOuts.StoreReconciles | app/Http/Controllers/Api/StockOutController.php:59-86 | a stock-out keeps the ledger reconciled |
| StockOuts.RestockedAt | app/Http/Controllers/Api/StockOutController.php:119-128 | the intended destroy raises each existing row by the items' total for it and creates no row |
| StockAdjustments.Saved | app/Models/StockAdjustmentItem.php:41-47 | saving an item sets its difference to actual minus system, whatever difference was supplied; the difference is 0 iff the two quantities agree |
| StockAdjustments.HooksNeverFireAsWritten | app/Models/StockAdjustment.php:58-73 | as written, both hooks compare with "approved", a status no adjustment has, so they never refuse |
| StockAdjustments.HooksDisagreeOnPosted | app/Models/StockAdjustment.php:58-73 | the written hooks let a posted adjustment be deleted and moved out of posted while the intended ones refuse both; on a draft the two agree |
| StockAdjustments.CountedItems | app/Http/Controllers/Api/StockAdjustmentController.php:45-60 | one item per counted line, with the current balance (0 without a row) as system quantity and actual minus system as difference |
| StockAdjustments.CountedItemsAsWritten | app/Http/Controllers/Api/StockAdjustmentController.php:47-60 | as written, every counted item records system quantity 0 and a difference equal to the whole counted quantity |
| StockAdjustments.AdjustLinesShape | app/Http/Controllers/Api/StockAdjustmentController.php:86-112 | post skips zero differences: one product line per non-zero item at the adjustment's warehouse, and each product's row moves by the sum of its differences |
| StockAdjustments.AdjustLinesElsewhere | app/Http/Controllers/Api/StockAdjustmentController.php:104-112 | post never touches a row at another warehouse or of a raw material |
| StockAdjustments.CountThenPostSetsBalance | app/Http/Controllers/Api/StockAdjustmentController.php:45-112 | with the corrected system quantity, counting then posting sets every counted product's balance to the counted quantity and leaves other rows alone |
| StockAdjustments.CountAsWrittenDoublesBalance | app/Http/Controllers/Api/StockAdjustmentController.php:47-60 | as written, counting a product exactly at its non-zero balance b records a difference of b, and posting doubles the balance to 2b; the intended count records 0 and posting changes nothing |
| StockAdjustments.Adjustment.Store | app/Http/Controllers/Api/StockAdjustmentController.php:21-67 | a new draft with the counted items |
| StockAdjustments.Adjustment.Post | app/Http/Controllers/Api/StockAdjustmentController.php:72-121 | 404 for a soft-deleted adjustment; refused once posted (422); otherwise each non-zero difference is credited, with rows created at 0, and logged; the adjustment becomes posted, a status change the intended updating hook accepts |
| StockAdjustments.Adjustment.Update | app/Http/Controllers/Api/StockAdjustmentController.php:147-172 | 404 for a soft-deleted adjustment; otherwise the header changes iff the intended updating hook would accept a status change (the adjustment is not posted), else 422 with nothing changed |
| StockAdjustments.Adjustment.Destroy | app/Http/Controllers/Api/StockAdjustmentController.php:174-191 | 404 for an adjustment already soft-deleted; otherwise soft-deleted iff the intended deleting hook allows it (not posted), else 422 with nothing changed |
| StockAdjustments.PostReconciles | app/Http/Controllers/Api/StockAdjustmentController.php:93-112 | posting keeps the ledger reconciled |
| StockTransfers.CheckItems | app/Http/Controllers/Api/StockTransferController.php:31-45 | accepts iff every line names exactly one of product and raw material; otherwise returns the first offending line |
| StockTransfers.Store | app/Http/Controllers/Api/StockTransferController.php:18-70 | refused (422) iff a line names neither or both kinds of item; otherwise a new draft with one tagged item per line |
| StockTransfers.StockTransfer.Approve | app/Http/Controllers/Api/StockTransferController.php:72-88 | only from draft |
| StockTransfers.StockTransfer.Reject | app/Http/Controllers/Api/StockTransferController.php:195-202 | only from draft |
| StockTransfers.StockTransfer.Execute | app/Http/Controllers/Api/StockTransferController.php:90-164 | only when approved; a missing or short source row gives a 422 with nothing changed; otherwise the stock moves, out/in row pairs are logged and the transfer is executed |
| StockTransfers.ExecuteSucceedsIff | app/Http/Controllers/Api/StockTransferController.php:109-111 | execute succeeds iff every source row exists and covers the transfer's total for it |
| StockTransfers.TransferredFromRows | app/Http/Controllers/Api/StockTransferController.php:113 | a successful execute keeps the source rows and lowers each by its total |
| StockTransfers.ExecuteConserves | app/Http/Controllers/Api/StockTransferController.php:113-151 | execute keeps each item's two-warehouse sum, every current stock in the summary, and the ledger reconciled |
| StockInitial.Store | app/Http/Controllers/Api/StockInitialController.php:47-89 | credits every item to its product row (created at 0) and appends one `in` row per item; the raw log is untouched |
| StockInitial.StoreEffects | app/Http/Controllers/Api/StockInitialController.php:56-83 | each row grows by its items' total and never decreases; other warehouses and raw materials are untouched; exactly one `in` row per item |
| StockInitial.DuplicateCountedTwice | app/Http/Controllers/Api/StockInitialController.php:58-70 | a product listed twice is credited twice |
| StockInitial.StoreReconciles | app/Http/Controllers/Api/StockInitialController.php:70-82 | opening stock keeps the ledger reconciled |
| RawStockIns.StockIn.Store | app/Http/Controllers/Api/RawMaterialStockInController.php:41-70 | a new draft with the submitted lines |
| RawStockIns.StockIn.Post | app/Http/Controllers/Api/RawMaterialStockInController.php:75-116 | 404 for a soft-deleted stock-in; refused once posted (422); otherwise every line is credited (rows created at 0) with one `IN` row, and the stock-in is posted |
| RawStockIns.StockIn.Update | app/Http/Controllers/Api/RawMaterialStockInController.php:121-156 | 404 for a soft-deleted stock-in; refused once posted; otherwise the header is replaced, and the items too when lines are sent |
| RawStockIns.StockIn.Destroy | app/Http/Controllers/Api/RawMaterialStockInController.php:161-176 | 404 for a stock-in already soft-deleted; refused once posted; otherwise deleted |
| RawStockIns.PostEffects | app/Http/Controllers/Api/RawMaterialStockInController.php:89-107 | each row grows by its lines' total; one `IN` row per item; the ledger stays reconciled |
| RawStockOuts.StockOut.Store | app/Http/Controllers/Api/RawMaterialStockOutController.php:18-58 | a new draft with the submitted lines |
| RawStockOuts.StockOut.Post | app/Http/Controllers/Api/RawMaterialStockOutController.php:63-110 | a soft-deleted stock-out is not found inside the try, so 500; only from draft (else 400); a missing or short row gives a 500 with nothing changed; otherwise balances drop, one `OUT` row per item is logged, and the stock-out is posted |
| RawStockOuts.StockOut.Update | app/Http/Controllers/Api/RawMaterialStockOutController.php:133-155 | 404 for a soft-deleted stock-out; only a draft changes (else 400) |
| RawStockOuts.StockOut.Destroy | app/Http/Controllers/Api/RawMaterialStockOutController.php:160-170 | 404 for a stock-out already soft-deleted; refused once posted (400) |
| RawStockOuts.PostEffects | app/Http/Controllers/Api/RawMaterialStockOutController.php:81-97 | posting succeeds iff every row covers its total; each row then drops by it and stays non-negative; one `OUT` row per item; the ledger stays reconciled |
| RawStockAdjustments.Store | app/Http/Controllers/Api/RawMaterialStockAdjustmentController.php:22-68 | a missing row gives a 404 with nothing changed; otherwise before + difference = after, the row is set to exactly `after`, and one `ADJUSTMENT` row is logged |
| RawStockAdjustments.MovementAsWritten | app/Http/Controllers/Api/RawMaterialStockAdjustmentController.php:56-64 | as written, the logged quantity is the size of the difference, with its sign dropped |
| RawStockAdjustments.AdjustMovement | app/Http/Controllers/Api/RawMaterialStockAdjustmentController.php:38-64 | the corrected row's signed quantity is the difference |
| RawStockAdjustments.StoreReconciles | app/Http/Controllers/Api/RawMaterialStockAdjustmentController.php:38-64 | with the signed row, an adjustment keeps the ledger reconciled and moves the summary by exactly after − before |
| RawStockAdjustments.AsWrittenLoweringAddsToLog | app/Http/Controllers/Api/RawMaterialStockAdjustmentController.php:56-64 | as written, lowering 10 to 4 logs +6, so the log and the summary say 16 and the ledger is no longer reconciled |
| PurchaseRequests.EnumValue | database/migrations/2026_01_27_050300_purchase_requests.php:18-21 | the type and status ENUM columns store the member a value names ignoring case, in the member's spelling, and nothing for a non-member |
| PurchaseRequests.SubmitThenDecidable | app/Http/Controllers/Api/PurchaseRequestController.php:127-165 | the status submit stores is "submitted": exactly what approve and reject accept, and no longer a draft |
| PurchaseRequests.PurchaseRequest.Store | app/Http/Controllers/Api/PurchaseRequestController.php:39-65 | 500 iff the type names no member of the type column ignoring case; otherwise a new draft without items, holding the member and the given header |
| PurchaseRequests.PurchaseRequest.Update | app/Http/Controllers/Api/PurchaseRequestController.php:71-91 | 404 for a soft-deleted request; only a draft changes (else 422) |
| PurchaseRequests.PurchaseRequest.Destroy | app/Http/Controllers/Api/PurchaseRequestController.php:97-104 | 404 for a request already soft-deleted; otherwise soft-deleted in any status |
| PurchaseRequests.PurchaseRequest.Submit | app/Http/Controllers/Api/PurchaseRequestController.php:123-137 | 404 for a soft-deleted request; only from draft (else 422); afterwards the request can be decided |
| PurchaseRequests.PurchaseRequest.Approve | app/Http/Controllers/Api/PurchaseRequestController.php:138-157 | 404 for a soft-deleted request; only from submitted (else 422); approved with approver and time |
| PurchaseRequests.PurchaseRequest.Reject | app/Http/Controllers/Api/PurchaseRequestController.php:158-178 | 404 for a soft-deleted request; only from submitted (else 422); rejected with approver and time |
| PurchaseRequests.PurchaseRequest.AddItem | app/Http/Controllers/Api/PurchaseRequestItemController.php:15-59 | 422 when the line names neither or both of raw material and product; then 404 for a soft-deleted request; 422 unless draft; otherwise the line is appended |
| PurchaseRequests.PurchaseRequest.UpdateItem | app/Http/Controllers/Api/PurchaseRequestItemController.php:65-86 | 404 for an unknown item; 500 when its request is soft-deleted (the item finds no request); 422 unless draft; otherwise only that item changes |
| PurchaseRequests.PurchaseRequest.RemoveItem | app/Http/Controllers/Api/PurchaseRequestItemController.php:92-106 | 404 for an unknown item; 500 when its request is soft-deleted (the item finds no request); 422 unless draft; otherwise only that item is removed |
| PurchaseOrders.ItemsFrom | app/Http/Controllers/Api/PurchaseOrderController.php:80-88 | one unpriced order line per request line, copying material, product, unit and quantity |
| PurchaseOrders.Priced | app/Http/Controllers/Api/PurchaseOrderController.php:136-139 | a priced line's subtotal is quantity × price, and nothing else changes |
| PurchaseOrders.PurchaseOrderTable.GenerateFromPR | app/Http/Controllers/Api/PurchaseOrderController.php:53-97 | 404 for a deleted request, 422 unless approved or when a live order already exists for it; otherwise a new draft order with the request's lines; at most one live order per request |
| PurchaseOrders.PurchaseOrderTable.Update | app/Http/Controllers/Api/PurchaseOrderController.php:102-123 | only a draft order's header changes (else 422) |
| PurchaseOrders.PurchaseOrderTable.UpdateItemPrice | app/Http/Controllers/Api/PurchaseOrderController.php:128-144 | sets one line's price and subtotal in any status |
| PurchaseOrders.PurchaseOrderTable.Submit | app/Http/Controllers/Api/PurchaseOrderController.php:149-164 | draft → sent only |
| PurchaseOrders.PurchaseOrderTable.Approve | app/Http/Controllers/Api/PurchaseOrderController.php:166-181 | sent → received only |
| PurchaseOrders.PurchaseOrderTable.MarkReceived | app/Http/Controllers/Api/GoodsReceiptController.php:250-251 | posting a receipt sets its order to received, whatever its status, and changes no other order |
| PurchaseOrders.PurchaseOrderTable.Destroy | app/Http/Controllers/Api/PurchaseOrderController.php:185-192 | soft-deletes; afterwards no live order remains for that request |
| PurchaseOrders.OnePerRequestAdd | app/Http/Controllers/Api/PurchaseOrderController.php:64-78 | adding an order for a request without a live order keeps at most one live order per request |
| PurchaseOrders.OnePerRequestReplace | app/Http/Controllers/Api/PurchaseOrderController.php:136-192 | changing an order without reviving it or moving it to another request keeps at most one live order per request |
| GoodsReceipts.ReceiptItem | app/Http/Controllers/Api/GoodsReceiptController.php:115-128 | received + remaining = ordered, and the actual quantity is the received one |
| GoodsReceipts.ItemKey | app/Http/Controllers/Api/GoodsReceiptController.php:193-239 | a line with a raw material goes to that material's row, else one with a product to the product's row, else nowhere |
| GoodsReceipts.ReceiptLinesOnePerItem | app/Http/Controllers/Api/GoodsReceiptController.php:189-239 | one ledger line per item, carrying the actual quantity |
| GoodsReceipts.UntaggedItemIgnored | app/Http/Controllers/Api/GoodsReceiptController.php:193-239 | an item with neither id moves no stock |
| GoodsReceipts.GoodsReceipt.Update | app/Http/Controllers/Api/GoodsReceiptController.php:149-172 | 404 for a soft-deleted receipt; only a draft changes (else 422) |
| GoodsReceipts.GoodsReceipt.Post | app/Http/Controllers/Api/GoodsReceiptController.php:177-264 | 404 for a soft-deleted receipt; only a draft (else 422); every line is credited (rows created at 0) and logged; the receipt is posted and its order marked received |
| GoodsReceipts.GoodsReceipt.Destroy | app/Http/Controllers/Api/GoodsReceiptController.php:269-284 | 404 for a receipt already soft-deleted; refused once posted |
| GoodsReceipts.Store | app/Http/Controllers/Api/GoodsReceiptController.php:72-144 | 422 for an unknown order id, 404 for a soft-deleted order, 422 unless it was sent; otherwise a draft with one item per received line |
| GoodsReceipts.PostEffects | app/Http/Controllers/Api/GoodsReceiptController.php:189-239 | every row grows by its lines' total and never decreases; the ledger stays reconciled |
| GoodsReceipts.ReceiptLinesNonNegative | app/Http/Controllers/Api/GoodsReceiptController.php:115-125 | receipt lines carry non-negative quantities |
| PurchaseReturns.ReturnLinesOnePerItem | app/Http/Controllers/Api/PurchaseReturnController.php:282-331 | one ledger line per returned item, carrying the returned quantity |
| PurchaseReturns.PurchaseReturn.Update | app/Http/Controllers/Api/PurchaseReturnController.php:158-182 | 404 for a soft-deleted return; only a draft changes (else 422) |
| PurchaseReturns.PurchaseReturn.Submit | app/Http/Controllers/Api/PurchaseReturnController.php:187-213 | 404 for a soft-deleted return; draft with at least one item → pending |
| PurchaseReturns.PurchaseReturn.Approve | app/Http/Controllers/Api/PurchaseReturnController.php:218-237 | 404 for a soft-deleted return; pending → approved only |
| PurchaseReturns.PurchaseReturn.Reject | app/Http/Controllers/Api/PurchaseReturnController.php:242-261 | 404 for a soft-deleted return; pending → rejected only |
| PurchaseReturns.PurchaseReturn.Realize | app/Http/Controllers/Api/PurchaseReturnController.php:266-352 | 404 for a soft-deleted return; only when approved; a missing or short row gives a 500 with nothing changed; otherwise balances drop, one outbound row per line is logged, and the return is realized |
| PurchaseReturns.PurchaseReturn.Complete | app/Http/Controllers/Api/PurchaseReturnController.php:357-376 | 404 for a soft-deleted return; realized → completed only |
| PurchaseReturns.PurchaseReturn.Destroy | app/Http/Controllers/Api/PurchaseReturnController.php:381-396 | 404 for a return already soft-deleted; refused once realized or completed |
| PurchaseReturns.Store | app/Http/Controllers/Api/PurchaseReturnController.php:76-153 | 422 for an unknown order id, 404 for a soft-deleted order, 422 unless it is received or closed, 500 for a line with neither id; otherwise a draft |
| PurchaseReturns.RealizeEffects | app/Http/Controllers/Api/PurchaseReturnController.php:289-331 | realize succeeds iff every row covers its total; the rows drop by it and stay non-negative; the ledger stays reconciled |
| InvoiceReceipts.TotalAmountConcat | app/Http/Controllers/Api/InvoiceReceiptController.php:371 | the total of two lists is the sum of their totals |
| InvoiceReceipts.TotalAmountNonNegative | app/Http/Controllers/Api/InvoiceReceiptController.php:162 | with amounts of at least 0, the total is non-negative |
| InvoiceReceipts.TotalAmountRemove | app/Http/Controllers/Api/InvoiceReceiptController.php:191-207 | removing an invoice lowers the total by its amount |
| InvoiceReceipts.TotalAmountReplace | app/Http/Controllers/Api/InvoiceReceiptController.php:212-238 | replacing an invoice changes the total by the difference of the amounts |
| InvoiceReceipts.InvoiceReceipt.Update | app/Http/Controllers/Api/InvoiceReceiptController.php:122-143 | 404 for a soft-deleted receipt; only a draft changes (else 422) |
| InvoiceReceipts.InvoiceReceipt.AddInvoice | app/Http/Controllers/Api/InvoiceReceiptController.php:148-186 | 404 for a soft-deleted receipt; only for a draft; the invoice is appended and the total grows by its amount |
| InvoiceReceipts.InvoiceReceipt.RemoveInvoice | app/Http/Controllers/Api/InvoiceReceiptController.php:191-207 | 404 for a soft-deleted receipt; 422 unless draft, 404 for an unknown invoice; otherwise only that invoice goes |
| InvoiceReceipts.InvoiceReceipt.UpdateInvoice | app/Http/Controllers/Api/InvoiceReceiptController.php:212-238 | 404 for a soft-deleted receipt; 422 unless draft, 404 for an unknown invoice; otherwise only that invoice changes |
| InvoiceReceipts.InvoiceReceipt.Submit | app/Http/Controllers/Api/InvoiceReceiptController.php:243-269 | 404 for a soft-deleted receipt; draft with at least one invoice → submitted |
| InvoiceReceipts.InvoiceReceipt.Decide | app/Http/Controllers/Api/InvoiceReceiptController.php:274-317 | 404 for a soft-deleted receipt; submitted → approved or rejected only |
| InvoiceReceipts.InvoiceReceipt.Destroy | app/Http/Controllers/Api/InvoiceReceiptController.php:322-337 | 404 for a receipt already soft-deleted; refused once approved |
| InvoiceReceipts.InvoiceReceipt.GetSummary | app/Http/Controllers/Api/InvoiceReceiptController.php:367-380 | the count is the number of invoices and the total is the sum of their amounts |
| InvoiceReceipts.Store | app/Http/Controllers/Api/InvoiceReceiptController.php:71-117 | 422 for an unknown order id, 404 for a soft-deleted order, 422 for a draft order; then 500 iff the order has no supplier (the required supplier column); otherwise a draft taking the order's supplier |
| BillOfMaterials.Store | app/Http/Controllers/Api/BillOfMaterialController.php:58-111 | 500 iff some line is sent without a unit (its fallback, the material's `unit_id`, does not exist, so the required item column gets null and the whole store is rolled back); otherwise an active BOM in the product's unit with exactly one item per line, carrying its material, quantity and unit |
| BillOfMaterials.Update | app/Http/Controllers/Api/BillOfMaterialController.php:116-131 | 404 iff the BOM is soft-deleted; otherwise sets the batch size, and notes and active flag when sent; product, unit and items are kept |
| BillOfMaterials.UpdateItem | app/Http/Controllers/Api/BillOfMaterialController.php:136-150 | 404 iff the BOM is soft-deleted or the item is not on it; otherwise only that item's quantity changes |
| BillOfMaterials.Destroy | app/Http/Controllers/Api/BillOfMaterialController.php:155-163 | 404 iff the BOM is already soft-deleted; otherwise a soft delete that keeps everything else |
| BillOfMaterials.CalculateCost | app/Http/Controllers/Api/BillOfMaterialController.php:180-207 | 404 iff the BOM is soft-deleted; otherwise one detail per item, with total = quantity × price (0 without a price); per batch = the BOM's material cost; per unit × batch size = per batch |
| BillOfMaterials.UpdateItemMovesCost | app/Http/Controllers/Api/BillOfMaterialController.php:136-150 | changing one item's quantity moves the batch cost by the change times that material's price |
| BillOfMaterials.ScaledCostIsScaled | app/Http/Controllers/Api/BillOfMaterialController.php:187-189 | costing every line scaled by m is m times the batch cost |
| BillOfMaterials.MaterialCostNonNegative | app/Http/Controllers/Api/BillOfMaterialController.php:187-189 | with non-negative quantities and prices the cost is non-negative |
| ProductionOrders.Multiplier | app/Http/Controllers/Api/ProductionOrderController.php:146 | multiplier × batch size = planned quantity |
| ProductionOrders.Available | app/Http/Controllers/Api/ProductionOrderController.php:152-156 | the warehouse's balance of the material, or 0 with no row |
| ProductionOrders.ShortfallOf | app/Http/Controllers/Api/ProductionOrderController.php:158-165 | shortage = required − available, with required = line quantity × multiplier |
| ProductionOrders.FindShortfalls | app/Http/Controllers/Api/ProductionOrderController.php:149-166 | collects exactly the BOM lines whose available quantity is below the required one, in BOM order |
| ProductionOrders.NoShortfallIff | app/Http/Controllers/Api/ProductionOrderController.php:156-168 | no shortfall is reported iff every line's available quantity covers its required quantity |
| ProductionOrders.ShortfallsAreGaps | app/Http/Controllers/Api/ProductionOrderController.php:158-165 | every reported entry is a BOM material with a positive shortage = required − available |
| ProductionOrders.ProductionOrder.Update | app/Http/Controllers/Api/ProductionOrderController.php:109-130 | 404 for a soft-deleted order; only a draft changes (else 422) |
| ProductionOrders.ProductionOrder.Release | app/Http/Controllers/Api/ProductionOrderController.php:135-184 | 404 for a soft-deleted order; only from draft (422); 500 when its BOM is soft-deleted; with any shortfall the order stays a draft (422) and the list is returned; otherwise released; balances are only read |
| ProductionOrders.ProductionOrder.Destroy | app/Http/Controllers/Api/ProductionOrderController.php:189-204 | 404 for an order already soft-deleted; refused while in progress or completed |
| ProductionOrders.Store | app/Http/Controllers/Api/ProductionOrderController.php:60-104 | 404 iff the BOM is soft-deleted; then refused (422) iff the BOM belongs to another product; otherwise a new draft |
| ProductionExecution.StartLines | app/Http/Controllers/Api/ProductionExecutionController.php:42-52 | one raw-material line per BOM item at the order's warehouse, for quantity × plan / batch size |
| ProductionExecution.Usage | app/Http/Controllers/Api/ProductionExecutionController.php:55-63 | a usage row holds the required quantity, the last price (0 if unset) and their product |
| ProductionExecution.ComputeUsages | app/Http/Controllers/Api/ProductionExecutionController.php:42-63 | one usage row per BOM line, and a total equal to the scaled material cost |
| ProductionExecution.Start | app/Http/Controllers/Api/ProductionExecutionController.php:21-98 | 404 for a soft-deleted order; only from released (422); 500 with nothing changed when its BOM is soft-deleted or a row is missing; otherwise rows drop with no sufficiency check, `OUT` rows and usages are written, the material cost is recorded, and the order is in progress |
| ProductionExecution.StartEffects | app/Http/Controllers/Api/ProductionExecutionController.php:39-84 | start succeeds iff every material has a row; rows drop by their totals; one `OUT` row per line; the ledger stays reconciled; the cost is plan / batch size × the BOM's batch cost |
| ProductionExecution.StartCanOverdraw | app/Http/Controllers/Api/ProductionExecutionController.php:46-52 | for any BOM with non-negative quantities whose materials all have rows, a line release reports short still lets start succeed, and that line's row ends negative |
| ProductionExecution.OrZero | app/Http/Controllers/Api/ProductionExecutionController.php:126-127 | a missing labor or overhead cost counts as 0 |
| ProductionExecution.Hpp | app/Http/Controllers/Api/ProductionExecutionController.php:130 | HPP × actual quantity = total production cost |
| ProductionExecution.Complete | app/Http/Controllers/Api/ProductionExecutionController.php:103-180 | 404 for a soft-deleted order; only from in progress (422); total = material + labor + overhead, HPP × actual = total; the product row is credited with the actual quantity and one `in` row is logged; the order is completed |
| ProductionExecution.CompleteEffects | app/Http/Controllers/Api/ProductionExecutionController.php:147-167 | only the product's row at the order's warehouse grows, by the actual quantity (from 0 when new); exactly one `in` row; the ledger stays reconciled |
| ProductionExecution.Efficiency | app/Http/Controllers/Api/ProductionExecutionController.php:208 | efficiency × plan = actual × 100; it is 100 iff actual = plan, and below 100 iff actual < plan |
| ProductionExecution.GetReport | app/Http/Controllers/Api/ProductionExecutionController.php:185-233 | 404 iff the order is soft-deleted; otherwise refused (422) iff it is not completed; otherwise the stored plan, actual and waste quantities, costs, HPP and usages, with efficiency × plan = actual × 100 |
| InitialBalances.NewRows | app/Http/Controllers/Api/InitialBalanceController.php:84-94 | one draft row per line for the year, with budget 0 and no approver |
| InitialBalances.ApprovedYear | app/Http/Controllers/Api/InitialBalanceController.php:137-143 | the year's draft rows become approved with approver and time; every other row is kept |
| InitialBalances.Show | app/Http/Controllers/Api/InitialBalanceController.php:37-50 | the year's rows with their debit and credit totals |
| InitialBalances.StoreKeepsOneStatus | app/Http/Controllers/Api/InitialBalanceController.php:66-94 | when the year has no approved row, replacing its drafts keeps every year wholly draft or wholly approved |
| InitialBalances.ApproveKeepsOneStatus | app/Http/Controllers/Api/InitialBalanceController.php:137-143 | approving a year keeps every year wholly draft or wholly approved |
| InitialBalances.DestroyKeepsOneStatus | app/Http/Controllers/Api/InitialBalanceController.php:155-157 | deleting a year's drafts keeps every year wholly draft or wholly approved |
| InitialBalances.DraftYearRowsAreDrafts | app/Http/Controllers/Api/InitialBalanceController.php:66-81 | a year without an approved row consists of drafts only, so store's deletion clears it entirely |
| InitialBalances.InitialBalanceTable.Store | app/Http/Controllers/Api/InitialBalanceController.php:55-107 | 422 when the year has an approved row; 500 when a line repeats an account; otherwise the year's drafts are replaced by the new rows; every year stays wholly draft or wholly approved |
| InitialBalances.InitialBalanceTable.Approve | app/Http/Controllers/Api/InitialBalanceController.php:112-148 | 422 with no draft rows or when their debit and credit sums differ; otherwise all of them become approved |
| InitialBalances.InitialBalanceTable.Destroy | app/Http/Controllers/Api/InitialBalanceController.php:153-168 | deletes exactly the year's draft rows; 422 when there were none |
| InitialBalances.InWithoutDrafts | app/Http/Controllers/Api/InitialBalanceController.php:79-81 | the deletion keeps exactly the rows that are not drafts of the year, and removes as many rows as there were drafts |
| InitialBalances.StoreReplacesYear | app/Http/Controllers/Api/InitialBalanceController.php:79-94 | after store the year holds exactly the new draft rows, and every other year is unchanged |
| InitialBalances.ShowReportsYearStatus | app/Http/Controllers/Api/InitialBalanceController.php:37-50 | the status show takes from the first row is approved iff the year has an approved row |
| InitialBalances.ApproveKeepsTotals | app/Http/Controllers/Api/InitialBalanceController.php:137-143 | approving leaves the year's debit and credit totals unchanged |
| InitialBalances.ApprovedYearBalances | app/Http/Controllers/Api/InitialBalanceController.php:125-143 | after a successful approve the year is wholly approved, and show reports approved with equal debit and credit totals |
| InitialBalances.ApprovedYearIsFrozen | app/Http/Controllers/Api/InitialBalanceController.php:66-74 | after approve the year has an approved row and no drafts, so store is refused and destroy deletes nothing |

## Left out

- Listing, `show` and `restore` endpoints, the report controllers, and master-data CRUD. They only read, or pass data through without domain rules. The exception is opening-balance `show`, which is modelled.
- Concurrency. `lockForUpdate` and the isolation of concurrent transactions are not modelled; each action runs alone. The documents and the ledger are separate objects, so two actions on the same rows cannot interleave in the model.
- Numeric precision. Quantities and money are exact reals, so the database's decimal rounding is not modelled. Neither is the rounding to whole numbers of the product adjustment's `system_qty`, `actual_qty` and `difference`: these are `integer` columns, while the counted quantity is validated only as a number, so a fractional count is stored and posted rounded.
- Timestamps, document numbers (`now()->format(...)`) and the acting user become parameters or are dropped.
- Foreign-key existence checks (`exists:` rules and `findOrFail` on master data) are assumed to hold. The 404 for a missing document is modelled where a lookup decides the branch: a soft-deleted purchase order in receipts, returns and invoice receipts (an unknown order id fails their `exists:` rule first, 422); PR items; BOM items; raw-material adjustments.
- Raw-material stock adjustment `update` and `destroy` only edit or soft-delete the adjustment record and never touch a balance or the log, so they are left out.
- StockAdjustments.Adjustment.Post: the product log row gets the type `adjustment`. The controller passes the key `movement_type`, which is neither fillable nor the product log's column, so the stored type depends on the column default.
- Bills of materials are values: the BOM given to costing, release and start is the current snapshot of the order's BOM.
- PurchaseOrders.PurchaseOrderTable.GenerateFromPR: the order's status set and its request link follow the controller. The purchase-order migration declares a different status ENUM and no request column.
- StockOuts.Destroy: models the destroy evidently intended (see Findings); as written, destroy always answers 500 and changes nothing (`StockOuts.DestroyAsWritten`). Stock-outs have no soft delete: the record is deleted outright, and since stock-out records are values returned by `Store`, their deletion is not tracked.
- StockAdjustments.Adjustment.Store: records the corrected system quantity, the balance row's `quantity` (`CountedItems`). As written every system quantity is 0 (`StockAdjustments.CountedItemsAsWritten`, see Findings).
- RawStockAdjustments.Store: logs the corrected signed difference (`AdjustMovement`). As written the row logs `abs(difference)` (`RawStockAdjustments.MovementAsWritten`, `RawStockAdjustments.AsWrittenLoweringAddsToLog`, see Findings). The 404 and the balance change are as written.
- InvoiceReceipts.InvoiceReceipt.GetSummary: the 404 for a soft-deleted receipt is not modelled; the summary is computed for any receipt.

## Findings

| source | as written | input that shows it | evidently intended | confidence | as-written member | corrected member |
|---|---|---|---|---|---|---|
| app/Http/Controllers/Api/StockAdjustmentController.php:51 | the system quantity reads `$stock?->qty`, a column the stock row does not have, so it is always 0 and the difference is the whole counted quantity | a product with balance 10 counted as 10: difference 10, and post raises the balance to 20 | system quantity = the row's `quantity`, so posting sets the balance to the counted quantity | high, not executed | StockAdjustments.CountAsWrittenDoublesBalance | StockAdjustments.CountThenPostSetsBalance |
| app/Models/StockAdjustment.php:61-72 | the updating and deleting hooks guard the status `approved`, which the draft/posted ENUM never holds | deleting a posted adjustment through the model: neither hook fires | the hooks guard `posted` | high, not executed | StockAdjustments.HooksNeverFireAsWritten | StockAdjustments.Adjustment.Destroy |
| app/Http/Controllers/Api/RawMaterialStockAdjustmentController.php:56-64 | the `ADJUSTMENT` row logs `abs(difference)`, while the stock summary always adds `ADJUSTMENT` rows | a row of 10 (logged as IN 10) adjusted to 4: the row holds 4, but the log and the summary say 16 | log the signed difference, so that the log keeps agreeing with the balance | high, not executed | RawStockAdjustments.AsWrittenLoweringAddsToLog | RawStockAdjustments.StoreReconciles |
| app/Http/Controllers/Api/StockOutController.php:99-117 | `store`'s response and `destroy`'s lookup eager-load `stockRequest`, a relation the stock-out model does not define (it defines `request`); Laravel throws, so `store` commits and then answers 500, and `destroy` answers 500 without touching anything | destroying any stock-out: 500 with every balance still lowered, so an issued stock-out can never be undone | load the defined `request` relation, so that destroy restocks the items, deletes the rows and reopens the request | high, not executed | StockOuts.DestroyAsWritten | StockOuts.Destroy |

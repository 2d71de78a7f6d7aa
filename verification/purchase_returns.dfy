/**
 * Purchase returns: goods sent back against a received purchase order. A draft
 * is submitted, approved or rejected by the supplier, realized (the stock leaves
 * the warehouse) and completed.
 */
module PurchaseReturns {
  import opened Common
  import opened Ledger
  import LedgerProps
  import PurchaseOrders
  import GoodsReceipts

  datatype ReturnStatus = Draft | Pending | Approved | Rejected | Realized | Completed

  datatype ReturnItem = ReturnItem(rawMaterial: Option<nat>, product: Option<nat>, unit: nat, quantity: real, reason: string, notes: string)

  /** The ledger lines of a return: the raw material when set, else the product, carrying quantity_return. */
  function ReturnLines(items: seq<ReturnItem>, warehouse: nat): seq<Line>
    decreases |items|
  {
    if items == [] then []
    else
      var it := items[|items| - 1];
      var k := GoodsReceipts.ItemKey(it.rawMaterial, it.product, warehouse);
      ReturnLines(items[..|items| - 1], warehouse) + (if k.Some? then [Line(k.value, it.quantity)] else [])
  }

  function ReturnSpec(id: nat): LogSpec
  {
    LogSpec("out", "OUT", Doc("purchase_return", id), Doc("App\\Models\\PurchaseReturn", id))
  }

  /** Every item of a stored return names a material or a product, so each has its ledger line, in order. */
  lemma {:induction false} ReturnLinesOnePerItem(items: seq<ReturnItem>, warehouse: nat)
    requires forall i | 0 <= i < |items| :: items[i].rawMaterial.Some? || items[i].product.Some?
    ensures |ReturnLines(items, warehouse)| == |items|
    ensures forall i | 0 <= i < |items| ::
              ReturnLines(items, warehouse)[i] == Line(GoodsReceipts.ItemKey(items[i].rawMaterial, items[i].product, warehouse).value, items[i].quantity)
    decreases |items|
  {
    if items != [] {
      var pre := items[..|items| - 1];
      forall i | 0 <= i < |pre| ensures pre[i].rawMaterial.Some? || pre[i].product.Some? {
        assert pre[i] == items[i];
      }
      ReturnLinesOnePerItem(pre, warehouse);
    }
  }

  class PurchaseReturn {
    const id: nat
    const purchaseOrder: nat
    var warehouse: nat
    var returnDate: string
    var reason: string
    var notes: string
    var status: ReturnStatus
    var items: seq<ReturnItem>
    var deleted: bool

    constructor (id: nat, purchaseOrder: nat, warehouse: nat, returnDate: string, reason: string, notes: string, items: seq<ReturnItem>)
      ensures this.id == id && this.purchaseOrder == purchaseOrder && this.warehouse == warehouse
      ensures this.returnDate == returnDate && this.reason == reason && this.notes == notes
      ensures status == Draft && this.items == items && !deleted
    {
      this.id := id;
      this.purchaseOrder := purchaseOrder;
      this.warehouse := warehouse;
      this.returnDate := returnDate;
      this.reason := reason;
      this.notes := notes;
      status := Draft;
      this.items := items;
      deleted := false;
    }

    /** update: a soft-deleted return is not found; only a draft; the header fields are replaced. */
    method Update(returnDate: string, warehouse: nat, reason: string, notes: string) returns (r: Outcome)
      modifies this
      ensures old(deleted) ==> r == Refused(NOT_FOUND) && unchanged(this)
      ensures !old(deleted) && old(status) != Draft ==> r == Refused(UNPROCESSABLE) && unchanged(this)
      ensures !old(deleted) && old(status) == Draft ==>
                r == Done && this.returnDate == returnDate && this.warehouse == warehouse && this.reason == reason && this.notes == notes
      ensures status == old(status) && items == old(items) && deleted == old(deleted)
    {
      if deleted {
        return Refused(NOT_FOUND);
      }
      if status != Draft {
        return Refused(UNPROCESSABLE);
      }
      this.returnDate := returnDate;
      this.warehouse := warehouse;
      this.reason := reason;
      this.notes := notes;
      return Done;
    }

    /** Move a live return from one status to the next; a soft-deleted return is not found (404), any other status is refused (422), with nothing changed. */
    method Advance(from: ReturnStatus, to: ReturnStatus) returns (r: Outcome)
      modifies this
      ensures old(deleted) ==> r == Refused(NOT_FOUND) && unchanged(this)
      ensures !old(deleted) && old(status) != from ==> r == Refused(UNPROCESSABLE) && unchanged(this)
      ensures !old(deleted) && old(status) == from ==> r == Done && status == to
      ensures items == old(items) && warehouse == old(warehouse) && deleted == old(deleted)
      ensures returnDate == old(returnDate) && reason == old(reason) && notes == old(notes)
    {
      if deleted {
        return Refused(NOT_FOUND);
      }
      if status != from {
        return Refused(UNPROCESSABLE);
      }
      status := to;
      return Done;
    }

    /** submit: a soft-deleted return is not found; draft to pending, and only with at least one item. */
    method Submit() returns (r: Outcome)
      modifies this
      ensures old(deleted) ==> r == Refused(NOT_FOUND) && unchanged(this)
      ensures !old(deleted) && (old(status) != Draft || |old(items)| == 0) ==> r == Refused(UNPROCESSABLE) && unchanged(this)
      ensures !old(deleted) && old(status) == Draft && |old(items)| > 0 ==> r == Done && status == Pending
      ensures items == old(items) && warehouse == old(warehouse) && deleted == old(deleted)
      ensures returnDate == old(returnDate) && reason == old(reason) && notes == old(notes)
    {
      if deleted {
        return Refused(NOT_FOUND);
      }
      if status != Draft {
        return Refused(UNPROCESSABLE);
      }
      if |items| == 0 {
        return Refused(UNPROCESSABLE);
      }
      status := Pending;
      return Done;
    }

    /** approve: a soft-deleted return is not found; pending to approved only. */
    method Approve() returns (r: Outcome)
      modifies this
      ensures old(deleted) ==> r == Refused(NOT_FOUND) && unchanged(this)
      ensures !old(deleted) && old(status) != Pending ==> r == Refused(UNPROCESSABLE) && unchanged(this)
      ensures !old(deleted) && old(status) == Pending ==> r == Done && status == Approved
      ensures items == old(items) && warehouse == old(warehouse) && deleted == old(deleted)
      ensures returnDate == old(returnDate) && reason == old(reason) && notes == old(notes)
    {
      r := Advance(Pending, Approved);
    }

    /** reject: a soft-deleted return is not found; pending to rejected only. */
    method Reject() returns (r: Outcome)
      modifies this
      ensures old(deleted) ==> r == Refused(NOT_FOUND) && unchanged(this)
      ensures !old(deleted) && old(status) != Pending ==> r == Refused(UNPROCESSABLE) && unchanged(this)
      ensures !old(deleted) && old(status) == Pending ==> r == Done && status == Rejected
      ensures items == old(items) && warehouse == old(warehouse) && deleted == old(deleted)
      ensures returnDate == old(returnDate) && reason == old(reason) && notes == old(notes)
    {
      r := Advance(Pending, Rejected);
    }

    /**
     * realize: a soft-deleted return is not found; only from approved (422). In one transaction every line leaves its
     * row, which must exist and hold the quantity, and one outbound row is logged;
     * any failing line aborts everything (500). On success the return is realized.
     */
    method Realize(ledger: Ledger) returns (r: Outcome)
      modifies this, ledger
      ensures old(deleted) ==> r == Refused(NOT_FOUND) && unchanged(this) && ledger.Untouched()
      ensures !old(deleted) && old(status) != Approved ==> r == Refused(UNPROCESSABLE) && unchanged(this) && ledger.Untouched()
      ensures !old(deleted) && old(status) == Approved && CheckedDecremented(old(ledger.stock), ReturnLines(items, warehouse)).None? ==>
                r == Refused(SERVER_ERROR) && unchanged(this) && ledger.Untouched()
      ensures !old(deleted) && old(status) == Approved && CheckedDecremented(old(ledger.stock), ReturnLines(items, warehouse)).Some? ==>
                && r == Done
                && ledger.stock == CheckedDecremented(old(ledger.stock), ReturnLines(items, warehouse)).value
                && ledger.productLog == old(ledger.productLog) + Entries(ReturnLines(items, warehouse), ReturnSpec(id), true)
                && ledger.rawLog == old(ledger.rawLog) + Entries(ReturnLines(items, warehouse), ReturnSpec(id), false)
                && status == Realized
      ensures items == old(items) && warehouse == old(warehouse) && deleted == old(deleted)
      ensures returnDate == old(returnDate) && reason == old(reason) && notes == old(notes)
    {
      if deleted {
        return Refused(NOT_FOUND);
      }
      if status != Approved {
        return Refused(UNPROCESSABLE);
      }
      var ok := ledger.DecrementChecked(ReturnLines(items, warehouse), ReturnSpec(id));
      if !ok {
        return Refused(SERVER_ERROR);
      }
      status := Realized;
      return Done;
    }

    /** complete: a soft-deleted return is not found; realized to completed only. */
    method Complete() returns (r: Outcome)
      modifies this
      ensures old(deleted) ==> r == Refused(NOT_FOUND) && unchanged(this)
      ensures !old(deleted) && old(status) != Realized ==> r == Refused(UNPROCESSABLE) && unchanged(this)
      ensures !old(deleted) && old(status) == Realized ==> r == Done && status == Completed
      ensures items == old(items) && warehouse == old(warehouse) && deleted == old(deleted)
      ensures returnDate == old(returnDate) && reason == old(reason) && notes == old(notes)
    {
      r := Advance(Realized, Completed);
    }

    /** destroy: a soft-deleted return is not found; refused once realized or completed; otherwise soft-deleted. */
    method Destroy() returns (r: Outcome)
      modifies this
      ensures old(deleted) ==> r == Refused(NOT_FOUND) && unchanged(this)
      ensures !old(deleted) && old(status) in {Realized, Completed} ==> r == Refused(UNPROCESSABLE) && unchanged(this)
      ensures !old(deleted) && old(status) !in {Realized, Completed} ==> r == Done && deleted
      ensures status == old(status) && items == old(items)
      ensures warehouse == old(warehouse) && returnDate == old(returnDate) && reason == old(reason) && notes == old(notes)
    {
      if deleted {
        return Refused(NOT_FOUND);
      }
      if status == Realized || status == Completed {
        return Refused(UNPROCESSABLE);
      }
      deleted := true;
      return Done;
    }
  }

  /**
   * store: the order id must exist (422, the validation rule counts soft-deleted
   * rows), the order must be live (404) and received or closed (422); an item
   * naming neither a material nor a product aborts the whole creation (500).
   * The new draft has exactly the submitted items.
   */
  method Store(table: PurchaseOrders.PurchaseOrderTable, id: nat, poId: nat, warehouse: nat, returnDate: string,
               reason: string, notes: string, items: seq<ReturnItem>) returns (r: Result<PurchaseReturn>)
    requires |items| >= 1 && forall i | 0 <= i < |items| :: items[i].quantity >= 0.001
    ensures poId !in table.orders ==> r == Err(UNPROCESSABLE)
    ensures poId in table.orders && table.orders[poId].deleted ==> r == Err(NOT_FOUND)
    ensures table.IsLive(poId) && table.orders[poId].status !in {PurchaseOrders.Received, PurchaseOrders.Closed} ==> r == Err(UNPROCESSABLE)
    ensures table.IsLive(poId) && table.orders[poId].status in {PurchaseOrders.Received, PurchaseOrders.Closed} ==>
              ((exists i | 0 <= i < |items| :: items[i].rawMaterial.None? && items[i].product.None?) <==> r == Err(SERVER_ERROR))
    ensures r.Ok? ==>
              && fresh(r.value) && r.value.status == Draft && r.value.purchaseOrder == poId
              && r.value.warehouse == warehouse && r.value.items == items
              && forall i | 0 <= i < |items| :: items[i].rawMaterial.Some? || items[i].product.Some?
  {
    if poId !in table.orders {
      return Err(UNPROCESSABLE);
    }
    if table.orders[poId].deleted {
      return Err(NOT_FOUND);
    }
    var po := table.orders[poId];
    if po.status != PurchaseOrders.Received && po.status != PurchaseOrders.Closed {
      return Err(UNPROCESSABLE);
    }
    if exists i | 0 <= i < |items| :: items[i].rawMaterial.None? && items[i].product.None? {
      return Err(SERVER_ERROR);
    }
    var ret := new PurchaseReturn(id, poId, warehouse, returnDate, reason, notes, items);
    return Ok(ret);
  }

  /**
   * Realizing a stored return succeeds exactly when every line's row exists and
   * covers the total the return takes from it; each row then drops by that total
   * and stays non-negative, and the ledger stays reconciled.
   */
  lemma RealizeEffects(stock: Stock, p: seq<Movement>, r: seq<Movement>, items: seq<ReturnItem>, warehouse: nat, id: nat)
    requires forall i | 0 <= i < |items| :: items[i].quantity >= 0.001
    requires forall i | 0 <= i < |items| :: items[i].rawMaterial.Some? || items[i].product.Some?
    ensures CheckedDecremented(stock, ReturnLines(items, warehouse)).Some?
        <==> forall i | 0 <= i < |items| ::
               var k := GoodsReceipts.ItemKey(items[i].rawMaterial, items[i].product, warehouse).value;
               k in stock && QtyFor(ReturnLines(items, warehouse), k) <= stock[k]
    ensures CheckedDecremented(stock, ReturnLines(items, warehouse)).Some? ==>
              forall k | k in stock ::
                && k in CheckedDecremented(stock, ReturnLines(items, warehouse)).value
                && CheckedDecremented(stock, ReturnLines(items, warehouse)).value[k] == stock[k] - QtyFor(ReturnLines(items, warehouse), k)
    ensures Reconciled(stock, p, r) && CheckedDecremented(stock, ReturnLines(items, warehouse)).Some? ==>
              Reconciled(CheckedDecremented(stock, ReturnLines(items, warehouse)).value,
                         p + Entries(ReturnLines(items, warehouse), ReturnSpec(id), true),
                         r + Entries(ReturnLines(items, warehouse), ReturnSpec(id), false))
  {
    var lines := ReturnLines(items, warehouse);
    ReturnLinesOnePerItem(items, warehouse);
    LedgerProps.CheckedDecrementSucceedsIff(stock, lines);
    if CheckedDecremented(stock, lines).Some? {
      LedgerProps.CheckedDecrementedAt(stock, lines);
    }
    if Reconciled(stock, p, r) && CheckedDecremented(stock, lines).Some? {
      LedgerProps.CheckedDecrementReconciles(stock, p, r, lines, ReturnSpec(id));
    }
  }
}

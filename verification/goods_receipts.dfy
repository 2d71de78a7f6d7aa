/**
 * Goods receipts: a draft record of what arrived against a sent purchase order,
 * posted once to credit each received line to its raw-material or product
 * balance and to mark the order received.
 */
module GoodsReceipts {
  import opened Common
  import opened Ledger
  import LedgerProps
  import PurchaseOrders

  datatype GRStatus = Draft | Posted | Cancelled

  /** A received line: which order line, and how much arrived. */
  datatype GRInput = GRInput(orderLine: nat, received: real)

  datatype GRItem = GRItem(rawMaterial: Option<nat>, product: Option<nat>, unit: nat,
                           ordered: real, received: real, remaining: real, actual: real)

  /** The receipt line for one order line: remaining = ordered - received, and actual defaults to received. */
  function ReceiptItem(poItem: PurchaseOrders.POItem, received: real): (r: GRItem)
    ensures r.ordered == poItem.quantity && r.received == received && r.actual == received
    ensures r.received + r.remaining == r.ordered
    ensures r.rawMaterial == poItem.rawMaterial && r.product == poItem.product && r.unit == poItem.unit
  {
    GRItem(poItem.rawMaterial, poItem.product, poItem.unit, poItem.quantity, received, poItem.quantity - received, received)
  }

  /** The balance row a purchased line moves: the raw material when one is set, otherwise the product when one is set. */
  function ItemKey(rawMaterial: Option<nat>, product: Option<nat>, warehouse: nat): (r: Option<Key>)
    ensures rawMaterial.Some? ==> r == Some(Key(RawMaterial(rawMaterial.value), warehouse))
    ensures rawMaterial.None? && product.Some? ==> r == Some(Key(Product(product.value), warehouse))
    ensures rawMaterial.None? && product.None? ==> r.None?
  {
    if rawMaterial.Some? then Some(Key(RawMaterial(rawMaterial.value), warehouse))
    else if product.Some? then Some(Key(Product(product.value), warehouse))
    else None
  }

  /** The ledger lines of a receipt: one per item naming a material or a product, carrying quantity_actual. */
  function ReceiptLines(items: seq<GRItem>, warehouse: nat): seq<Line>
    decreases |items|
  {
    if items == [] then []
    else
      var it := items[|items| - 1];
      var k := ItemKey(it.rawMaterial, it.product, warehouse);
      ReceiptLines(items[..|items| - 1], warehouse) + (if k.Some? then [Line(k.value, it.actual)] else [])
  }

  function ReceiptSpec(id: nat): LogSpec
  {
    LogSpec("in", "IN", Doc("goods_receipt", id), Doc("App\\Models\\GoodsReceipt", id))
  }

  /** When every item names a material or a product, the receipt has one ledger line per item, in order. */
  lemma {:induction false} ReceiptLinesOnePerItem(items: seq<GRItem>, warehouse: nat)
    requires forall i | 0 <= i < |items| :: items[i].rawMaterial.Some? || items[i].product.Some?
    ensures |ReceiptLines(items, warehouse)| == |items|
    ensures forall i | 0 <= i < |items| ::
              ReceiptLines(items, warehouse)[i] == Line(ItemKey(items[i].rawMaterial, items[i].product, warehouse).value, items[i].actual)
    decreases |items|
  {
    if items != [] {
      var pre := items[..|items| - 1];
      forall i | 0 <= i < |pre| ensures pre[i].rawMaterial.Some? || pre[i].product.Some? {
        assert pre[i] == items[i];
      }
      ReceiptLinesOnePerItem(pre, warehouse);
    }
  }

  /** An item naming neither a material nor a product adds no line. */
  lemma UntaggedItemIgnored(items: seq<GRItem>, it: GRItem, warehouse: nat)
    requires it.rawMaterial.None? && it.product.None?
    ensures ReceiptLines(items + [it], warehouse) == ReceiptLines(items, warehouse)
  {
    assert (items + [it])[..|items|] == items;
  }

  class GoodsReceipt {
    const id: nat
    const purchaseOrder: nat
    var warehouse: nat
    var receiptDate: string
    var notes: string
    var status: GRStatus
    var items: seq<GRItem>
    var deleted: bool

    constructor (id: nat, purchaseOrder: nat, warehouse: nat, receiptDate: string, notes: string, items: seq<GRItem>)
      ensures this.id == id && this.purchaseOrder == purchaseOrder && this.warehouse == warehouse
      ensures this.receiptDate == receiptDate && this.notes == notes
      ensures status == Draft && this.items == items && !deleted
    {
      this.id := id;
      this.purchaseOrder := purchaseOrder;
      this.warehouse := warehouse;
      this.receiptDate := receiptDate;
      this.notes := notes;
      status := Draft;
      this.items := items;
      deleted := false;
    }

    /** update: a soft-deleted receipt is not found; only a draft; the header fields are replaced. */
    method Update(receiptDate: string, warehouse: nat, notes: string) returns (r: Outcome)
      modifies this
      ensures old(deleted) ==> r == Refused(NOT_FOUND) && unchanged(this)
      ensures !old(deleted) && old(status) != Draft ==> r == Refused(UNPROCESSABLE) && unchanged(this)
      ensures !old(deleted) && old(status) == Draft ==> r == Done && this.receiptDate == receiptDate && this.warehouse == warehouse && this.notes == notes
      ensures status == old(status) && items == old(items) && deleted == old(deleted)
    {
      if deleted {
        return Refused(NOT_FOUND);
      }
      if status != Draft {
        return Refused(UNPROCESSABLE);
      }
      this.receiptDate := receiptDate;
      this.warehouse := warehouse;
      this.notes := notes;
      return Done;
    }

    /**
     * post: a soft-deleted receipt is not found; only from draft (422). In one transaction each item naming a material
     * or a product credits quantity_actual to that row (created at zero) and logs
     * one inbound row, the receipt becomes posted and its order received. An order
     * that is no longer live makes the posting fail (500) with nothing changed.
     */
    method Post(ledger: Ledger, table: PurchaseOrders.PurchaseOrderTable) returns (r: Outcome)
      requires table.Valid()
      modifies this, ledger, table
      ensures old(deleted) ==> r == Refused(NOT_FOUND) && unchanged(this) && ledger.Untouched() && unchanged(table)
      ensures table.Valid()
      ensures !old(deleted) && old(status) != Draft ==> r == Refused(UNPROCESSABLE) && unchanged(this) && ledger.Untouched() && unchanged(table)
      ensures !old(deleted) && old(status) == Draft && !old(table.IsLive(purchaseOrder)) ==>
                r == Refused(SERVER_ERROR) && unchanged(this) && ledger.Untouched() && unchanged(table)
      ensures !old(deleted) && old(status) == Draft && old(table.IsLive(purchaseOrder)) ==>
                && r == Done
                && ledger.stock == Incremented(old(ledger.stock), ReceiptLines(items, warehouse))
                && ledger.productLog == old(ledger.productLog) + Entries(ReceiptLines(items, warehouse), ReceiptSpec(id), true)
                && ledger.rawLog == old(ledger.rawLog) + Entries(ReceiptLines(items, warehouse), ReceiptSpec(id), false)
                && status == Posted
                && table.orders == old(table.orders)[purchaseOrder := old(table.orders)[purchaseOrder].(status := PurchaseOrders.Received)]
                && table.nextId == old(table.nextId)
      ensures items == old(items) && warehouse == old(warehouse) && deleted == old(deleted)
      ensures receiptDate == old(receiptDate) && notes == old(notes)
    {
      if deleted {
        return Refused(NOT_FOUND);
      }
      if status != Draft {
        return Refused(UNPROCESSABLE);
      }
      if !table.IsLive(purchaseOrder) {
        return Refused(SERVER_ERROR);
      }
      ledger.IncrementAll(ReceiptLines(items, warehouse), ReceiptSpec(id));
      status := Posted;
      table.MarkReceived(purchaseOrder);
      return Done;
    }

    /** destroy: a soft-deleted receipt is not found; refused once posted; otherwise soft-deleted. */
    method Destroy() returns (r: Outcome)
      modifies this
      ensures old(deleted) ==> r == Refused(NOT_FOUND) && unchanged(this)
      ensures !old(deleted) && old(status) == Posted ==> r == Refused(UNPROCESSABLE) && unchanged(this)
      ensures !old(deleted) && old(status) != Posted ==> r == Done && deleted
      ensures status == old(status) && items == old(items)
      ensures warehouse == old(warehouse) && receiptDate == old(receiptDate) && notes == old(notes)
    {
      if deleted {
        return Refused(NOT_FOUND);
      }
      if status == Posted {
        return Refused(UNPROCESSABLE);
      }
      deleted := true;
      return Done;
    }
  }

  /**
   * store: the order id must exist (422, the validation rule counts soft-deleted
   * rows), the order must be live (404) and sent (422); every received line must
   * name a line of that order (500 otherwise, nothing created); the new draft has
   * one item per received line.
   */
  method Store(table: PurchaseOrders.PurchaseOrderTable, id: nat, poId: nat, warehouse: nat, receiptDate: string, notes: string,
               inputs: seq<GRInput>) returns (r: Result<GoodsReceipt>)
    requires |inputs| >= 1 && forall i | 0 <= i < |inputs| :: inputs[i].received >= 0.0
    ensures poId !in table.orders ==> r == Err(UNPROCESSABLE)
    ensures poId in table.orders && table.orders[poId].deleted ==> r == Err(NOT_FOUND)
    ensures table.IsLive(poId) && table.orders[poId].status != PurchaseOrders.Sent ==> r == Err(UNPROCESSABLE)
    ensures table.IsLive(poId) && table.orders[poId].status == PurchaseOrders.Sent ==>
              ((exists i | 0 <= i < |inputs| :: inputs[i].orderLine >= |table.orders[poId].items|) <==> r == Err(SERVER_ERROR))
    ensures r.Ok? ==>
              && fresh(r.value) && r.value.status == Draft && r.value.purchaseOrder == poId && r.value.warehouse == warehouse
              && table.IsLive(poId) && table.orders[poId].status == PurchaseOrders.Sent
              && |r.value.items| == |inputs|
              && forall i | 0 <= i < |inputs| ::
                   inputs[i].orderLine < |table.orders[poId].items|
                   && r.value.items[i] == ReceiptItem(table.orders[poId].items[inputs[i].orderLine], inputs[i].received)
  {
    if poId !in table.orders {
      return Err(UNPROCESSABLE);
    }
    if table.orders[poId].deleted {
      return Err(NOT_FOUND);
    }
    var po := table.orders[poId];
    if po.status != PurchaseOrders.Sent {
      return Err(UNPROCESSABLE);
    }
    if exists i | 0 <= i < |inputs| :: inputs[i].orderLine >= |po.items| {
      return Err(SERVER_ERROR);
    }
    var items := seq(|inputs|, i requires 0 <= i < |inputs| => ReceiptItem(po.items[inputs[i].orderLine], inputs[i].received));
    var gr := new GoodsReceipt(id, poId, warehouse, receiptDate, notes, items);
    return Ok(gr);
  }

  /** Posting a receipt raises every balance by what its lines bring and keeps the ledger reconciled. */
  lemma PostEffects(stock: Stock, p: seq<Movement>, r: seq<Movement>, items: seq<GRItem>, warehouse: nat, id: nat, k: Key)
    requires forall i | 0 <= i < |items| :: items[i].actual >= 0.0
    ensures BalanceOr0(Incremented(stock, ReceiptLines(items, warehouse)), k)
         == BalanceOr0(stock, k) + QtyFor(ReceiptLines(items, warehouse), k)
    ensures BalanceOr0(Incremented(stock, ReceiptLines(items, warehouse)), k) >= BalanceOr0(stock, k)
    ensures Reconciled(stock, p, r) ==>
              Reconciled(Incremented(stock, ReceiptLines(items, warehouse)),
                         p + Entries(ReceiptLines(items, warehouse), ReceiptSpec(id), true),
                         r + Entries(ReceiptLines(items, warehouse), ReceiptSpec(id), false))
  {
    var lines := ReceiptLines(items, warehouse);
    ReceiptLinesNonNegative(items, warehouse);
    LedgerProps.IncrementedAt(stock, lines, k);
    LedgerProps.QtyForNonNegative(lines, k);
    if Reconciled(stock, p, r) {
      LedgerProps.IncrementReconciles(stock, p, r, lines, ReceiptSpec(id));
    }
  }

  lemma {:induction false} ReceiptLinesNonNegative(items: seq<GRItem>, warehouse: nat)
    requires forall i | 0 <= i < |items| :: items[i].actual >= 0.0
    ensures NonNegativeLines(ReceiptLines(items, warehouse))
    decreases |items|
  {
    if items != [] {
      var pre := items[..|items| - 1];
      forall i | 0 <= i < |pre| ensures pre[i].actual >= 0.0 {
        assert pre[i] == items[i];
      }
      ReceiptLinesNonNegative(pre, warehouse);
    }
  }
}

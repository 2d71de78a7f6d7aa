/**
 * Raw-material stock-out documents: a draft list of materials issued from one
 * warehouse, posted once to debit the balances (which must cover every line)
 * and log `OUT` rows.
 */
module RawStockOuts {
  import opened Common
  import opened Ledger
  import LedgerProps

  datatype StockOutStatus = Draft | Posted | Cancelled

  /** One issued line: a raw material, a quantity of at least 0.001, and its unit. */
  datatype StockOutItem = StockOutItem(rawMaterial: nat, quantity: real, unit: nat)

  predicate ValidItems(items: seq<StockOutItem>)
  {
    |items| >= 1 && forall i | 0 <= i < |items| :: items[i].quantity >= 0.001
  }

  function StockOutSpec(id: nat): LogSpec
  {
    LogSpec("out", "OUT", Doc("App\\Models\\RawMaterialStockOut", id), Doc("App\\Models\\RawMaterialStockOut", id))
  }

  /** The ledger lines of a stock-out: every item at the document's warehouse. */
  function StockOutLines(items: seq<StockOutItem>, warehouse: nat): (r: seq<Line>)
    ensures |r| == |items|
    ensures forall i | 0 <= i < |items| :: r[i] == Line(Key(RawMaterial(items[i].rawMaterial), warehouse), items[i].quantity)
    ensures LedgerProps.AllOfKind(r, false)
  {
    seq(|items|, i requires 0 <= i < |items| => Line(Key(RawMaterial(items[i].rawMaterial), warehouse), items[i].quantity))
  }

  class StockOut {
    const id: nat
    var warehouse: nat
    var issuedAt: string
    var notes: string
    var status: StockOutStatus
    var items: seq<StockOutItem>
    var deleted: bool

    /** store: a new draft holding the submitted lines. */
    constructor Store(id: nat, warehouse: nat, issuedAt: string, notes: string, items: seq<StockOutItem>)
      requires ValidItems(items)
      ensures this.id == id && this.warehouse == warehouse && this.issuedAt == issuedAt && this.notes == notes
      ensures status == Draft && this.items == items && !deleted
    {
      this.id := id;
      this.warehouse := warehouse;
      this.issuedAt := issuedAt;
      this.notes := notes;
      status := Draft;
      this.items := items;
      deleted := false;
    }

    /**
     * post: the lookup runs inside the try, so a soft-deleted document is
     * answered 500; otherwise only from draft (else 400). In one transaction every item debits its
     * (material, warehouse) row and logs one `OUT` row; a missing row or one below
     * the quantity aborts the whole posting (500) with nothing changed.
     */
    method Post(ledger: Ledger) returns (r: Outcome)
      modifies this, ledger
      ensures old(deleted) ==> r == Refused(SERVER_ERROR) && unchanged(this) && ledger.Untouched()
      ensures !old(deleted) && old(status) != Draft ==> r == Refused(BAD_REQUEST) && unchanged(this) && ledger.Untouched()
      ensures !old(deleted) && old(status) == Draft && CheckedDecremented(old(ledger.stock), StockOutLines(items, warehouse)).None? ==>
                r == Refused(SERVER_ERROR) && unchanged(this) && ledger.Untouched()
      ensures !old(deleted) && old(status) == Draft && CheckedDecremented(old(ledger.stock), StockOutLines(items, warehouse)).Some? ==>
                && r == Done
                && ledger.stock == CheckedDecremented(old(ledger.stock), StockOutLines(items, warehouse)).value
                && ledger.rawLog == old(ledger.rawLog) + Entries(StockOutLines(items, warehouse), StockOutSpec(id), false)
                && status == Posted
      ensures ledger.productLog == old(ledger.productLog)
      ensures items == old(items) && warehouse == old(warehouse) && deleted == old(deleted)
      ensures issuedAt == old(issuedAt) && notes == old(notes)
    {
      if deleted {
        return Refused(SERVER_ERROR);
      }
      if status != Draft {
        return Refused(BAD_REQUEST);
      }
      var lines := StockOutLines(items, warehouse);
      LedgerProps.EntriesOtherKindEmpty(lines, StockOutSpec(id), true);
      var ok := ledger.DecrementChecked(lines, StockOutSpec(id));
      if !ok {
        return Refused(SERVER_ERROR);
      }
      status := Posted;
      return Done;
    }

    /** update: a soft-deleted document is not found; only a draft may change (else 400); the header is replaced, and the item set too when lines are sent. */
    method Update(warehouse: nat, issuedAt: string, notes: string, newItems: Option<seq<StockOutItem>>) returns (r: Outcome)
      modifies this
      ensures old(deleted) ==> r == Refused(NOT_FOUND) && unchanged(this)
      ensures !old(deleted) && old(status) != Draft ==> r == Refused(BAD_REQUEST) && unchanged(this)
      ensures !old(deleted) && old(status) == Draft ==>
                && r == Done
                && this.warehouse == warehouse && this.issuedAt == issuedAt && this.notes == notes
                && items == (if newItems.Some? then newItems.value else old(items))
      ensures status == old(status) && deleted == old(deleted)
    {
      if deleted {
        return Refused(NOT_FOUND);
      }
      if status != Draft {
        return Refused(BAD_REQUEST);
      }
      this.warehouse := warehouse;
      this.issuedAt := issuedAt;
      this.notes := notes;
      if newItems.Some? {
        items := newItems.value;
      }
      return Done;
    }

    /** destroy: a soft-deleted document is not found; refused once posted (400); otherwise soft-deleted. */
    method Destroy() returns (r: Outcome)
      modifies this
      ensures old(deleted) ==> r == Refused(NOT_FOUND) && unchanged(this)
      ensures !old(deleted) && old(status) == Posted ==> r == Refused(BAD_REQUEST) && unchanged(this)
      ensures !old(deleted) && old(status) != Posted ==> r == Done && deleted
      ensures status == old(status) && items == old(items)
      ensures warehouse == old(warehouse) && issuedAt == old(issuedAt) && notes == old(notes)
    {
      if deleted {
        return Refused(NOT_FOUND);
      }
      if status == Posted {
        return Refused(BAD_REQUEST);
      }
      deleted := true;
      return Done;
    }
  }

  /**
   * Posting succeeds exactly when every line's row exists and covers the total
   * the document asks of it; then each row drops by that total and stays
   * non-negative, one `OUT` row per item is logged, and the ledger stays reconciled.
   */
  lemma PostEffects(stock: Stock, p: seq<Movement>, r: seq<Movement>, items: seq<StockOutItem>, warehouse: nat, id: nat)
    requires ValidItems(items)
    ensures CheckedDecremented(stock, StockOutLines(items, warehouse)).Some?
        <==> forall i | 0 <= i < |items| ::
               var k := Key(RawMaterial(items[i].rawMaterial), warehouse);
               k in stock && QtyFor(StockOutLines(items, warehouse), k) <= stock[k]
    ensures CheckedDecremented(stock, StockOutLines(items, warehouse)).Some? ==>
              forall k | k in stock ::
                && k in CheckedDecremented(stock, StockOutLines(items, warehouse)).value
                && CheckedDecremented(stock, StockOutLines(items, warehouse)).value[k] == stock[k] - QtyFor(StockOutLines(items, warehouse), k)
    ensures |Entries(StockOutLines(items, warehouse), StockOutSpec(id), false)| == |items|
    ensures forall i | 0 <= i < |items| ::
              Entries(StockOutLines(items, warehouse), StockOutSpec(id), false)[i]
              == Movement(items[i].rawMaterial, warehouse, "OUT", items[i].quantity, Doc("App\\Models\\RawMaterialStockOut", id))
    ensures Reconciled(stock, p, r) && CheckedDecremented(stock, StockOutLines(items, warehouse)).Some? ==>
              Reconciled(CheckedDecremented(stock, StockOutLines(items, warehouse)).value,
                         p + Entries(StockOutLines(items, warehouse), StockOutSpec(id), true),
                         r + Entries(StockOutLines(items, warehouse), StockOutSpec(id), false))
  {
    var lines := StockOutLines(items, warehouse);
    LedgerProps.CheckedDecrementSucceedsIff(stock, lines);
    if CheckedDecremented(stock, lines).Some? {
      LedgerProps.CheckedDecrementedAt(stock, lines);
    }
    LedgerProps.EntriesOnePerLine(lines, StockOutSpec(id), false);
    if Reconciled(stock, p, r) && CheckedDecremented(stock, lines).Some? {
      LedgerProps.CheckedDecrementReconciles(stock, p, r, lines, StockOutSpec(id));
    }
  }
}

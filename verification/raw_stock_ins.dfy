/**
 * Raw-material stock-in documents: a draft list of materials received at one
 * warehouse, posted once to credit the balances and log `IN` rows.
 */
module RawStockIns {
  import opened Common
  import opened Ledger
  import LedgerProps

  datatype StockInStatus = Draft | Posted

  /** One received line: a raw material and a quantity of at least 0.01. */
  datatype StockInItem = StockInItem(rawMaterial: nat, quantity: real)

  predicate ValidItems(items: seq<StockInItem>)
  {
    |items| >= 1 && forall i | 0 <= i < |items| :: items[i].quantity >= 0.01
  }

  function StockInSpec(id: nat): LogSpec
  {
    LogSpec("in", "IN", Doc("App\\Models\\RawMaterialStockIn", id), Doc("App\\Models\\RawMaterialStockIn", id))
  }

  /** The ledger lines of a stock-in: every item at the document's warehouse. */
  function StockInLines(items: seq<StockInItem>, warehouse: nat): (r: seq<Line>)
    ensures |r| == |items|
    ensures forall i | 0 <= i < |items| :: r[i] == Line(Key(RawMaterial(items[i].rawMaterial), warehouse), items[i].quantity)
    ensures LedgerProps.AllOfKind(r, false)
  {
    seq(|items|, i requires 0 <= i < |items| => Line(Key(RawMaterial(items[i].rawMaterial), warehouse), items[i].quantity))
  }

  class StockIn {
    const id: nat
    var stockInDate: string
    var warehouse: nat
    var notes: string
    var status: StockInStatus
    var items: seq<StockInItem>
    var deleted: bool

    /** store: a new draft holding the submitted lines. */
    constructor Store(id: nat, stockInDate: string, warehouse: nat, items: seq<StockInItem>)
      requires ValidItems(items)
      ensures this.id == id && this.stockInDate == stockInDate && this.warehouse == warehouse
      ensures status == Draft && this.items == items && !deleted
    {
      this.id := id;
      this.stockInDate := stockInDate;
      this.warehouse := warehouse;
      notes := "";
      status := Draft;
      this.items := items;
      deleted := false;
    }

    /**
     * post: a soft-deleted document is not found; refused once posted; otherwise every item credits its (material,
     * warehouse) row, created at zero when absent, and logs one `IN` row of the
     * same quantity, and the document becomes posted.
     */
    method Post(ledger: Ledger) returns (r: Outcome)
      modifies this, ledger
      ensures old(deleted) ==> r == Refused(NOT_FOUND) && unchanged(this) && ledger.Untouched()
      ensures !old(deleted) && old(status) == Posted ==> r == Refused(UNPROCESSABLE) && ledger.Untouched()
      ensures !old(deleted) && old(status) == Draft ==> r == Done
      ensures !old(deleted) && old(status) == Draft ==> ledger.stock == Incremented(old(ledger.stock), StockInLines(items, warehouse))
      ensures !old(deleted) && old(status) == Draft ==> ledger.rawLog == old(ledger.rawLog) + Entries(StockInLines(items, warehouse), StockInSpec(id), false)
      ensures ledger.productLog == old(ledger.productLog)
      ensures !old(deleted) ==> status == Posted
      ensures items == old(items) && warehouse == old(warehouse) && deleted == old(deleted)
      ensures stockInDate == old(stockInDate) && notes == old(notes)
    {
      if deleted {
        return Refused(NOT_FOUND);
      }
      if status == Posted {
        return Refused(UNPROCESSABLE);
      }
      var lines := StockInLines(items, warehouse);
      LedgerProps.EntriesOtherKindEmpty(lines, StockInSpec(id), true);
      ledger.IncrementAll(lines, StockInSpec(id));
      status := Posted;
      return Done;
    }

    /** update: a soft-deleted document is not found; refused once posted; the header is replaced, and the item set too when new lines are sent. */
    method Update(stockInDate: string, warehouse: nat, notes: string, newItems: Option<seq<StockInItem>>) returns (r: Outcome)
      requires newItems.Some? ==> ValidItems(newItems.value)
      modifies this
      ensures old(deleted) ==> r == Refused(NOT_FOUND) && unchanged(this)
      ensures !old(deleted) && old(status) == Posted ==> r == Refused(UNPROCESSABLE) && unchanged(this)
      ensures !old(deleted) && old(status) != Posted ==>
                && r == Done
                && this.stockInDate == stockInDate && this.warehouse == warehouse && this.notes == notes
                && items == (if newItems.Some? then newItems.value else old(items))
      ensures status == old(status) && deleted == old(deleted)
    {
      if deleted {
        return Refused(NOT_FOUND);
      }
      if status == Posted {
        return Refused(UNPROCESSABLE);
      }
      this.stockInDate := stockInDate;
      this.warehouse := warehouse;
      this.notes := notes;
      if newItems.Some? {
        items := newItems.value;
      }
      return Done;
    }

    /** destroy: a soft-deleted document is not found; refused once posted; otherwise soft-deleted. */
    method Destroy() returns (r: Outcome)
      modifies this
      ensures old(deleted) ==> r == Refused(NOT_FOUND) && unchanged(this)
      ensures !old(deleted) && old(status) == Posted ==> r == Refused(UNPROCESSABLE) && unchanged(this)
      ensures !old(deleted) && old(status) != Posted ==> r == Done && deleted
      ensures status == old(status) && items == old(items)
      ensures stockInDate == old(stockInDate) && warehouse == old(warehouse) && notes == old(notes)
    {
      if deleted {
        return Refused(NOT_FOUND);
      }
      if status == Posted {
        return Refused(UNPROCESSABLE);
      }
      deleted := true;
      return Done;
    }
  }

  /**
   * What posting does to the ledger: each (material, warehouse) row grows by the
   * total quantity its lines receive, with one `IN` row of equal quantity per item,
   * and the ledger stays reconciled.
   */
  lemma PostEffects(stock: Stock, p: seq<Movement>, r: seq<Movement>, items: seq<StockInItem>, warehouse: nat, id: nat, k: Key)
    ensures BalanceOr0(Incremented(stock, StockInLines(items, warehouse)), k)
         == BalanceOr0(stock, k) + QtyFor(StockInLines(items, warehouse), k)
    ensures |Entries(StockInLines(items, warehouse), StockInSpec(id), false)| == |items|
    ensures forall i | 0 <= i < |items| ::
              Entries(StockInLines(items, warehouse), StockInSpec(id), false)[i]
              == Movement(items[i].rawMaterial, warehouse, "IN", items[i].quantity, Doc("App\\Models\\RawMaterialStockIn", id))
    ensures Reconciled(stock, p, r) ==>
              Reconciled(Incremented(stock, StockInLines(items, warehouse)),
                         p + Entries(StockInLines(items, warehouse), StockInSpec(id), true),
                         r + Entries(StockInLines(items, warehouse), StockInSpec(id), false))
  {
    var lines := StockInLines(items, warehouse);
    LedgerProps.IncrementedAt(stock, lines, k);
    LedgerProps.EntriesOnePerLine(lines, StockInSpec(id), false);
    if Reconciled(stock, p, r) {
      LedgerProps.IncrementReconciles(stock, p, r, lines, StockInSpec(id));
    }
  }
}

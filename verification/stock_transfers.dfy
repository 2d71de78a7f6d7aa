/**
 * Stock transfers between two warehouses: a draft list of products and raw
 * materials that is approved or rejected, then executed by moving every line
 * from the source warehouse to the destination in one transaction.
 */
module StockTransfers {
  import opened Common
  import opened Ledger
  import LedgerProps
  import StockMovements

  datatype TransferStatus = Draft | Approved | Rejected | Executed

  /** One submitted line: a product id or a raw-material id (empty ids are absent), and a quantity. */
  datatype TransferInput = TransferInput(productId: Option<nat>, rawMaterialId: Option<nat>, quantity: real)

  /** One stored line: the tagged item and its quantity. */
  datatype TransferItem = TransferItem(item: ItemRef, quantity: real)

  /** A line names exactly one of a product and a raw material. */
  predicate ExactlyOne(input: TransferInput)
  {
    input.productId.Some? != input.rawMaterialId.Some?
  }

  /**
   * The item-check loop of `store`: succeeds exactly when every line names exactly
   * one item; otherwise it reports the first offending line.
   */
  method CheckItems(inputs: seq<TransferInput>) returns (ok: bool, bad: nat)
    ensures ok <==> forall i | 0 <= i < |inputs| :: ExactlyOne(inputs[i])
    ensures !ok ==> bad < |inputs| && !ExactlyOne(inputs[bad])
    ensures !ok ==> forall i | 0 <= i < bad :: ExactlyOne(inputs[i])
  {
    var i := 0;
    while i < |inputs|
      invariant 0 <= i <= |inputs|
      invariant forall j | 0 <= j < i :: ExactlyOne(inputs[j])
    {
      var hasProduct := inputs[i].productId.Some?;
      var hasRawMaterial := inputs[i].rawMaterialId.Some?;
      if (hasProduct && hasRawMaterial) || (!hasProduct && !hasRawMaterial) {
        return false, i;
      }
      i := i + 1;
    }
    return true, 0;
  }

  /** How a checked line is stored: as a product when it has a product id, otherwise as a raw material. */
  function Tag(input: TransferInput): (r: TransferItem)
    requires ExactlyOne(input)
    ensures r.quantity == input.quantity
    ensures r.item.Product? <==> input.productId.Some?
    ensures r.item.Product? ==> r.item.id == input.productId.value
    ensures r.item.RawMaterial? ==> r.item.id == input.rawMaterialId.value
  {
    if input.productId.Some? then TransferItem(Product(input.productId.value), input.quantity)
    else TransferItem(RawMaterial(input.rawMaterialId.value), input.quantity)
  }

  function TagAll(inputs: seq<TransferInput>): (r: seq<TransferItem>)
    requires forall i | 0 <= i < |inputs| :: ExactlyOne(inputs[i])
    ensures |r| == |inputs|
    ensures forall i | 0 <= i < |inputs| :: r[i] == Tag(inputs[i])
  {
    seq(|inputs|, i requires 0 <= i < |inputs| => Tag(inputs[i]))
  }

  /** The ledger lines of a transfer: each item at the source warehouse. */
  function TransferLines(items: seq<TransferItem>, from: nat): (r: seq<Line>)
    ensures |r| == |items|
    ensures forall i | 0 <= i < |items| :: r[i] == Line(Key(items[i].item, from), items[i].quantity)
    ensures LedgerProps.AllFrom(r, from)
  {
    seq(|items|, i requires 0 <= i < |items| => Line(Key(items[i].item, from), items[i].quantity))
  }

  /** Outbound rows: "out" for products (reference "transfer"), TRANSFER_OUT for raw materials (reference "stock_transfer"). */
  function OutSpec(id: nat): LogSpec
  {
    LogSpec("out", "TRANSFER_OUT", Doc("transfer", id), Doc("stock_transfer", id))
  }

  /** Inbound rows: "in" for products, TRANSFER_IN for raw materials, with the same references. */
  function InSpec(id: nat): LogSpec
  {
    LogSpec("in", "TRANSFER_IN", Doc("transfer", id), Doc("stock_transfer", id))
  }

  class StockTransfer {
    const id: nat
    const from: nat
    const to: nat
    var transferDate: string
    var notes: string
    var status: TransferStatus
    var items: seq<TransferItem>
    var approvedBy: Option<nat>

    constructor (id: nat, from: nat, to: nat, transferDate: string, notes: string, items: seq<TransferItem>)
      ensures this.id == id && this.from == from && this.to == to
      ensures this.transferDate == transferDate && this.notes == notes
      ensures status == Draft && this.items == items && approvedBy == None
    {
      this.id := id;
      this.from := from;
      this.to := to;
      this.transferDate := transferDate;
      this.notes := notes;
      status := Draft;
      this.items := items;
      approvedBy := None;
    }

    /** approve: only from draft. */
    method Approve(user: nat) returns (r: Outcome)
      modifies this
      ensures old(status) != Draft ==> r == Refused(UNPROCESSABLE) && unchanged(this)
      ensures old(status) == Draft ==> r == Done && status == Approved && approvedBy == Some(user)
      ensures items == old(items) && transferDate == old(transferDate) && notes == old(notes)
    {
      if status != Draft {
        return Refused(UNPROCESSABLE);
      }
      status := Approved;
      approvedBy := Some(user);
      return Done;
    }

    /** reject: only from draft. */
    method Reject() returns (r: Outcome)
      modifies this
      ensures old(status) != Draft ==> r == Refused(UNPROCESSABLE) && unchanged(this)
      ensures old(status) == Draft ==> r == Done && status == Rejected
      ensures items == old(items) && approvedBy == old(approvedBy) && transferDate == old(transferDate) && notes == old(notes)
    {
      if status != Draft {
        return Refused(UNPROCESSABLE);
      }
      status := Rejected;
      return Done;
    }

    /**
     * execute: only from approved. In one transaction each line leaves the source
     * row (which must exist and hold the quantity) and enters the destination row
     * (created at zero), with an outbound and an inbound row logged; then the
     * transfer is executed. Any failing line rolls everything back (422).
     */
    method Execute(ledger: Ledger) returns (r: Outcome)
      modifies this, ledger
      ensures old(status) != Approved ==> r == Refused(UNPROCESSABLE) && unchanged(this) && ledger.Untouched()
      ensures old(status) == Approved && Transferred(old(ledger.stock), TransferLines(items, from), to).None? ==>
                r == Refused(UNPROCESSABLE) && unchanged(this) && ledger.Untouched()
      ensures r == Done ==>
                && old(status) == Approved
                && Transferred(old(ledger.stock), TransferLines(items, from), to).Some?
                && ledger.stock == Transferred(old(ledger.stock), TransferLines(items, from), to).value
                && ledger.productLog == old(ledger.productLog) + TransferEntries(TransferLines(items, from), to, OutSpec(id), InSpec(id), true)
                && ledger.rawLog == old(ledger.rawLog) + TransferEntries(TransferLines(items, from), to, OutSpec(id), InSpec(id), false)
                && status == Executed
      ensures old(status) == Approved && Transferred(old(ledger.stock), TransferLines(items, from), to).Some? ==> r == Done
      ensures items == old(items) && approvedBy == old(approvedBy)
      ensures transferDate == old(transferDate) && notes == old(notes)
    {
      if status != Approved {
        return Refused(UNPROCESSABLE);
      }
      var ok := ledger.TransferAll(TransferLines(items, from), to, OutSpec(id), InSpec(id));
      if !ok {
        return Refused(UNPROCESSABLE);
      }
      status := Executed;
      return Done;
    }
  }

  /**
   * store: every line must name exactly one item (else 422, nothing created); the
   * new transfer is a draft whose items are the tagged lines.
   */
  method Store(id: nat, from: nat, to: nat, transferDate: string, notes: string, inputs: seq<TransferInput>)
    returns (r: Result<StockTransfer>)
    requires from != to
    requires |inputs| >= 1 && forall i | 0 <= i < |inputs| :: inputs[i].quantity >= 0.01
    ensures r.Err? <==> exists i | 0 <= i < |inputs| :: !ExactlyOne(inputs[i])
    ensures r.Err? ==> r.code == UNPROCESSABLE
    ensures r.Ok? ==>
              && fresh(r.value) && r.value.status == Draft && r.value.id == id
              && r.value.from == from && r.value.to == to && r.value.items == TagAll(inputs)
  {
    var ok, _ := CheckItems(inputs);
    if !ok {
      return Err(UNPROCESSABLE);
    }
    var t := new StockTransfer(id, from, to, transferDate, notes, TagAll(inputs));
    return Ok(t);
  }

  // ---------------------------------------------------------------- properties of execute

  /** The source rows of a successful transfer: the same rows exist, each lowered by its total. */
  lemma {:induction false} TransferredFromRows(stock: Stock, lines: seq<Line>, from: nat, to: nat)
    requires from != to
    requires LedgerProps.AllFrom(lines, from)
    requires Transferred(stock, lines, to).Some?
    ensures forall k: Key | k.warehouse == from :: k in Transferred(stock, lines, to).value <==> k in stock
    ensures forall k: Key | k.warehouse == from && k in stock :: Transferred(stock, lines, to).value[k] == stock[k] - QtyFor(lines, k)
    ensures forall i | 0 <= i < |lines| :: lines[i].key in stock && Transferred(stock, lines, to).value[lines[i].key] >= 0.0
    decreases |lines|
  {
    if lines != [] {
      var pre := lines[..|lines| - 1];
      assert LedgerProps.AllFrom(pre, from) by {
        forall i | 0 <= i < |pre| ensures pre[i].key.warehouse == from {
          assert pre[i] == lines[i];
        }
      }
      TransferredFromRows(stock, pre, from, to);
      forall i | 0 <= i < |lines|
        ensures lines[i].key in stock && Transferred(stock, lines, to).value[lines[i].key] >= 0.0
      {
        if i < |pre| {
          assert pre[i] == lines[i];
        }
      }
    }
  }

  /**
   * A transfer of non-negative lines between two different warehouses succeeds
   * exactly when every source row exists and holds the transfer's whole demand on
   * it; arrivals at the destination never help, as it is another warehouse.
   */
  lemma {:induction false} ExecuteSucceedsIff(stock: Stock, lines: seq<Line>, from: nat, to: nat)
    requires from != to
    requires LedgerProps.AllFrom(lines, from)
    requires NonNegativeLines(lines)
    ensures Transferred(stock, lines, to).Some?
        <==> forall i | 0 <= i < |lines| :: lines[i].key in stock && QtyFor(lines, lines[i].key) <= stock[lines[i].key]
    decreases |lines|
  {
    if Transferred(stock, lines, to).Some? {
      TransferredFromRows(stock, lines, from, to);
    } else if lines != [] && forall i | 0 <= i < |lines| :: lines[i].key in stock && QtyFor(lines, lines[i].key) <= stock[lines[i].key] {
      var pre := lines[..|lines| - 1];
      forall i | 0 <= i < |pre|
        ensures pre[i].key in stock && QtyFor(pre, pre[i].key) <= stock[pre[i].key]
      {
        assert pre[i] == lines[i];
      }
      assert NonNegativeLines(pre) && LedgerProps.AllFrom(pre, from) by {
        forall i | 0 <= i < |pre| ensures pre[i].qty >= 0.0 && pre[i].key.warehouse == from {
          assert pre[i] == lines[i];
        }
      }
      ExecuteSucceedsIff(stock, pre, from, to);
      TransferredFromRows(stock, pre, from, to);
      assert false;
    }
  }

  /**
   * Executing a transfer keeps, for every item, the sum of its balances at the two
   * warehouses, keeps its current_stock in the summary, and keeps the ledger reconciled.
   */
  lemma ExecuteConserves(stock: Stock, p: seq<Movement>, r: seq<Movement>, items: seq<TransferItem>, from: nat, to: nat, id: nat, item: ItemRef)
    requires from != to
    requires Transferred(stock, TransferLines(items, from), to).Some?
    ensures var s := Transferred(stock, TransferLines(items, from), to).value;
      BalanceOr0(s, Key(item, from)) + BalanceOr0(s, Key(item, to)) == BalanceOr0(stock, Key(item, from)) + BalanceOr0(stock, Key(item, to))
    ensures StockMovements.SignedTotal(p + TransferEntries(TransferLines(items, from), to, OutSpec(id), InSpec(id), true), true, item.id)
         == StockMovements.SignedTotal(p, true, item.id)
    ensures StockMovements.SignedTotal(r + TransferEntries(TransferLines(items, from), to, OutSpec(id), InSpec(id), false), false, item.id)
         == StockMovements.SignedTotal(r, false, item.id)
    ensures Reconciled(stock, p, r) ==>
      Reconciled(Transferred(stock, TransferLines(items, from), to).value,
                 p + TransferEntries(TransferLines(items, from), to, OutSpec(id), InSpec(id), true),
                 r + TransferEntries(TransferLines(items, from), to, OutSpec(id), InSpec(id), false))
  {
    var lines := TransferLines(items, from);
    LedgerProps.TransferConservesPair(stock, lines, from, to, item);
    StockMovements.TransferKeepsSummary(p, lines, to, OutSpec(id), InSpec(id), true, item.id);
    StockMovements.TransferKeepsSummary(r, lines, to, OutSpec(id), InSpec(id), false, item.id);
    if Reconciled(stock, p, r) {
      LedgerProps.TransferReconciles(stock, p, r, lines, to, OutSpec(id), InSpec(id));
    }
  }
}

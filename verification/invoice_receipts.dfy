/**
 * Invoice receipts: a draft collecting the supplier's invoices for a purchase
 * order, submitted once it holds an invoice, then approved or rejected.
 */
module InvoiceReceipts {
  import opened Common
  import PurchaseOrders

  datatype ReceiptStatus = Draft | Submitted | Approved | Rejected

  datatype Invoice = Invoice(number: string, invoiceDate: string, dueDate: string, amount: real, notes: string)

  /** Sum of the invoice amounts. */
  function TotalAmount(invoices: seq<Invoice>): real
    decreases |invoices|
  {
    if invoices == [] then 0.0 else TotalAmount(invoices[..|invoices| - 1]) + invoices[|invoices| - 1].amount
  }

  /** The total is a sum over the parts: splitting the list splits the total. */
  lemma {:induction false} TotalAmountConcat(a: seq<Invoice>, b: seq<Invoice>)
    ensures TotalAmount(a + b) == TotalAmount(a) + TotalAmount(b)
    decreases |b|
  {
    if b == [] {
      assert a + b == a;
    } else {
      TotalAmountConcat(a, b[..|b| - 1]);
      assert (a + b)[..|a + b| - 1] == a + b[..|b| - 1];
    }
  }

  /** Amounts are validated non-negative, so the total is too. */
  lemma {:induction false} TotalAmountNonNegative(invoices: seq<Invoice>)
    requires forall i | 0 <= i < |invoices| :: invoices[i].amount >= 0.0
    ensures TotalAmount(invoices) >= 0.0
    decreases |invoices|
  {
    if invoices != [] {
      var pre := invoices[..|invoices| - 1];
      forall i | 0 <= i < |pre| ensures pre[i].amount >= 0.0 {
        assert pre[i] == invoices[i];
      }
      TotalAmountNonNegative(pre);
    }
  }

  /** Removing the i-th invoice takes exactly its amount off the total. */
  lemma TotalAmountRemove(invoices: seq<Invoice>, i: nat)
    requires i < |invoices|
    ensures TotalAmount(invoices[..i] + invoices[i + 1..]) == TotalAmount(invoices) - invoices[i].amount
  {
    var pre, post := invoices[..i], invoices[i + 1..];
    assert invoices == (pre + [invoices[i]]) + post;
    TotalAmountConcat(pre + [invoices[i]], post);
    TotalAmountConcat(pre, [invoices[i]]);
    TotalAmountConcat(pre, post);
    assert [invoices[i]][..0] == [];
  }

  /** Replacing the i-th invoice changes the total by the difference of the two amounts. */
  lemma TotalAmountReplace(invoices: seq<Invoice>, i: nat, inv: Invoice)
    requires i < |invoices|
    ensures TotalAmount(invoices[i := inv]) == TotalAmount(invoices) - invoices[i].amount + inv.amount
  {
    var pre, post := invoices[..i], invoices[i + 1..];
    assert invoices == (pre + [invoices[i]]) + post;
    assert invoices[i := inv] == (pre + [inv]) + post;
    TotalAmountConcat(pre + [invoices[i]], post);
    TotalAmountConcat(pre, [invoices[i]]);
    TotalAmountConcat(pre + [inv], post);
    TotalAmountConcat(pre, [inv]);
    assert [invoices[i]][..0] == [] && [inv][..0] == [];
  }

  class InvoiceReceipt {
    const id: nat
    const purchaseOrder: nat
    const supplier: nat
    var transactionDate: string
    var requester: nat
    var notes: string
    var status: ReceiptStatus
    var invoices: seq<Invoice>
    var deleted: bool

    constructor (id: nat, purchaseOrder: nat, supplier: nat, transactionDate: string, requester: nat, notes: string)
      ensures this.id == id && this.purchaseOrder == purchaseOrder && this.supplier == supplier
      ensures this.transactionDate == transactionDate && this.requester == requester && this.notes == notes
      ensures status == Draft && invoices == [] && !deleted
    {
      this.id := id;
      this.purchaseOrder := purchaseOrder;
      this.supplier := supplier;
      this.transactionDate := transactionDate;
      this.requester := requester;
      this.notes := notes;
      status := Draft;
      invoices := [];
      deleted := false;
    }

    /** update: a soft-deleted receipt is not found; only a draft; date, requester and notes are replaced. */
    method Update(transactionDate: string, requester: nat, notes: string) returns (r: Outcome)
      modifies this
      ensures old(deleted) ==> r == Refused(NOT_FOUND) && unchanged(this)
      ensures !old(deleted) && old(status) != Draft ==> r == Refused(UNPROCESSABLE) && unchanged(this)
      ensures !old(deleted) && old(status) == Draft ==> r == Done && this.transactionDate == transactionDate && this.requester == requester && this.notes == notes
      ensures status == old(status) && invoices == old(invoices) && deleted == old(deleted)
    {
      if deleted {
        return Refused(NOT_FOUND);
      }
      if status != Draft {
        return Refused(UNPROCESSABLE);
      }
      this.transactionDate := transactionDate;
      this.requester := requester;
      this.notes := notes;
      return Done;
    }

    /** addInvoice: a soft-deleted receipt is not found; only a draft; the invoice is appended and the total grows by its amount. */
    method AddInvoice(inv: Invoice) returns (r: Outcome)
      requires inv.amount >= 0.0
      modifies this
      ensures old(deleted) ==> r == Refused(NOT_FOUND) && unchanged(this)
      ensures !old(deleted) && old(status) != Draft ==> r == Refused(UNPROCESSABLE) && unchanged(this)
      ensures !old(deleted) && old(status) == Draft ==> r == Done && invoices == old(invoices) + [inv]
      ensures !old(deleted) && old(status) == Draft ==> TotalAmount(invoices) == TotalAmount(old(invoices)) + inv.amount
      ensures status == old(status) && deleted == old(deleted)
      ensures transactionDate == old(transactionDate) && requester == old(requester) && notes == old(notes)
    {
      if deleted {
        return Refused(NOT_FOUND);
      }
      if status != Draft {
        return Refused(UNPROCESSABLE);
      }
      invoices := invoices + [inv];
      assert invoices[..|invoices| - 1] == old(invoices);
      return Done;
    }

    /** removeInvoice: a soft-deleted receipt is not found; only a draft, then a missing invoice is 404; the invoice is removed and its amount leaves the total. */
    method RemoveInvoice(i: nat) returns (r: Outcome)
      modifies this
      ensures old(deleted) ==> r == Refused(NOT_FOUND) && unchanged(this)
      ensures !old(deleted) && old(status) != Draft ==> r == Refused(UNPROCESSABLE) && unchanged(this)
      ensures !old(deleted) && old(status) == Draft && i >= |old(invoices)| ==> r == Refused(NOT_FOUND) && unchanged(this)
      ensures !old(deleted) && old(status) == Draft && i < |old(invoices)| ==>
                && r == Done && invoices == old(invoices)[..i] + old(invoices)[i + 1..]
                && TotalAmount(invoices) == TotalAmount(old(invoices)) - old(invoices)[i].amount
      ensures status == old(status) && deleted == old(deleted)
      ensures transactionDate == old(transactionDate) && requester == old(requester) && notes == old(notes)
    {
      if deleted {
        return Refused(NOT_FOUND);
      }
      if status != Draft {
        return Refused(UNPROCESSABLE);
      }
      if i >= |invoices| {
        return Refused(NOT_FOUND);
      }
      TotalAmountRemove(invoices, i);
      invoices := invoices[..i] + invoices[i + 1..];
      return Done;
    }

    /** updateInvoice: a soft-deleted receipt is not found; only a draft, then a missing invoice is 404; the invoice is replaced. */
    method UpdateInvoice(i: nat, inv: Invoice) returns (r: Outcome)
      requires inv.amount >= 0.0
      modifies this
      ensures old(deleted) ==> r == Refused(NOT_FOUND) && unchanged(this)
      ensures !old(deleted) && old(status) != Draft ==> r == Refused(UNPROCESSABLE) && unchanged(this)
      ensures !old(deleted) && old(status) == Draft && i >= |old(invoices)| ==> r == Refused(NOT_FOUND) && unchanged(this)
      ensures !old(deleted) && old(status) == Draft && i < |old(invoices)| ==>
                && r == Done && invoices == old(invoices)[i := inv]
                && TotalAmount(invoices) == TotalAmount(old(invoices)) - old(invoices)[i].amount + inv.amount
      ensures status == old(status) && deleted == old(deleted)
      ensures transactionDate == old(transactionDate) && requester == old(requester) && notes == old(notes)
    {
      if deleted {
        return Refused(NOT_FOUND);
      }
      if status != Draft {
        return Refused(UNPROCESSABLE);
      }
      if i >= |invoices| {
        return Refused(NOT_FOUND);
      }
      TotalAmountReplace(invoices, i, inv);
      invoices := invoices[i := inv];
      return Done;
    }

    /** submit: a soft-deleted receipt is not found; draft to submitted, and only with at least one invoice. */
    method Submit() returns (r: Outcome)
      modifies this
      ensures old(deleted) ==> r == Refused(NOT_FOUND) && unchanged(this)
      ensures !old(deleted) && (old(status) != Draft || |old(invoices)| == 0) ==> r == Refused(UNPROCESSABLE) && unchanged(this)
      ensures !old(deleted) && old(status) == Draft && |old(invoices)| > 0 ==> r == Done && status == Submitted
      ensures invoices == old(invoices) && deleted == old(deleted)
      ensures transactionDate == old(transactionDate) && requester == old(requester) && notes == old(notes)
    {
      if deleted {
        return Refused(NOT_FOUND);
      }
      if status != Draft {
        return Refused(UNPROCESSABLE);
      }
      if |invoices| == 0 {
        return Refused(UNPROCESSABLE);
      }
      status := Submitted;
      return Done;
    }

    /** approve or reject: a soft-deleted receipt is not found; only from submitted. */
    method Decide(approve: bool) returns (r: Outcome)
      modifies this
      ensures old(deleted) ==> r == Refused(NOT_FOUND) && unchanged(this)
      ensures !old(deleted) && old(status) != Submitted ==> r == Refused(UNPROCESSABLE) && unchanged(this)
      ensures !old(deleted) && old(status) == Submitted ==> r == Done && status == (if approve then Approved else Rejected)
      ensures invoices == old(invoices) && deleted == old(deleted)
      ensures transactionDate == old(transactionDate) && requester == old(requester) && notes == old(notes)
    {
      if deleted {
        return Refused(NOT_FOUND);
      }
      if status != Submitted {
        return Refused(UNPROCESSABLE);
      }
      status := if approve then Approved else Rejected;
      return Done;
    }

    /** destroy: a soft-deleted receipt is not found; refused once approved; otherwise soft-deleted. */
    method Destroy() returns (r: Outcome)
      modifies this
      ensures old(deleted) ==> r == Refused(NOT_FOUND) && unchanged(this)
      ensures !old(deleted) && old(status) == Approved ==> r == Refused(UNPROCESSABLE) && unchanged(this)
      ensures !old(deleted) && old(status) != Approved ==> r == Done && deleted
      ensures status == old(status) && invoices == old(invoices)
      ensures transactionDate == old(transactionDate) && requester == old(requester) && notes == old(notes)
    {
      if deleted {
        return Refused(NOT_FOUND);
      }
      if status == Approved {
        return Refused(UNPROCESSABLE);
      }
      deleted := true;
      return Done;
    }

    /** getSummary: the number of invoices and the sum of their amounts. */
    method GetSummary() returns (count: nat, total: real)
      ensures count == |invoices| && total == TotalAmount(invoices)
    {
      total := 0.0;
      var i := 0;
      while i < |invoices|
        invariant 0 <= i <= |invoices|
        invariant total == TotalAmount(invoices[..i])
      {
        assert invoices[..i + 1][..i] == invoices[..i];
        total := total + invoices[i].amount;
        i := i + 1;
      }
      assert invoices[..|invoices|] == invoices;
      count := |invoices|;
    }
  }

  /**
   * store: the order id must exist (422, the validation rule counts soft-deleted
   * rows), the order must be live (404) and sent, received or closed (422); the
   * insert copies the order's supplier into a required column, so an order
   * without one fails inside the try (500). The new draft carries the order's
   * supplier and no invoices.
   */
  method Store(table: PurchaseOrders.PurchaseOrderTable, id: nat, poId: nat, transactionDate: string, requester: nat, notes: string)
    returns (r: Result<InvoiceReceipt>)
    ensures poId !in table.orders ==> r == Err(UNPROCESSABLE)
    ensures poId in table.orders && table.orders[poId].deleted ==> r == Err(NOT_FOUND)
    ensures table.IsLive(poId) && table.orders[poId].status !in {PurchaseOrders.Sent, PurchaseOrders.Received, PurchaseOrders.Closed} ==>
              r == Err(UNPROCESSABLE)
    ensures table.IsLive(poId) && table.orders[poId].status in {PurchaseOrders.Sent, PurchaseOrders.Received, PurchaseOrders.Closed} ==>
              (table.orders[poId].supplier.None? <==> r == Err(SERVER_ERROR))
    ensures table.IsLive(poId) && table.orders[poId].status in {PurchaseOrders.Sent, PurchaseOrders.Received, PurchaseOrders.Closed}
            && table.orders[poId].supplier.Some? ==>
              && r.Ok? && fresh(r.value) && r.value.status == Draft && r.value.invoices == []
              && r.value.purchaseOrder == poId && r.value.supplier == table.orders[poId].supplier.value
  {
    if poId !in table.orders {
      return Err(UNPROCESSABLE);
    }
    if table.orders[poId].deleted {
      return Err(NOT_FOUND);
    }
    var po := table.orders[poId];
    if po.status == PurchaseOrders.Draft {
      return Err(UNPROCESSABLE);
    }
    if po.supplier.None? {
      return Err(SERVER_ERROR);
    }
    var receipt := new InvoiceReceipt(id, poId, po.supplier.value, transactionDate, requester, notes);
    return Ok(receipt);
  }
}

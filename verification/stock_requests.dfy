/**
 * Stock requests: a draft list of products and quantities that is approved or
 * rejected once, and completed by a stock-out.
 */
module StockRequests {
  import opened Common

  datatype RequestStatus = Draft | Approved | Rejected | Completed

  /** One requested product line. */
  datatype RequestItem = RequestItem(product: nat, quantity: real)

  /** Item quantities are validated to be at least 1. */
  predicate ValidItems(items: seq<RequestItem>)
  {
    |items| >= 1 && forall i | 0 <= i < |items| :: items[i].quantity >= 1.0
  }

  class StockRequest {
    const id: nat
    var requestDate: string
    var notes: string
    var status: RequestStatus
    var items: seq<RequestItem>
    var deleted: bool
    var approvedBy: Option<nat>
    var approvedAt: Option<int>
    var completedBy: Option<nat>
    var completedAt: Option<int>

    /** store: a new draft holding exactly the submitted lines, one item per line. */
    constructor Store(id: nat, requestDate: string, notes: string, items: seq<RequestItem>)
      requires ValidItems(items)
      ensures this.id == id && this.requestDate == requestDate && this.notes == notes
      ensures status == Draft && this.items == items && !deleted
      ensures approvedBy == None && approvedAt == None && completedBy == None && completedAt == None
    {
      this.id := id;
      this.requestDate := requestDate;
      this.notes := notes;
      status := Draft;
      this.items := items;
      deleted := false;
      approvedBy := None;
      approvedAt := None;
      completedBy := None;
      completedAt := None;
    }

    /** update: a soft-deleted request is not found; only a draft may change; the whole item set is replaced by the submitted lines. */
    method Update(requestDate: string, notes: string, items: seq<RequestItem>) returns (r: Outcome)
      requires ValidItems(items)
      modifies this
      ensures old(deleted) ==> r == Refused(NOT_FOUND) && unchanged(this)
      ensures !old(deleted) && old(status) != Draft ==> r == Refused(UNPROCESSABLE) && unchanged(this)
      ensures !old(deleted) && old(status) == Draft ==> r == Done && this.items == items && this.requestDate == requestDate && this.notes == notes
      ensures status == old(status) && deleted == old(deleted)
      ensures approvedBy == old(approvedBy) && approvedAt == old(approvedAt)
      ensures completedBy == old(completedBy) && completedAt == old(completedAt)
    {
      if deleted {
        return Refused(NOT_FOUND);
      }
      if status != Draft {
        return Refused(UNPROCESSABLE);
      }
      this.requestDate := requestDate;
      this.notes := notes;
      this.items := items;
      return Done;
    }

    /** destroy: a soft-deleted request is not found; refused for an approved request; any other status is soft-deleted. */
    method Destroy() returns (r: Outcome)
      modifies this
      ensures old(deleted) ==> r == Refused(NOT_FOUND) && unchanged(this)
      ensures !old(deleted) && old(status) == Approved ==> r == Refused(UNPROCESSABLE) && unchanged(this)
      ensures !old(deleted) && old(status) != Approved ==> r == Done && deleted
      ensures status == old(status) && items == old(items)
      ensures requestDate == old(requestDate) && notes == old(notes) && approvedBy == old(approvedBy) && approvedAt == old(approvedAt) && completedBy == old(completedBy) && completedAt == old(completedAt)
    {
      if deleted {
        return Refused(NOT_FOUND);
      }
      if status == Approved {
        return Refused(UNPROCESSABLE);
      }
      deleted := true;
      return Done;
    }

    /** approve: a soft-deleted request is not found; only a draft is approved; records who approved and when, nothing else changes. */
    method Approve(user: nat, now: int) returns (r: Outcome)
      modifies this
      ensures old(deleted) ==> r == Refused(NOT_FOUND) && unchanged(this)
      ensures !old(deleted) && old(status) != Draft ==> r == Refused(UNPROCESSABLE) && unchanged(this)
      ensures !old(deleted) && old(status) == Draft ==> r == Done && status == Approved && approvedBy == Some(user) && approvedAt == Some(now)
      ensures items == old(items) && deleted == old(deleted) && requestDate == old(requestDate) && notes == old(notes)
      ensures completedBy == old(completedBy) && completedAt == old(completedAt)
    {
      if deleted {
        return Refused(NOT_FOUND);
      }
      if status != Draft {
        return Refused(UNPROCESSABLE);
      }
      status := Approved;
      approvedBy := Some(user);
      approvedAt := Some(now);
      return Done;
    }

    /** reject: a soft-deleted request is not found; only a draft is rejected; records the decision in the same approver fields. */
    method Reject(user: nat, now: int) returns (r: Outcome)
      modifies this
      ensures old(deleted) ==> r == Refused(NOT_FOUND) && unchanged(this)
      ensures !old(deleted) && old(status) != Draft ==> r == Refused(UNPROCESSABLE) && unchanged(this)
      ensures !old(deleted) && old(status) == Draft ==> r == Done && status == Rejected && approvedBy == Some(user) && approvedAt == Some(now)
      ensures items == old(items) && deleted == old(deleted) && requestDate == old(requestDate) && notes == old(notes)
      ensures completedBy == old(completedBy) && completedAt == old(completedAt)
    {
      if deleted {
        return Refused(NOT_FOUND);
      }
      if status != Draft {
        return Refused(UNPROCESSABLE);
      }
      status := Rejected;
      approvedBy := Some(user);
      approvedAt := Some(now);
      return Done;
    }
  }
}

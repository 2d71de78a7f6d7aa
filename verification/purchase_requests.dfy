/**
 * Purchase requests: a draft header with item lines (each a raw material or a
 * product), submitted for approval and then approved or rejected. The status
 * is the stored ENUM member, compared strictly.
 */
module PurchaseRequests {
  import opened Common
  import StockMovements

  /** One requested line: exactly one of a raw material and a product, a unit and a quantity. */
  datatype PRItem = PRItem(rawMaterial: Option<nat>, product: Option<nat>, unit: nat, quantity: real, referenceNo: string, notes: string)

  /** The members of the request's status column. */
  const Statuses: set<string> := {"draft", "submitted", "approved", "rejected"}

  /** The members of the request's type column. */
  const Types: set<string> := {"raw_materials", "product"}

  /**
   * What an ENUM column with the given members stores for a written value: the
   * member it names when letter case is ignored, in the member's own spelling;
   * None when it names no member (a strict-mode insert then fails).
   */
  function EnumValue(members: set<string>, v: string): (s: Option<string>)
    ensures s.Some? <==> StockMovements.ToLower(v) in members
    ensures s.Some? ==> s.value == StockMovements.ToLower(v) && s.value in members
  {
    var lower := StockMovements.ToLower(v);
    if lower in members then Some(lower) else None
  }

  /** The status `submit` writes: the literal "SUBMITTED", stored as the column's member. */
  function SubmittedStatus(): string
  {
    var stored := EnumValue(Statuses, "SUBMITTED");
    assert StockMovements.ToLower("SUBMITTED") == "submitted";
    stored.value
  }

  /** The guard of `approve` and `reject`. */
  predicate Decidable(status: string)
  {
    status == "submitted"
  }

  /**
   * The capitals `submit` writes are folded by the column into "submitted", so a
   * submitted request is exactly what `approve` and `reject` accept, and it is no
   * longer a draft.
   */
  lemma SubmitThenDecidable(status: string)
    ensures SubmittedStatus() == "submitted"
    ensures status == SubmittedStatus() <==> Decidable(status)
    ensures Decidable(status) ==> status != "draft"
  {
    assert StockMovements.ToLower("SUBMITTED") == "submitted";
  }

  class PurchaseRequest {
    const id: nat
    var requestDate: string
    var requestType: string
    var department: string
    var requestBy: nat
    var notes: string
    var status: string
    var items: seq<PRItem>
    var deleted: bool
    var approvedBy: Option<nat>
    var approvedAt: Option<int>

    /** A new draft with no items, holding the given header as stored. */
    constructor New(id: nat, requestDate: string, requestType: string, department: string, requestBy: nat, notes: string)
      ensures this.id == id && this.requestDate == requestDate && this.requestType == requestType
      ensures this.department == department && this.requestBy == requestBy && this.notes == notes
      ensures status == "draft" && items == [] && !deleted && approvedBy == None && approvedAt == None
    {
      this.id := id;
      this.requestDate := requestDate;
      this.requestType := requestType;
      this.department := department;
      this.requestBy := requestBy;
      this.notes := notes;
      status := "draft";
      items := [];
      deleted := false;
      approvedBy := None;
      approvedAt := None;
    }

    /**
     * store: the type is only validated as a string, so the type column decides:
     * a value naming no member ignoring case fails the insert, which nothing
     * catches (500); otherwise a new draft with no items, holding the member.
     */
    static method Store(id: nat, requestDate: string, requestType: string, department: string, requestBy: nat, notes: string)
      returns (r: Result<PurchaseRequest>)
      ensures EnumValue(Types, requestType).None? <==> r == Err(SERVER_ERROR)
      ensures r.Err? ==> r == Err(SERVER_ERROR)
      ensures r.Ok? ==> fresh(r.value)
      ensures r.Ok? ==>
                && r.value.requestType == StockMovements.ToLower(requestType) && r.value.requestType in Types
                && r.value.id == id && r.value.requestDate == requestDate && r.value.department == department
                && r.value.requestBy == requestBy && r.value.notes == notes
                && r.value.status == "draft" && r.value.items == [] && !r.value.deleted
                && r.value.approvedBy == None && r.value.approvedAt == None
    {
      var stored := EnumValue(Types, requestType);
      if stored.None? {
        return Err(SERVER_ERROR);
      }
      var pr := new PurchaseRequest.New(id, requestDate, stored.value, department, requestBy, notes);
      return Ok(pr);
    }

    /** update: a soft-deleted request is not found; only a draft; the date, department and notes are replaced. */
    method Update(requestDate: string, department: string, notes: string) returns (r: Outcome)
      modifies this
      ensures old(deleted) ==> r == Refused(NOT_FOUND) && unchanged(this)
      ensures !old(deleted) && old(status) != "draft" ==> r == Refused(UNPROCESSABLE) && unchanged(this)
      ensures !old(deleted) && old(status) == "draft" ==> r == Done && this.requestDate == requestDate && this.department == department && this.notes == notes
      ensures status == old(status) && items == old(items) && deleted == old(deleted) && requestType == old(requestType)
    {
      if deleted {
        return Refused(NOT_FOUND);
      }
      if status != "draft" {
        return Refused(UNPROCESSABLE);
      }
      this.requestDate := requestDate;
      this.department := department;
      this.notes := notes;
      return Done;
    }

    /** destroy: a request already soft-deleted is not found; any other is soft-deleted in every status; nothing else changes. */
    method Destroy() returns (r: Outcome)
      modifies this
      ensures old(deleted) ==> r == Refused(NOT_FOUND) && unchanged(this)
      ensures !old(deleted) ==> r == Done && deleted
      ensures status == old(status) && items == old(items) && approvedBy == old(approvedBy)
      ensures requestDate == old(requestDate) && requestType == old(requestType) && department == old(department) && requestBy == old(requestBy) && notes == old(notes) && approvedAt == old(approvedAt)
    {
      if deleted {
        return Refused(NOT_FOUND);
      }
      deleted := true;
      return Done;
    }

    /** submit: a soft-deleted request is not found; only from draft; writes "SUBMITTED", which the column stores as "submitted". */
    method Submit() returns (r: Outcome)
      modifies this
      ensures old(deleted) ==> r == Refused(NOT_FOUND) && unchanged(this)
      ensures !old(deleted) && old(status) != "draft" ==> r == Refused(UNPROCESSABLE) && unchanged(this)
      ensures !old(deleted) && old(status) == "draft" ==> r == Done && status == SubmittedStatus() && Decidable(status)
      ensures items == old(items) && deleted == old(deleted) && approvedBy == old(approvedBy) && approvedAt == old(approvedAt)
      ensures requestDate == old(requestDate) && requestType == old(requestType) && department == old(department) && requestBy == old(requestBy) && notes == old(notes)
    {
      if deleted {
        return Refused(NOT_FOUND);
      }
      if status != "draft" {
        return Refused(UNPROCESSABLE);
      }
      SubmitThenDecidable(SubmittedStatus());
      status := SubmittedStatus();
      return Done;
    }

    /** approve: a soft-deleted request is not found; only from "submitted"; records the approver and the time. */
    method Approve(user: nat, now: int) returns (r: Outcome)
      modifies this
      ensures old(deleted) ==> r == Refused(NOT_FOUND) && unchanged(this)
      ensures !old(deleted) && !Decidable(old(status)) ==> r == Refused(UNPROCESSABLE) && unchanged(this)
      ensures !old(deleted) && Decidable(old(status)) ==> r == Done && status == "approved" && approvedBy == Some(user) && approvedAt == Some(now)
      ensures items == old(items) && deleted == old(deleted) && requestDate == old(requestDate) && notes == old(notes)
      ensures requestType == old(requestType) && department == old(department) && requestBy == old(requestBy)
    {
      if deleted {
        return Refused(NOT_FOUND);
      }
      if status != "submitted" {
        return Refused(UNPROCESSABLE);
      }
      status := "approved";
      approvedBy := Some(user);
      approvedAt := Some(now);
      return Done;
    }

    /** reject: a soft-deleted request is not found; only from "submitted"; records the decision in the approver fields. */
    method Reject(user: nat, now: int) returns (r: Outcome)
      modifies this
      ensures old(deleted) ==> r == Refused(NOT_FOUND) && unchanged(this)
      ensures !old(deleted) && !Decidable(old(status)) ==> r == Refused(UNPROCESSABLE) && unchanged(this)
      ensures !old(deleted) && Decidable(old(status)) ==> r == Done && status == "rejected" && approvedBy == Some(user) && approvedAt == Some(now)
      ensures items == old(items) && deleted == old(deleted) && requestDate == old(requestDate) && notes == old(notes)
      ensures requestType == old(requestType) && department == old(department) && requestBy == old(requestBy)
    {
      if deleted {
        return Refused(NOT_FOUND);
      }
      if status != "submitted" {
        return Refused(UNPROCESSABLE);
      }
      status := "rejected";
      approvedBy := Some(user);
      approvedAt := Some(now);
      return Done;
    }

    /**
     * Add an item: refused (422) when it names neither a raw material nor a
     * product or when it names both; then a soft-deleted request is not found
     * (404); refused (422) when the request is not a draft; otherwise the line is
     * appended.
     */
    method AddItem(item: PRItem) returns (r: Outcome)
      requires item.quantity >= 0.001
      modifies this
      ensures item.rawMaterial.None? && item.product.None? ==> r == Refused(UNPROCESSABLE)
      ensures item.rawMaterial.Some? && item.product.Some? ==> r == Refused(UNPROCESSABLE)
      ensures item.rawMaterial.Some? != item.product.Some? && old(deleted) ==> r == Refused(NOT_FOUND)
      ensures !old(deleted) && old(status) != "draft" ==> r == Refused(UNPROCESSABLE)
      ensures r == Done <==> !old(deleted) && old(status) == "draft" && item.rawMaterial.Some? != item.product.Some?
      ensures r == Done ==> items == old(items) + [item]
      ensures r != Done ==> unchanged(this)
      ensures status == old(status) && deleted == old(deleted)
      ensures requestDate == old(requestDate) && requestType == old(requestType) && department == old(department) && requestBy == old(requestBy) && notes == old(notes)
      ensures approvedBy == old(approvedBy) && approvedAt == old(approvedAt)
    {
      if item.rawMaterial.None? && item.product.None? {
        return Refused(UNPROCESSABLE);
      }
      if item.rawMaterial.Some? && item.product.Some? {
        return Refused(UNPROCESSABLE);
      }
      if deleted {
        return Refused(NOT_FOUND);
      }
      if status != "draft" {
        return Refused(UNPROCESSABLE);
      }
      items := items + [item];
      return Done;
    }

    /**
     * Update an item: a missing item is 404; the item of a soft-deleted request
     * finds no request to read the status of (500); refused unless draft; the unit, quantity, reference and notes are replaced.
     */
    method UpdateItem(i: nat, unit: nat, quantity: real, referenceNo: string, notes: string) returns (r: Outcome)
      requires quantity >= 0.001
      modifies this
      ensures i >= old(|items|) ==> r == Refused(NOT_FOUND) && unchanged(this)
      ensures i < old(|items|) && old(deleted) ==> r == Refused(SERVER_ERROR) && unchanged(this)
      ensures i < old(|items|) && !old(deleted) && old(status) != "draft" ==> r == Refused(UNPROCESSABLE) && unchanged(this)
      ensures i < old(|items|) && !old(deleted) && old(status) == "draft" ==>
                && r == Done
                && items == old(items)[i := old(items)[i].(unit := unit, quantity := quantity, referenceNo := referenceNo, notes := notes)]
      ensures status == old(status) && deleted == old(deleted)
      ensures requestDate == old(requestDate) && requestType == old(requestType) && department == old(department) && requestBy == old(requestBy) && this.notes == old(this.notes)
      ensures approvedBy == old(approvedBy) && approvedAt == old(approvedAt)
    {
      if i >= |items| {
        return Refused(NOT_FOUND);
      }
      if deleted {
        return Refused(SERVER_ERROR);
      }
      if status != "draft" {
        return Refused(UNPROCESSABLE);
      }
      items := items[i := items[i].(unit := unit, quantity := quantity, referenceNo := referenceNo, notes := notes)];
      return Done;
    }

    /**
     * Remove an item: a missing item is 404; the item of a soft-deleted request
     * finds no request to read the status of (500); refused unless draft; the
     * line is removed, the others keep their order.
     */
    method RemoveItem(i: nat) returns (r: Outcome)
      modifies this
      ensures i >= old(|items|) ==> r == Refused(NOT_FOUND) && unchanged(this)
      ensures i < old(|items|) && old(deleted) ==> r == Refused(SERVER_ERROR) && unchanged(this)
      ensures i < old(|items|) && !old(deleted) && old(status) != "draft" ==> r == Refused(UNPROCESSABLE) && unchanged(this)
      ensures i < old(|items|) && !old(deleted) && old(status) == "draft" ==> r == Done && items == old(items)[..i] + old(items)[i + 1..]
      ensures status == old(status) && deleted == old(deleted)
      ensures requestDate == old(requestDate) && requestType == old(requestType) && department == old(department) && requestBy == old(requestBy) && notes == old(notes)
      ensures approvedBy == old(approvedBy) && approvedAt == old(approvedAt)
    {
      if i >= |items| {
        return Refused(NOT_FOUND);
      }
      if deleted {
        return Refused(SERVER_ERROR);
      }
      if status != "draft" {
        return Refused(UNPROCESSABLE);
      }
      items := items[..i] + items[i + 1..];
      return Done;
    }
  }
}

/**
 * Purchase orders: generated from an approved purchase request (at most one live
 * order per request), priced line by line, sent to the supplier and received.
 * The orders form one table, keyed by id, with soft deletion.
 */
module PurchaseOrders {
  import opened Common
  import PurchaseRequests

  datatype POStatus = Draft | Sent | Received | Closed

  /** One ordered line, copied from a request line; price and subtotal are unset until priced. */
  datatype POItem = POItem(rawMaterial: Option<nat>, product: Option<nat>, unit: nat, quantity: real, price: Option<real>, subtotal: Option<real>)

  datatype PurchaseOrder = PurchaseOrder(
    purchaseRequest: nat, supplier: Option<nat>, orderDate: int, notes: string,
    status: POStatus, items: seq<POItem>, deleted: bool)

  /** The order lines generated from request lines: same materials, products, units and quantities, unpriced. */
  function ItemsFrom(prItems: seq<PurchaseRequests.PRItem>): (r: seq<POItem>)
    ensures |r| == |prItems|
    ensures forall i | 0 <= i < |prItems| ::
              && r[i].rawMaterial == prItems[i].rawMaterial && r[i].product == prItems[i].product
              && r[i].unit == prItems[i].unit && r[i].quantity == prItems[i].quantity
              && r[i].price.None? && r[i].subtotal.None?
  {
    seq(|prItems|, i requires 0 <= i < |prItems| => POItem(prItems[i].rawMaterial, prItems[i].product, prItems[i].unit, prItems[i].quantity, None, None))
  }

  /** Pricing a line: the price, and subtotal = quantity x price. */
  function Priced(item: POItem, price: real): (r: POItem)
    ensures r.price == Some(price) && r.subtotal == Some(item.quantity * price)
    ensures r.rawMaterial == item.rawMaterial && r.product == item.product && r.unit == item.unit && r.quantity == item.quantity
  {
    item.(price := Some(price), subtotal := Some(item.quantity * price))
  }

  /** The table of purchase orders. */
  class PurchaseOrderTable {
    var orders: map<nat, PurchaseOrder>
    var nextId: nat

    /** Ids are allocated upwards, and no request has two live orders. */
    ghost predicate Valid()
      reads this
    {
      && (forall id | id in orders :: id < nextId)
      && OnePerRequest(orders)
    }

    constructor ()
      ensures orders == map[] && nextId == 0 && Valid()
    {
      orders := map[];
      nextId := 0;
    }

    /** Is there a live order for this request? */
    predicate HasLiveOrder(pr: nat)
      reads this
    {
      exists id | id in orders :: !orders[id].deleted && orders[id].purchaseRequest == pr
    }

    predicate IsLive(id: nat)
      reads this
    {
      id in orders && !orders[id].deleted
    }

    /**
     * generateFromPR: the request must exist (404) and be approved (422) and have
     * no live order (422); the new draft order copies every request line.
     */
    method GenerateFromPR(pr: PurchaseRequests.PurchaseRequest, now: int) returns (r: Result<nat>)
      requires Valid()
      modifies this
      ensures Valid()
      ensures pr.deleted ==> r == Err(NOT_FOUND)
      ensures !pr.deleted && pr.status != "approved" ==> r == Err(UNPROCESSABLE)
      ensures !pr.deleted && pr.status == "approved" && old(HasLiveOrder(pr.id)) ==> r == Err(UNPROCESSABLE)
      ensures r.Err? ==> orders == old(orders) && nextId == old(nextId)
      ensures r.Ok? ==>
                && !pr.deleted && pr.status == "approved" && !old(HasLiveOrder(pr.id))
                && r.value !in old(orders)
                && orders == old(orders)[r.value := PurchaseOrder(pr.id, None, now, "", Draft, ItemsFrom(pr.items), false)]
      ensures !pr.deleted && pr.status == "approved" && !old(HasLiveOrder(pr.id)) ==> r.Ok?
    {
      if pr.deleted {
        return Err(NOT_FOUND);
      }
      if pr.status != "approved" {
        return Err(UNPROCESSABLE);
      }
      if exists id | id in orders :: !orders[id].deleted && orders[id].purchaseRequest == pr.id {
        return Err(UNPROCESSABLE);
      }
      var id := nextId;
      var po := PurchaseOrder(pr.id, None, now, "", Draft, ItemsFrom(pr.items), false);
      OnePerRequestAdd(orders, id, po);
      orders := orders[id := po];
      nextId := nextId + 1;
      return Ok(id);
    }

    /** update: a missing order is 404; only a draft; supplier, date and notes are replaced. */
    method Update(id: nat, supplier: Option<nat>, orderDate: int, notes: string) returns (r: Outcome)
      requires Valid()
      modifies this
      ensures Valid() && nextId == old(nextId)
      ensures !old(IsLive(id)) ==> r == Refused(NOT_FOUND) && orders == old(orders)
      ensures old(IsLive(id)) && old(orders)[id].status != Draft ==> r == Refused(UNPROCESSABLE) && orders == old(orders)
      ensures old(IsLive(id)) && old(orders)[id].status == Draft ==>
                r == Done && orders == old(orders)[id := old(orders)[id].(supplier := supplier, orderDate := orderDate, notes := notes)]
    {
      if id !in orders || orders[id].deleted {
        return Refused(NOT_FOUND);
      }
      if orders[id].status != Draft {
        return Refused(UNPROCESSABLE);
      }
      OnePerRequestReplace(orders, id, orders[id].(supplier := supplier, orderDate := orderDate, notes := notes));
      orders := orders[id := orders[id].(supplier := supplier, orderDate := orderDate, notes := notes)];
      return Done;
    }

    /**
     * updateItemPrice: the line is looked up on its own (404 when missing), in
     * whatever status its order is; it gets the price and subtotal = quantity x price.
     */
    method UpdateItemPrice(id: nat, i: nat, price: real) returns (r: Outcome)
      requires Valid()
      requires price >= 0.0
      modifies this
      ensures Valid() && nextId == old(nextId)
      ensures !(id in old(orders) && i < |old(orders)[id].items|) ==> r == Refused(NOT_FOUND) && orders == old(orders)
      ensures id in old(orders) && i < |old(orders)[id].items| ==>
                && r == Done
                && orders == old(orders)[id := old(orders)[id].(items := old(orders)[id].items[i := Priced(old(orders)[id].items[i], price)])]
    {
      if id !in orders || i >= |orders[id].items| {
        return Refused(NOT_FOUND);
      }
      var po := orders[id];
      OnePerRequestReplace(orders, id, po.(items := po.items[i := Priced(po.items[i], price)]));
      orders := orders[id := po.(items := po.items[i := Priced(po.items[i], price)])];
      return Done;
    }

    /** Move a live order from one status to the next; any other status is 422, a missing order 404. */
    method Advance(id: nat, from: POStatus, to: POStatus) returns (r: Outcome)
      requires Valid()
      modifies this
      ensures Valid() && nextId == old(nextId)
      ensures !old(IsLive(id)) ==> r == Refused(NOT_FOUND) && orders == old(orders)
      ensures old(IsLive(id)) && old(orders)[id].status != from ==> r == Refused(UNPROCESSABLE) && orders == old(orders)
      ensures old(IsLive(id)) && old(orders)[id].status == from ==> r == Done && orders == old(orders)[id := old(orders)[id].(status := to)]
    {
      if id !in orders || orders[id].deleted {
        return Refused(NOT_FOUND);
      }
      if orders[id].status != from {
        return Refused(UNPROCESSABLE);
      }
      OnePerRequestReplace(orders, id, orders[id].(status := to));
      orders := orders[id := orders[id].(status := to)];
      return Done;
    }

    /** Goods-receipt posting marks its live order received, whatever its status was. */
    method MarkReceived(id: nat)
      requires Valid()
      requires IsLive(id)
      modifies this
      ensures Valid() && nextId == old(nextId)
      ensures orders == old(orders)[id := old(orders)[id].(status := Received)]
    {
      OnePerRequestReplace(orders, id, orders[id].(status := Received));
      orders := orders[id := orders[id].(status := Received)];
    }

    /** submit: draft to sent only. */
    method Submit(id: nat) returns (r: Outcome)
      requires Valid()
      modifies this
      ensures Valid() && nextId == old(nextId)
      ensures !old(IsLive(id)) ==> r == Refused(NOT_FOUND) && orders == old(orders)
      ensures old(IsLive(id)) && old(orders)[id].status != Draft ==> r == Refused(UNPROCESSABLE) && orders == old(orders)
      ensures old(IsLive(id)) && old(orders)[id].status == Draft ==> r == Done && orders == old(orders)[id := old(orders)[id].(status := Sent)]
    {
      r := Advance(id, Draft, Sent);
    }

    /** approve: sent to received only. */
    method Approve(id: nat) returns (r: Outcome)
      requires Valid()
      modifies this
      ensures Valid() && nextId == old(nextId)
      ensures !old(IsLive(id)) ==> r == Refused(NOT_FOUND) && orders == old(orders)
      ensures old(IsLive(id)) && old(orders)[id].status != Sent ==> r == Refused(UNPROCESSABLE) && orders == old(orders)
      ensures old(IsLive(id)) && old(orders)[id].status == Sent ==> r == Done && orders == old(orders)[id := old(orders)[id].(status := Received)]
    {
      r := Advance(id, Sent, Received);
    }

    /**
     * destroy: soft-deletes a live order in any status. The purchase request is not
     * touched (it is not in this method's frame), so it stays approved and a new
     * order may be generated for it.
     */
    method Destroy(id: nat) returns (r: Outcome)
      requires Valid()
      modifies this
      ensures Valid() && nextId == old(nextId)
      ensures !old(IsLive(id)) ==> r == Refused(NOT_FOUND) && orders == old(orders)
      ensures old(IsLive(id)) ==> r == Done && orders == old(orders)[id := old(orders)[id].(deleted := true)]
      ensures old(IsLive(id)) ==> !HasLiveOrder(old(orders)[id].purchaseRequest)
    {
      if id !in orders || orders[id].deleted {
        return Refused(NOT_FOUND);
      }
      var pr := orders[id].purchaseRequest;
      OnePerRequestReplace(orders, id, orders[id].(deleted := true));
      orders := orders[id := orders[id].(deleted := true)];
      forall other | other in orders && !orders[other].deleted
        ensures orders[other].purchaseRequest != pr
      {
        assert other != id;
      }
      return Done;
    }
  }

  /** No purchase request has two live orders. */
  ghost predicate OnePerRequest(orders: map<nat, PurchaseOrder>)
  {
    forall a, b | a in orders && b in orders && !orders[a].deleted && !orders[b].deleted
      && orders[a].purchaseRequest == orders[b].purchaseRequest :: a == b
  }

  /** Adding a live order for a request that has none keeps one order per request. */
  lemma OnePerRequestAdd(orders: map<nat, PurchaseOrder>, id: nat, po: PurchaseOrder)
    requires OnePerRequest(orders)
    requires id !in orders
    requires forall other | other in orders && !orders[other].deleted :: orders[other].purchaseRequest != po.purchaseRequest
    ensures OnePerRequest(orders[id := po])
  {
  }

  /** Replacing an order by a deleted one, or by one for the same request and equally live, keeps one order per request. */
  lemma OnePerRequestReplace(orders: map<nat, PurchaseOrder>, id: nat, po: PurchaseOrder)
    requires OnePerRequest(orders)
    requires id in orders
    requires po.deleted || (po.purchaseRequest == orders[id].purchaseRequest && po.deleted == orders[id].deleted)
    ensures OnePerRequest(orders[id := po])
  {
  }
}

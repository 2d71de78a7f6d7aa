/**
 * Production orders: a plan to make `quantityPlan` units of a product from its
 * bill of materials at one warehouse. Release checks, without touching any
 * balance, that the warehouse holds every scaled material; start and complete
 * (module ProductionExecution) consume the materials and credit the product.
 */
module ProductionOrders {
  import opened Common
  import opened Ledger
  import opened BillOfMaterials

  datatype OrderStatus = Draft | Released | InProgress | Completed

  /** A BOM line the warehouse cannot cover at release. */
  datatype Shortfall = Shortfall(rawMaterial: nat, required: real, available: real, shortage: real)

  /** One material consumed by `start`. */
  datatype MaterialUsage = MaterialUsage(rawMaterial: nat, quantityUsed: real, unitCost: real, totalCost: real)

  /** How many BOM batches the plan amounts to. */
  function Multiplier(quantityPlan: real, batchSize: real): (m: real)
    requires batchSize >= 1.0
    ensures m * batchSize == quantityPlan
  {
    quantityPlan / batchSize
  }

  /** What one BOM line asks for a plan of `multiplier` batches. */
  function Required(item: BOMItem, multiplier: real): real
  {
    item.quantity * multiplier
  }

  /** The raw-material balance at the warehouse, 0 when there is no row. */
  function Available(stock: Stock, rawMaterial: nat, warehouse: nat): (q: real)
    ensures Key(RawMaterial(rawMaterial), warehouse) in stock ==> q == stock[Key(RawMaterial(rawMaterial), warehouse)]
    ensures Key(RawMaterial(rawMaterial), warehouse) !in stock ==> q == 0.0
  {
    BalanceOr0(stock, Key(RawMaterial(rawMaterial), warehouse))
  }

  /** Whether a BOM line is short at release. */
  predicate Short(item: BOMItem, multiplier: real, stock: Stock, warehouse: nat)
  {
    Available(stock, item.rawMaterial, warehouse) < Required(item, multiplier)
  }

  /** The shortfall entry of a line: what is required, what is there, and the gap. */
  function ShortfallOf(item: BOMItem, multiplier: real, stock: Stock, warehouse: nat): (s: Shortfall)
    ensures s.rawMaterial == item.rawMaterial && s.required == Required(item, multiplier)
    ensures s.available == Available(stock, item.rawMaterial, warehouse) && s.shortage == s.required - s.available
  {
    var req := Required(item, multiplier);
    var avail := Available(stock, item.rawMaterial, warehouse);
    Shortfall(item.rawMaterial, req, avail, req - avail)
  }

  /** The list release reports: one entry per short line, in BOM order. */
  function Shortfalls(items: seq<BOMItem>, multiplier: real, stock: Stock, warehouse: nat): seq<Shortfall>
    decreases |items|
  {
    if items == [] then []
    else
      var it := items[|items| - 1];
      Shortfalls(items[..|items| - 1], multiplier, stock, warehouse)
      + (if Short(it, multiplier, stock, warehouse) then [ShortfallOf(it, multiplier, stock, warehouse)] else [])
  }

  /** release's loop: walks the BOM lines and collects the short ones. */
  method FindShortfalls(items: seq<BOMItem>, multiplier: real, stock: Stock, warehouse: nat) returns (short: seq<Shortfall>)
    ensures short == Shortfalls(items, multiplier, stock, warehouse)
  {
    short := [];
    var i := 0;
    while i < |items|
      invariant 0 <= i <= |items|
      invariant short == Shortfalls(items[..i], multiplier, stock, warehouse)
    {
      assert items[..i + 1][..i] == items[..i];
      if Short(items[i], multiplier, stock, warehouse) {
        short := short + [ShortfallOf(items[i], multiplier, stock, warehouse)];
      }
      i := i + 1;
    }
    assert items[..|items|] == items;
  }

  /** No shortfall is reported exactly when the warehouse covers every scaled line. */
  lemma {:induction false} NoShortfallIff(items: seq<BOMItem>, multiplier: real, stock: Stock, warehouse: nat)
    ensures Shortfalls(items, multiplier, stock, warehouse) == []
        <==> forall i | 0 <= i < |items| :: Available(stock, items[i].rawMaterial, warehouse) >= Required(items[i], multiplier)
    decreases |items|
  {
    if items != [] {
      var pre := items[..|items| - 1];
      NoShortfallIff(pre, multiplier, stock, warehouse);
      forall i | 0 <= i < |pre| ensures pre[i] == items[i] {
      }
    }
  }

  /** Every reported entry is a real gap: shortage = required - available > 0, for a line of the BOM. */
  lemma {:induction false} ShortfallsAreGaps(items: seq<BOMItem>, multiplier: real, stock: Stock, warehouse: nat)
    ensures |Shortfalls(items, multiplier, stock, warehouse)| <= |items|
    ensures forall j | 0 <= j < |Shortfalls(items, multiplier, stock, warehouse)| ::
              var s := Shortfalls(items, multiplier, stock, warehouse)[j];
              && s.shortage == s.required - s.available && s.shortage > 0.0
              && exists i | 0 <= i < |items| :: items[i].rawMaterial == s.rawMaterial
    decreases |items|
  {
    if items != [] {
      var pre := items[..|items| - 1];
      ShortfallsAreGaps(pre, multiplier, stock, warehouse);
      var sh := Shortfalls(items, multiplier, stock, warehouse);
      forall j | 0 <= j < |sh|
        ensures sh[j].shortage == sh[j].required - sh[j].available && sh[j].shortage > 0.0
        ensures exists i | 0 <= i < |items| :: items[i].rawMaterial == sh[j].rawMaterial
      {
        if j < |Shortfalls(pre, multiplier, stock, warehouse)| {
          var i :| 0 <= i < |pre| && pre[i].rawMaterial == sh[j].rawMaterial;
          assert items[i] == pre[i];
        } else {
          assert items[|items| - 1].rawMaterial == sh[j].rawMaterial;
        }
      }
    }
  }

  class ProductionOrder {
    const id: nat
    const product: nat
    const bomId: nat
    const warehouse: nat
    var productionDate: string
    var quantityPlan: real
    var notes: string
    var status: OrderStatus
    var deleted: bool
    var releasedBy: Option<nat>
    var releasedAt: Option<int>
    var startedAt: Option<string>
    var startedBy: Option<nat>
    var operator: Option<string>
    var totalMaterialCost: real
    var usages: seq<MaterialUsage>
    var quantityActual: real
    var quantityWaste: real
    var laborCost: real
    var overheadCost: real
    var totalProductionCost: real
    var hppPerUnit: real
    var completedAt: Option<string>
    var completedBy: Option<nat>
    var completionNotes: Option<string>

    /** A draft order with nothing released, started or completed. */
    constructor (id: nat, product: nat, bomId: nat, warehouse: nat, productionDate: string, quantityPlan: real, notes: string)
      ensures this.id == id && this.product == product && this.bomId == bomId && this.warehouse == warehouse
      ensures this.productionDate == productionDate && this.quantityPlan == quantityPlan && this.notes == notes
      ensures status == Draft && !deleted && usages == [] && totalMaterialCost == 0.0
      ensures releasedBy == None && startedBy == None && completedBy == None
    {
      this.id := id;
      this.product := product;
      this.bomId := bomId;
      this.warehouse := warehouse;
      this.productionDate := productionDate;
      this.quantityPlan := quantityPlan;
      this.notes := notes;
      status := Draft;
      deleted := false;
      releasedBy := None;
      releasedAt := None;
      startedAt := None;
      startedBy := None;
      operator := None;
      totalMaterialCost := 0.0;
      usages := [];
      quantityActual := 0.0;
      quantityWaste := 0.0;
      laborCost := 0.0;
      overheadCost := 0.0;
      totalProductionCost := 0.0;
      hppPerUnit := 0.0;
      completedAt := None;
      completedBy := None;
      completionNotes := None;
    }

    /** update: a soft-deleted order is not found; only a draft may change; date, planned quantity and notes are replaced. */
    method Update(productionDate: string, quantityPlan: real, notes: string) returns (r: Outcome)
      requires quantityPlan >= 1.0
      modifies this
      ensures old(deleted) ==> r == Refused(NOT_FOUND) && unchanged(this)
      ensures !old(deleted) && old(status) != Draft ==> r == Refused(UNPROCESSABLE) && unchanged(this)
      ensures !old(deleted) && old(status) == Draft ==>
                && r == Done
                && this.productionDate == productionDate && this.quantityPlan == quantityPlan && this.notes == notes
      ensures status == old(status) && deleted == old(deleted) && usages == old(usages)
    {
      if deleted {
        return Refused(NOT_FOUND);
      }
      if status != Draft {
        return Refused(UNPROCESSABLE);
      }
      this.productionDate := productionDate;
      this.quantityPlan := quantityPlan;
      this.notes := notes;
      return Done;
    }

    /**
     * release: a soft-deleted order is not found; only from draft; an order whose
     * BOM was soft-deleted finds no BOM to read the batch size of (500). Every BOM line scaled by plan / batch size is
     * compared with the warehouse's balance; with any shortfall the order stays a
     * draft (422, the list is returned), otherwise it becomes released. The
     * balances are only read.
     */
    method Release(bom: BillOfMaterial, stock: Stock, user: nat, now: int) returns (r: Outcome, short: seq<Shortfall>)
      requires bom.batchSize >= 1.0
      modifies this
      ensures old(deleted) ==> r == Refused(NOT_FOUND) && short == [] && unchanged(this)
      ensures !old(deleted) && old(status) != Draft ==> r == Refused(UNPROCESSABLE) && short == [] && unchanged(this)
      ensures !old(deleted) && old(status) == Draft && bom.deleted ==> r == Refused(SERVER_ERROR) && short == [] && unchanged(this)
      ensures !old(deleted) && old(status) == Draft && !bom.deleted ==>
                short == Shortfalls(bom.items, Multiplier(quantityPlan, bom.batchSize), stock, warehouse)
      ensures !old(deleted) && old(status) == Draft && !bom.deleted && short != [] ==> r == Refused(UNPROCESSABLE) && unchanged(this)
      ensures !old(deleted) && old(status) == Draft && !bom.deleted && short == [] ==>
                && r == Done && status == Released && releasedBy == Some(user) && releasedAt == Some(now)
      ensures quantityPlan == old(quantityPlan) && usages == old(usages) && deleted == old(deleted)
      ensures totalMaterialCost == old(totalMaterialCost)
      ensures productionDate == old(productionDate) && notes == old(notes)
      ensures startedAt == old(startedAt) && startedBy == old(startedBy) && operator == old(operator) && quantityActual == old(quantityActual) && quantityWaste == old(quantityWaste) && completedAt == old(completedAt)
    {
      short := [];
      if deleted {
        return Refused(NOT_FOUND), short;
      }
      if status != Draft {
        return Refused(UNPROCESSABLE), short;
      }
      if bom.deleted {
        return Refused(SERVER_ERROR), short;
      }
      short := FindShortfalls(bom.items, Multiplier(quantityPlan, bom.batchSize), stock, warehouse);
      if short != [] {
        return Refused(UNPROCESSABLE), short;
      }
      status := Released;
      releasedBy := Some(user);
      releasedAt := Some(now);
      return Done, short;
    }

    /** destroy: a soft-deleted order is not found; refused while in progress or completed; otherwise soft-deleted. */
    method Destroy() returns (r: Outcome)
      modifies this
      ensures old(deleted) ==> r == Refused(NOT_FOUND) && unchanged(this)
      ensures !old(deleted) && old(status) in {InProgress, Completed} ==> r == Refused(UNPROCESSABLE) && unchanged(this)
      ensures !old(deleted) && old(status) !in {InProgress, Completed} ==> r == Done && deleted
      ensures status == old(status) && usages == old(usages)
      ensures productionDate == old(productionDate) && quantityPlan == old(quantityPlan) && notes == old(notes) && releasedBy == old(releasedBy) && releasedAt == old(releasedAt)
    {
      if deleted {
        return Refused(NOT_FOUND);
      }
      if status == InProgress || status == Completed {
        return Refused(UNPROCESSABLE);
      }
      deleted := true;
      return Done;
    }
  }

  /** store: a soft-deleted BOM is not found; refused (422) when the BOM is for another product; otherwise a new draft order. */
  method Store(id: nat, product: nat, bom: BillOfMaterial, bomId: nat, warehouse: nat, productionDate: string,
               quantityPlan: real, notes: string)
    returns (r: Result<ProductionOrder>)
    requires quantityPlan >= 1.0
    ensures bom.deleted <==> r == Err(NOT_FOUND)
    ensures !bom.deleted && bom.product != product <==> r == Err(UNPROCESSABLE)
    ensures r.Ok? ==>
              && fresh(r.value) && !r.value.deleted && r.value.status == Draft && r.value.id == id && r.value.product == product
              && r.value.bomId == bomId && r.value.warehouse == warehouse && r.value.quantityPlan == quantityPlan
  {
    if bom.deleted {
      return Err(NOT_FOUND);
    }
    if bom.product != product {
      return Err(UNPROCESSABLE);
    }
    var po := new ProductionOrder(id, product, bomId, warehouse, productionDate, quantityPlan, notes);
    return Ok(po);
  }
}

/**
 * Production execution: `start` consumes the scaled BOM materials of a released
 * order and prices them, `complete` credits the finished product and computes
 * the cost of goods per unit (HPP), and `getReport` reads a completed order back.
 */
module ProductionExecution {
  import opened Common
  import opened Ledger
  import LedgerProps
  import opened BillOfMaterials
  import opened ProductionOrders

  /** Log rows of `start`: raw-material `OUT` rows referring to the production order. */
  function StartSpec(id: nat): LogSpec
  {
    LogSpec("out", "OUT", Doc("App\\Models\\ProductionOrder", id), Doc("App\\Models\\ProductionOrder", id))
  }

  /** Log rows of `complete`: a product `in` row with reference type `production`. */
  function CompleteSpec(id: nat): LogSpec
  {
    LogSpec("in", "IN", Doc("production", id), Doc("production", id))
  }

  /** The ledger lines of `start`: each BOM material at the order's warehouse, scaled to the plan. */
  function StartLines(items: seq<BOMItem>, multiplier: real, warehouse: nat): (r: seq<Line>)
    ensures |r| == |items|
    ensures forall i | 0 <= i < |items| ::
              r[i] == Line(Key(RawMaterial(items[i].rawMaterial), warehouse), Required(items[i], multiplier))
    ensures LedgerProps.AllOfKind(r, false)
  {
    seq(|items|, i requires 0 <= i < |items| =>
      Line(Key(RawMaterial(items[i].rawMaterial), warehouse), Required(items[i], multiplier)))
  }

  /** The usage row of one BOM line: the required quantity at the material's last price (0 when unset). */
  function Usage(item: BOMItem, multiplier: real, prices: map<nat, real>): (u: MaterialUsage)
    ensures u.rawMaterial == item.rawMaterial && u.quantityUsed == Required(item, multiplier)
    ensures u.unitCost == PriceOr0(prices, item.rawMaterial) && u.totalCost == u.quantityUsed * u.unitCost
  {
    var q := Required(item, multiplier);
    var price := PriceOr0(prices, item.rawMaterial);
    MaterialUsage(item.rawMaterial, q, price, q * price)
  }

  /** start's loop: one usage row per BOM line and the running material cost. */
  method ComputeUsages(items: seq<BOMItem>, multiplier: real, prices: map<nat, real>)
    returns (usages: seq<MaterialUsage>, total: real)
    ensures |usages| == |items|
    ensures forall i | 0 <= i < |items| :: usages[i] == Usage(items[i], multiplier, prices)
    ensures total == ScaledCost(items, multiplier, prices)
  {
    usages := [];
    total := 0.0;
    var i := 0;
    while i < |items|
      invariant 0 <= i <= |items|
      invariant |usages| == i
      invariant forall j | 0 <= j < i :: usages[j] == Usage(items[j], multiplier, prices)
      invariant total == ScaledCost(items[..i], multiplier, prices)
    {
      assert items[..i + 1][..i] == items[..i];
      var u := Usage(items[i], multiplier, prices);
      usages := usages + [u];
      total := total + u.totalCost;
      i := i + 1;
    }
    assert items[..|items|] == items;
  }

  /** The start figures `start` writes onto the order. */
  method RecordStart(po: ProductionOrder, usages: seq<MaterialUsage>, total: real, startedAt: string, operator: string, user: nat)
    modifies po
    ensures po.status == InProgress && po.usages == usages && po.totalMaterialCost == total
    ensures po.startedAt == Some(startedAt) && po.operator == Some(operator) && po.startedBy == Some(user)
    ensures po.quantityPlan == old(po.quantityPlan) && po.deleted == old(po.deleted)
    ensures po.productionDate == old(po.productionDate) && po.notes == old(po.notes) && po.releasedBy == old(po.releasedBy) && po.releasedAt == old(po.releasedAt)
  {
    po.usages := usages;
    po.totalMaterialCost := total;
    po.status := InProgress;
    po.startedAt := Some(startedAt);
    po.startedBy := Some(user);
    po.operator := Some(operator);
  }

  /**
   * start: a soft-deleted order is not found (404); only from released (422); an
   * order whose BOM was soft-deleted finds no BOM to scale by (500). Every BOM line's (material, warehouse) row is
   * lowered by line quantity x plan / batch size, with no check that it covers it;
   * a missing row aborts everything (500). On success one usage row and one `OUT`
   * row per line are written, the material cost is recorded and the order is in progress.
   */
  method Start(po: ProductionOrder, bom: BillOfMaterial, ledger: Ledger, prices: map<nat, real>,
               startedAt: string, operator: string, user: nat)
    returns (r: Outcome)
    requires bom.batchSize >= 1.0
    modifies po, ledger
    ensures old(po.deleted) ==> r == Refused(NOT_FOUND) && unchanged(po) && ledger.Untouched()
    ensures !old(po.deleted) && old(po.status) != Released ==> r == Refused(UNPROCESSABLE) && unchanged(po) && ledger.Untouched()
    ensures !old(po.deleted) && old(po.status) == Released && bom.deleted ==>
              r == Refused(SERVER_ERROR) && unchanged(po) && ledger.Untouched()
    ensures !old(po.deleted) && old(po.status) == Released && !bom.deleted
            && Decremented(old(ledger.stock), StartLines(bom.items, Multiplier(po.quantityPlan, bom.batchSize), po.warehouse)).None? ==>
              r == Refused(SERVER_ERROR) && unchanged(po) && ledger.Untouched()
    ensures !old(po.deleted) && old(po.status) == Released && !bom.deleted
            && Decremented(old(ledger.stock), StartLines(bom.items, Multiplier(po.quantityPlan, bom.batchSize), po.warehouse)).Some? ==>
              && r == Done
              && ledger.stock == Decremented(old(ledger.stock), StartLines(bom.items, Multiplier(po.quantityPlan, bom.batchSize), po.warehouse)).value
              && ledger.rawLog == old(ledger.rawLog) + Entries(StartLines(bom.items, Multiplier(po.quantityPlan, bom.batchSize), po.warehouse), StartSpec(po.id), false)
              && po.status == InProgress
              && po.totalMaterialCost == ScaledCost(bom.items, Multiplier(po.quantityPlan, bom.batchSize), prices)
              && |po.usages| == |bom.items|
              && (forall i | 0 <= i < |bom.items| :: po.usages[i] == Usage(bom.items[i], Multiplier(po.quantityPlan, bom.batchSize), prices))
              && po.startedAt == Some(startedAt) && po.operator == Some(operator) && po.startedBy == Some(user)
    ensures ledger.productLog == old(ledger.productLog)
    ensures po.quantityPlan == old(po.quantityPlan) && po.deleted == old(po.deleted)
    ensures po.productionDate == old(po.productionDate) && po.notes == old(po.notes) && po.releasedBy == old(po.releasedBy) && po.releasedAt == old(po.releasedAt)
  {
    if po.deleted {
      return Refused(NOT_FOUND);
    }
    if po.status != Released {
      return Refused(UNPROCESSABLE);
    }
    if bom.deleted {
      return Refused(SERVER_ERROR);
    }
    var multiplier := Multiplier(po.quantityPlan, bom.batchSize);
    var lines := StartLines(bom.items, multiplier, po.warehouse);
    LedgerProps.EntriesOtherKindEmpty(lines, StartSpec(po.id), true);
    var ok := ledger.DecrementExisting(lines, StartSpec(po.id));
    if !ok {
      return Refused(SERVER_ERROR);
    }
    var usages, total := ComputeUsages(bom.items, multiplier, prices);
    RecordStart(po, usages, total, startedAt, operator, user);
    return Done;
  }

  /**
   * Start succeeds exactly when every material has a row at the warehouse, whatever
   * its balance; each row then drops by the total the BOM asks of it, one `OUT` row
   * per line carries the required quantity, the ledger stays reconciled, and the
   * recorded material cost is plan / batch size times the BOM's cost per batch.
   */
  lemma StartEffects(stock: Stock, p: seq<Movement>, r: seq<Movement>, bom: BillOfMaterial, quantityPlan: real,
                     warehouse: nat, id: nat, prices: map<nat, real>)
    requires bom.batchSize >= 1.0
    ensures var lines := StartLines(bom.items, Multiplier(quantityPlan, bom.batchSize), warehouse);
      Decremented(stock, lines).Some?
      <==> forall i | 0 <= i < |bom.items| :: Key(RawMaterial(bom.items[i].rawMaterial), warehouse) in stock
    ensures var lines := StartLines(bom.items, Multiplier(quantityPlan, bom.batchSize), warehouse);
      Decremented(stock, lines).Some? ==>
        forall k | k in stock :: k in Decremented(stock, lines).value && Decremented(stock, lines).value[k] == stock[k] - QtyFor(lines, k)
    ensures var m := Multiplier(quantityPlan, bom.batchSize);
      var e := Entries(StartLines(bom.items, m, warehouse), StartSpec(id), false);
      && |e| == |bom.items|
      && forall i | 0 <= i < |bom.items| ::
           e[i] == Movement(bom.items[i].rawMaterial, warehouse, "OUT", Required(bom.items[i], m), Doc("App\\Models\\ProductionOrder", id))
    ensures var lines := StartLines(bom.items, Multiplier(quantityPlan, bom.batchSize), warehouse);
      Reconciled(stock, p, r) && Decremented(stock, lines).Some? ==>
        Reconciled(Decremented(stock, lines).value, p + Entries(lines, StartSpec(id), true), r + Entries(lines, StartSpec(id), false))
    ensures ScaledCost(bom.items, Multiplier(quantityPlan, bom.batchSize), prices)
         == Multiplier(quantityPlan, bom.batchSize) * MaterialCost(bom.items, prices)
  {
    var m := Multiplier(quantityPlan, bom.batchSize);
    var lines := StartLines(bom.items, m, warehouse);
    LedgerProps.DecrementSucceedsIff(stock, lines);
    if Decremented(stock, lines).Some? {
      LedgerProps.DecrementedAt(stock, lines);
    }
    LedgerProps.EntriesOnePerLine(lines, StartSpec(id), false);
    if Reconciled(stock, p, r) && Decremented(stock, lines).Some? {
      LedgerProps.DecrementReconciles(stock, p, r, lines, StartSpec(id));
    }
    ScaledCostIsScaled(bom.items, m, prices);
  }

  /**
   * Start does not re-check sufficiency: when every material has a row at the
   * warehouse but one line is short in release's sense (say a row of 2 that the
   * plan asks 5 of), release reports a shortfall, yet start still succeeds and
   * leaves that row negative.
   */
  lemma StartCanOverdraw(items: seq<BOMItem>, multiplier: real, stock: Stock, warehouse: nat, i: nat)
    requires multiplier >= 0.0
    requires forall j | 0 <= j < |items| :: items[j].quantity >= 0.0
    requires forall j | 0 <= j < |items| :: Key(RawMaterial(items[j].rawMaterial), warehouse) in stock
    requires i < |items| && Short(items[i], multiplier, stock, warehouse)
    ensures Shortfalls(items, multiplier, stock, warehouse) != []
    ensures Decremented(stock, StartLines(items, multiplier, warehouse)).Some?
    ensures var after := Decremented(stock, StartLines(items, multiplier, warehouse)).value;
            var k := Key(RawMaterial(items[i].rawMaterial), warehouse);
            k in after && after[k] < 0.0
  {
    var lines := StartLines(items, multiplier, warehouse);
    var k := Key(RawMaterial(items[i].rawMaterial), warehouse);
    NoShortfallIff(items, multiplier, stock, warehouse);
    LedgerProps.DecrementSucceedsIff(stock, lines);
    LedgerProps.DecrementedAt(stock, lines);
    forall j | 0 <= j < |lines| ensures lines[j].qty >= 0.0 {
      RequiredNonNegative(items[j], multiplier);
    }
    assert lines[i].key == k;
    LedgerProps.QtyForCoversLine(lines, i);
  }

  lemma RequiredNonNegative(item: BOMItem, multiplier: real)
    requires item.quantity >= 0.0 && multiplier >= 0.0
    ensures Required(item, multiplier) >= 0.0
  {
  }

  /** The missing-value default of labor and overhead cost. */
  function OrZero(x: Option<real>): (v: real)
    ensures x.Some? ==> v == x.value
    ensures x.None? ==> v == 0.0
  {
    if x.Some? then x.value else 0.0
  }

  /** Cost of goods per unit: the total production cost spread over the units actually made. */
  function Hpp(total: real, quantityActual: real): (h: real)
    requires quantityActual > 0.0
    ensures h * quantityActual == total
  {
    total / quantityActual
  }

  /** The finished-goods line of `complete`. */
  function OutputLine(product: nat, warehouse: nat, quantity: real): (l: Line)
    ensures l.key == Key(Product(product), warehouse) && l.qty == quantity
  {
    Line(Key(Product(product), warehouse), quantity)
  }

  /** The quantities and costs `complete` writes onto the order, with HPP = production cost / actual quantity. */
  method RecordFigures(po: ProductionOrder, quantityActual: real, quantityWaste: real, laborCost: real, overheadCost: real)
    requires quantityActual >= 0.001
    modifies po
    ensures po.quantityActual == quantityActual && po.quantityWaste == quantityWaste
    ensures po.laborCost == laborCost && po.overheadCost == overheadCost
    ensures po.totalProductionCost == old(po.totalMaterialCost) + laborCost + overheadCost
    ensures po.hppPerUnit * quantityActual == po.totalProductionCost
    ensures po.status == old(po.status) && po.completedAt == old(po.completedAt) && po.completedBy == old(po.completedBy)
    ensures po.completionNotes == old(po.completionNotes)
    ensures po.totalMaterialCost == old(po.totalMaterialCost) && po.usages == old(po.usages)
    ensures po.quantityPlan == old(po.quantityPlan) && po.deleted == old(po.deleted)
    ensures po.productionDate == old(po.productionDate) && po.notes == old(po.notes) && po.releasedBy == old(po.releasedBy) && po.releasedAt == old(po.releasedAt)
    ensures po.startedAt == old(po.startedAt) && po.startedBy == old(po.startedBy) && po.operator == old(po.operator)
  {
    var total := po.totalMaterialCost + laborCost + overheadCost;
    var hpp := Hpp(total, quantityActual);
    po.quantityActual := quantityActual;
    po.quantityWaste := quantityWaste;
    po.laborCost := laborCost;
    po.overheadCost := overheadCost;
    po.totalProductionCost := total;
    po.hppPerUnit := hpp;
  }

  /** The completion figures `complete` writes onto the order. */
  method RecordCompletion(po: ProductionOrder, quantityActual: real, quantityWaste: real, laborCost: real, overheadCost: real,
                          completedAt: string, notes: Option<string>, user: nat)
    requires quantityActual >= 0.001
    modifies po
    ensures po.status == Completed
    ensures po.quantityActual == quantityActual && po.quantityWaste == quantityWaste
    ensures po.laborCost == laborCost && po.overheadCost == overheadCost
    ensures po.totalProductionCost == old(po.totalMaterialCost) + laborCost + overheadCost
    ensures po.hppPerUnit * quantityActual == po.totalProductionCost
    ensures po.completedAt == Some(completedAt) && po.completedBy == Some(user) && po.completionNotes == notes
    ensures po.totalMaterialCost == old(po.totalMaterialCost) && po.usages == old(po.usages)
    ensures po.quantityPlan == old(po.quantityPlan) && po.deleted == old(po.deleted)
    ensures po.productionDate == old(po.productionDate) && po.notes == old(po.notes) && po.releasedBy == old(po.releasedBy) && po.releasedAt == old(po.releasedAt)
    ensures po.startedAt == old(po.startedAt) && po.startedBy == old(po.startedBy) && po.operator == old(po.operator)
  {
    RecordFigures(po, quantityActual, quantityWaste, laborCost, overheadCost);
    po.status := Completed;
    po.completedAt := Some(completedAt);
    po.completedBy := Some(user);
    po.completionNotes := notes;
  }

  /**
   * complete: a soft-deleted order is not found (404); only from in progress (422). The production cost is material + labor
   * + overhead (missing ones 0), HPP is that total over the actual quantity, the
   * finished product's row is credited with the actual quantity (created at 0),
   * one `in` row is logged and the order is completed.
   */
  method Complete(po: ProductionOrder, ledger: Ledger, quantityActual: real, quantityWaste: Option<real>,
                  completedAt: string, laborCost: Option<real>, overheadCost: Option<real>, notes: Option<string>, user: nat)
    returns (r: Outcome)
    requires quantityActual >= 0.001
    modifies po, ledger
    ensures old(po.deleted) ==> r == Refused(NOT_FOUND) && unchanged(po) && ledger.Untouched()
    ensures !old(po.deleted) && old(po.status) != InProgress ==> r == Refused(UNPROCESSABLE) && unchanged(po) && ledger.Untouched()
    ensures !old(po.deleted) && old(po.status) == InProgress ==>
              && r == Done
              && po.status == Completed
              && po.quantityActual == quantityActual && po.quantityWaste == OrZero(quantityWaste)
              && po.laborCost == OrZero(laborCost) && po.overheadCost == OrZero(overheadCost)
              && po.totalProductionCost == old(po.totalMaterialCost) + OrZero(laborCost) + OrZero(overheadCost)
              && po.hppPerUnit * quantityActual == po.totalProductionCost
              && po.completedAt == Some(completedAt) && po.completedBy == Some(user) && po.completionNotes == notes
              && ledger.stock == Incremented(old(ledger.stock), [OutputLine(po.product, po.warehouse, quantityActual)])
              && ledger.productLog == old(ledger.productLog) + Entries([OutputLine(po.product, po.warehouse, quantityActual)], CompleteSpec(po.id), true)
              && ledger.rawLog == old(ledger.rawLog)
    ensures po.totalMaterialCost == old(po.totalMaterialCost) && po.usages == old(po.usages)
    ensures po.quantityPlan == old(po.quantityPlan) && po.deleted == old(po.deleted)
    ensures po.productionDate == old(po.productionDate) && po.notes == old(po.notes) && po.releasedBy == old(po.releasedBy) && po.releasedAt == old(po.releasedAt)
    ensures po.startedAt == old(po.startedAt) && po.startedBy == old(po.startedBy) && po.operator == old(po.operator)
  {
    if po.deleted {
      return Refused(NOT_FOUND);
    }
    if po.status != InProgress {
      return Refused(UNPROCESSABLE);
    }
    var lines := [OutputLine(po.product, po.warehouse, quantityActual)];
    assert LedgerProps.AllOfKind(lines, true);
    LedgerProps.EntriesOtherKindEmpty(lines, CompleteSpec(po.id), false);
    ledger.IncrementAll(lines, CompleteSpec(po.id));
    RecordCompletion(po, quantityActual, OrZero(quantityWaste), OrZero(laborCost), OrZero(overheadCost), completedAt, notes, user);
    return Done;
  }

  /**
   * Completing credits exactly the actual quantity to the product's row at the
   * order's warehouse (from 0 when the row is new), leaves every other row alone,
   * logs one `in` row with that quantity, and keeps the ledger reconciled.
   */
  lemma CompleteEffects(stock: Stock, p: seq<Movement>, r: seq<Movement>, product: nat, warehouse: nat, quantity: real, id: nat)
    ensures var s := Incremented(stock, [OutputLine(product, warehouse, quantity)]);
      && s[Key(Product(product), warehouse)] == BalanceOr0(stock, Key(Product(product), warehouse)) + quantity
      && forall k | k != Key(Product(product), warehouse) :: (k in s <==> k in stock) && BalanceOr0(s, k) == BalanceOr0(stock, k)
    ensures Entries([OutputLine(product, warehouse, quantity)], CompleteSpec(id), true)
         == [Movement(product, warehouse, "in", quantity, Doc("production", id))]
    ensures Reconciled(stock, p, r) ==>
              Reconciled(Incremented(stock, [OutputLine(product, warehouse, quantity)]),
                         p + Entries([OutputLine(product, warehouse, quantity)], CompleteSpec(id), true),
                         r + Entries([OutputLine(product, warehouse, quantity)], CompleteSpec(id), false))
  {
    var lines := [OutputLine(product, warehouse, quantity)];
    assert lines[..0] == [];
    forall k | k != Key(Product(product), warehouse)
      ensures var s := Incremented(stock, lines); (k in s <==> k in stock) && BalanceOr0(s, k) == BalanceOr0(stock, k)
    {
      LedgerProps.IncrementedAt(stock, lines, k);
    }
    if Reconciled(stock, p, r) {
      LedgerProps.IncrementReconciles(stock, p, r, lines, CompleteSpec(id));
    }
  }

  /** Actual output as a percentage of the plan. */
  function Efficiency(quantityActual: real, quantityPlan: real): (e: real)
    requires quantityPlan >= 1.0
    ensures e * quantityPlan == quantityActual * 100.0
    ensures e == 100.0 <==> quantityActual == quantityPlan
    ensures e < 100.0 <==> quantityActual < quantityPlan
  {
    quantityActual / quantityPlan * 100.0
  }

  /** The figures getReport returns. */
  datatype Report = Report(quantityPlan: real, quantityActual: real, quantityWaste: real, efficiency: real,
                           materialCost: real, laborCost: real, overheadCost: real, totalProductionCost: real,
                           hppPerUnit: real, usages: seq<MaterialUsage>)

  /** getReport: a soft-deleted order is not found (404); only for a completed order (422); efficiency is actual / plan x 100, the costs are read back as stored. */
  method GetReport(po: ProductionOrder) returns (r: Result<Report>)
    requires po.quantityPlan >= 1.0
    ensures po.deleted <==> r == Err(NOT_FOUND)
    ensures !po.deleted && po.status != Completed <==> r == Err(UNPROCESSABLE)
    ensures r.Ok? ==>
              && r.value.efficiency * po.quantityPlan == po.quantityActual * 100.0
              && r.value.quantityPlan == po.quantityPlan && r.value.quantityActual == po.quantityActual
              && r.value.quantityWaste == po.quantityWaste
              && r.value.materialCost == po.totalMaterialCost && r.value.laborCost == po.laborCost
              && r.value.overheadCost == po.overheadCost && r.value.totalProductionCost == po.totalProductionCost
              && r.value.hppPerUnit == po.hppPerUnit && r.value.usages == po.usages
  {
    if po.deleted {
      return Err(NOT_FOUND);
    }
    if po.status != Completed {
      return Err(UNPROCESSABLE);
    }
    return Ok(Report(po.quantityPlan, po.quantityActual, po.quantityWaste, Efficiency(po.quantityActual, po.quantityPlan),
                     po.totalMaterialCost, po.laborCost, po.overheadCost, po.totalProductionCost, po.hppPerUnit, po.usages));
  }
}

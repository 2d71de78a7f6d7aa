/**
 * Raw-material stock adjustments: one request sets an existing (material,
 * warehouse) balance to a counted quantity, records before/after/difference,
 * and logs one `ADJUSTMENT` row.
 */
module RawStockAdjustments {
  import opened Common
  import opened Ledger
  import LedgerProps
  import StockMovements

  /** The stored adjustment record. */
  datatype RawAdjustment = RawAdjustment(rawMaterial: nat, warehouse: nat, before: real, after: real, difference: real, reason: string)

  function AdjustRef(id: nat): Ref
  {
    Doc("App\\Models\\RawMaterialStockAdjustment", id)
  }

  /** The log row as the controller writes it: the size of the change, its sign dropped. */
  function MovementAsWritten(id: nat, rawMaterial: nat, warehouse: nat, difference: real): (m: Movement)
    ensures m.quantity >= 0.0 && (m.quantity == difference || m.quantity == -difference)
    ensures m.mtype == "ADJUSTMENT" && m.item == rawMaterial && m.warehouse == warehouse
  {
    Movement(rawMaterial, warehouse, "ADJUSTMENT", if difference < 0.0 then -difference else difference, AdjustRef(id))
  }

  /** The log row with the signed difference, so that `ADJUSTMENT` (+1) moves the summary by the real change. */
  function AdjustMovement(id: nat, rawMaterial: nat, warehouse: nat, difference: real): (m: Movement)
    ensures Sign(false, m.mtype) * m.quantity == difference
    ensures m.item == rawMaterial && m.warehouse == warehouse && m.ref == AdjustRef(id)
  {
    Movement(rawMaterial, warehouse, "ADJUSTMENT", difference, AdjustRef(id))
  }

  /**
   * store: the (material, warehouse) row must exist (404 otherwise, nothing
   * changes); the record keeps before, after and difference = after - before, the
   * row is set to exactly `after`, and one `ADJUSTMENT` row is logged.
   */
  method Store(ledger: Ledger, id: nat, rawMaterial: nat, warehouse: nat, after: real, reason: string)
    returns (r: Result<RawAdjustment>)
    requires after >= 0.0
    modifies ledger
    ensures Key(RawMaterial(rawMaterial), warehouse) !in old(ledger.stock) ==> r == Err(NOT_FOUND) && ledger.Untouched()
    ensures Key(RawMaterial(rawMaterial), warehouse) in old(ledger.stock) ==>
              && r.Ok?
              && r.value.before == old(ledger.stock)[Key(RawMaterial(rawMaterial), warehouse)]
              && r.value.after == after
              && r.value.before + r.value.difference == r.value.after
              && r.value.rawMaterial == rawMaterial && r.value.warehouse == warehouse && r.value.reason == reason
              && ledger.stock == old(ledger.stock)[Key(RawMaterial(rawMaterial), warehouse) := after]
              && ledger.rawLog == old(ledger.rawLog) + [AdjustMovement(id, rawMaterial, warehouse, r.value.difference)]
    ensures ledger.productLog == old(ledger.productLog)
  {
    var k := Key(RawMaterial(rawMaterial), warehouse);
    if k !in ledger.stock {
      return Err(NOT_FOUND);
    }
    var before := ledger.stock[k];
    var diff := after - before;
    var record := RawAdjustment(rawMaterial, warehouse, before, after, diff, reason);
    ledger.SetBalance(k, after, AdjustMovement(id, rawMaterial, warehouse, diff));
    return Ok(record);
  }

  /** With the signed row, an adjustment keeps the ledger reconciled and moves the summary by exactly after - before. */
  lemma StoreReconciles(stock: Stock, p: seq<Movement>, r: seq<Movement>, id: nat, rawMaterial: nat, warehouse: nat, after: real)
    requires Key(RawMaterial(rawMaterial), warehouse) in stock
    ensures var k := Key(RawMaterial(rawMaterial), warehouse);
      var m := AdjustMovement(id, rawMaterial, warehouse, after - stock[k]);
      && (Reconciled(stock, p, r) ==> Reconciled(stock[k := after], p, r + [m]))
      && StockMovements.RawCurrentStock(r + [m], rawMaterial) == StockMovements.RawCurrentStock(r, rawMaterial) + (after - stock[k])
  {
    var k := Key(RawMaterial(rawMaterial), warehouse);
    var m := AdjustMovement(id, rawMaterial, warehouse, after - stock[k]);
    if Reconciled(stock, p, r) {
      LedgerProps.ReconciledStep(stock, p, r, k, m, after - stock[k]);
      assert stock[k := BalanceOr0(stock, k) + (after - stock[k])] == stock[k := after];
    }
    StockMovements.SummaryIsSignedTotal(p, r + [m], rawMaterial);
    StockMovements.SummaryIsSignedTotal(p, r, rawMaterial);
    StockMovements.SignedTotalAppend(r, m, false, rawMaterial);
  }

  /**
   * As written, lowering a balance breaks the log: a row holding 10 whose log says
   * IN 10 is counted down to 4, but the unsigned `ADJUSTMENT` row adds 6, so the
   * log now says 16 for that row and the summary reports 16.
   */
  lemma AsWrittenLoweringAddsToLog()
    ensures var k := Key(RawMaterial(1), 1);
      var r := [Movement(1, 1, "IN", 10.0, NoRef)];
      var m := MovementAsWritten(0, 1, 1, 4.0 - 10.0);
      && Reconciled(map[k := 10.0], [], r)
      && !Reconciled(map[k := 10.0][k := 4.0], [], r + [m])
      && Net([], r + [m], k) == 16.0
      && StockMovements.RawCurrentStock(r + [m], 1) == 16.0
  {
    var k := Key(RawMaterial(1), 1);
    var r := [Movement(1, 1, "IN", 10.0, NoRef)];
    var m := MovementAsWritten(0, 1, 1, 4.0 - 10.0);
    assert r + [m] == [r[0], m];
    assert [r[0], m][..1] == r && r[..0] == [];
    forall k' ensures BalanceOr0(map[k := 10.0], k') == Net([], r, k') {
      assert r[..0] == [];
      assert NetAt(r, false, k'.item.id, k'.warehouse) == Contribution(r[0], false, k'.item.id, k'.warehouse);
    }
    assert Reconciled(map[k := 10.0], [], r);
    assert NetAt(r + [m], false, 1, 1) == 16.0;
    assert Net([], r + [m], k) == 16.0;
    assert !Reconciled(map[k := 10.0][k := 4.0], [], r + [m]);
    StockMovements.SummaryIsSignedTotal([], r + [m], 1);
    assert StockMovements.RawCurrentStock(r + [m], 1) == 16.0;
  }
}

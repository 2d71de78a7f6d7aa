/**
 * Bills of materials: the raw materials, with quantities, that make one batch
 * of a product, and the material cost of a batch and of a unit.
 */
module BillOfMaterials {
  import opened Common

  /** One submitted line: a raw material, its quantity per batch, and an optional unit. */
  datatype BOMInput = BOMInput(rawMaterial: nat, quantity: real, unit: Option<nat>)

  datatype BOMItem = BOMItem(rawMaterial: nat, quantity: real, unit: nat)

  datatype BillOfMaterial = BillOfMaterial(product: nat, batchSize: real, unit: nat, notes: string, active: bool, items: seq<BOMItem>, deleted: bool)

  /** One line of the cost breakdown. */
  datatype CostDetail = CostDetail(rawMaterial: nat, quantity: real, unitPrice: real, totalCost: real)

  /** A material's last purchase price, 0 when it has none. */
  function PriceOr0(prices: map<nat, real>, material: nat): real
  {
    if material in prices then prices[material] else 0.0
  }

  /**
   * store: an active BOM for the product, in the product's unit, with one item per
   * line. A line sent without a unit falls back on its material's `unit_id`, a
   * column raw materials do not have (they keep their unit as text); the null then
   * fails the item insert, which the try turns into a 500 with everything rolled back.
   */
  function Store(product: nat, productUnit: nat, batchSize: real, notes: string, inputs: seq<BOMInput>): (r: Result<BillOfMaterial>)
    requires batchSize >= 1.0 && |inputs| >= 1
    requires forall i | 0 <= i < |inputs| :: inputs[i].quantity >= 0.001
    ensures (exists i | 0 <= i < |inputs| :: inputs[i].unit.None?) <==> r == Err(SERVER_ERROR)
    ensures r.Err? ==> r == Err(SERVER_ERROR)
    ensures r.Ok? ==>
              && r.value.product == product && r.value.unit == productUnit && r.value.batchSize == batchSize
              && r.value.notes == notes && r.value.active && !r.value.deleted
              && |r.value.items| == |inputs|
              && forall i | 0 <= i < |inputs| ::
                   && inputs[i].unit.Some?
                   && r.value.items[i] == BOMItem(inputs[i].rawMaterial, inputs[i].quantity, inputs[i].unit.value)
  {
    if exists i | 0 <= i < |inputs| :: inputs[i].unit.None? then Err(SERVER_ERROR)
    else
      Ok(BillOfMaterial(product, batchSize, productUnit, notes, true,
        seq(|inputs|, i requires 0 <= i < |inputs| => BOMItem(inputs[i].rawMaterial, inputs[i].quantity, inputs[i].unit.value)), false))
  }

  /**
   * update: a soft-deleted BOM is not found; otherwise sets the batch size, and the
   * notes and active flag when they are sent; product, unit and items stay as they are.
   */
  function Update(bom: BillOfMaterial, batchSize: real, notes: Option<string>, active: Option<bool>): (r: Result<BillOfMaterial>)
    requires batchSize >= 1.0
    ensures bom.deleted <==> r == Err(NOT_FOUND)
    ensures r.Ok? ==>
              && r.value.batchSize == batchSize
              && r.value.notes == (if notes.Some? then notes.value else bom.notes)
              && r.value.active == (if active.Some? then active.value else bom.active)
              && r.value.product == bom.product && r.value.unit == bom.unit && r.value.items == bom.items && !r.value.deleted
  {
    if bom.deleted then Err(NOT_FOUND)
    else
      Ok(bom.(batchSize := batchSize,
              notes := if notes.Some? then notes.value else bom.notes,
              active := if active.Some? then active.value else bom.active))
  }

  /** updateItem: a soft-deleted BOM, or an item that is not on this BOM, is 404; otherwise only that item's quantity changes. */
  function UpdateItem(bom: BillOfMaterial, i: int, quantity: real): (r: Result<BillOfMaterial>)
    requires quantity >= 0.001
    ensures bom.deleted || !(0 <= i < |bom.items|) <==> r == Err(NOT_FOUND)
    ensures r.Ok? ==>
              && |r.value.items| == |bom.items|
              && r.value.items[i] == bom.items[i].(quantity := quantity)
              && (forall j | 0 <= j < |bom.items| && j != i :: r.value.items[j] == bom.items[j])
              && r.value == bom.(items := r.value.items)
  {
    if !bom.deleted && 0 <= i < |bom.items| then Ok(bom.(items := bom.items[i := bom.items[i].(quantity := quantity)]))
    else Err(NOT_FOUND)
  }

  /**
   * destroy: a BOM already soft-deleted is not found; otherwise a soft delete that
   * keeps everything else, so that restore brings the BOM back as it was.
   */
  function Destroy(bom: BillOfMaterial): (r: Result<BillOfMaterial>)
    ensures bom.deleted <==> r == Err(NOT_FOUND)
    ensures r.Ok? ==> r.value.deleted && r.value.(deleted := false) == bom
  {
    if bom.deleted then Err(NOT_FOUND) else Ok(bom.(deleted := true))
  }

  /** Updating an item's quantity changes the batch cost by (new - old) x that material's price. */
  lemma {:induction false} UpdateItemMovesCost(items: seq<BOMItem>, i: int, quantity: real, prices: map<nat, real>)
    requires 0 <= i < |items|
    ensures MaterialCost(items[i := items[i].(quantity := quantity)], prices)
         == MaterialCost(items, prices) + (quantity - items[i].quantity) * PriceOr0(prices, items[i].rawMaterial)
    decreases |items|
  {
    var items' := items[i := items[i].(quantity := quantity)];
    if i == |items| - 1 {
      assert items'[..|items'| - 1] == items[..|items| - 1];
    } else {
      assert items'[..|items'| - 1] == items[..|items| - 1][i := items[i].(quantity := quantity)];
      UpdateItemMovesCost(items[..|items| - 1], i, quantity, prices);
    }
  }

  /** Material cost of a batch: the sum over the items of quantity x last purchase price. */
  function MaterialCost(items: seq<BOMItem>, prices: map<nat, real>): real
    decreases |items|
  {
    if items == [] then 0.0
    else
      var it := items[|items| - 1];
      MaterialCost(items[..|items| - 1], prices) + it.quantity * PriceOr0(prices, it.rawMaterial)
  }

  /** The breakdown line of one item: its quantity, its material's price and their product. */
  function Detail(item: BOMItem, prices: map<nat, real>): (d: CostDetail)
    ensures d.rawMaterial == item.rawMaterial && d.quantity == item.quantity
    ensures d.unitPrice == PriceOr0(prices, item.rawMaterial) && d.totalCost == item.quantity * d.unitPrice
  {
    var price := PriceOr0(prices, item.rawMaterial);
    CostDetail(item.rawMaterial, item.quantity, price, item.quantity * price)
  }

  /** What calculateCost reports: the cost per batch and per unit, and one detail per item. */
  datatype Costing = Costing(perBatch: real, perUnit: real, details: seq<CostDetail>)

  /** calculateCost's loop: one detail per item and their running sum. */
  method SumCosts(items: seq<BOMItem>, prices: map<nat, real>) returns (perBatch: real, details: seq<CostDetail>)
    ensures perBatch == MaterialCost(items, prices)
    ensures |details| == |items|
    ensures forall i | 0 <= i < |details| :: details[i] == Detail(items[i], prices)
  {
    perBatch := 0.0;
    details := [];
    var i := 0;
    while i < |items|
      invariant 0 <= i <= |items|
      invariant perBatch == MaterialCost(items[..i], prices)
      invariant |details| == i
      invariant forall j | 0 <= j < i :: details[j] == Detail(items[j], prices)
    {
      var d := Detail(items[i], prices);
      assert items[..i + 1][..i] == items[..i];
      perBatch := perBatch + d.totalCost;
      details := details + [d];
      i := i + 1;
    }
    assert items[..|items|] == items;
  }

  /**
   * calculateCost: a soft-deleted BOM is not found (404); otherwise one detail per
   * item whose total is quantity x price, the cost per batch (their sum) and the
   * cost per unit (per batch / batch_size).
   */
  method CalculateCost(bom: BillOfMaterial, prices: map<nat, real>) returns (r: Result<Costing>)
    requires bom.batchSize >= 1.0
    ensures bom.deleted <==> r == Err(NOT_FOUND)
    ensures r.Err? ==> r == Err(NOT_FOUND)
    ensures r.Ok? ==>
              && r.value.perBatch == MaterialCost(bom.items, prices)
              && r.value.perUnit * bom.batchSize == r.value.perBatch
              && |r.value.details| == |bom.items|
              && forall i | 0 <= i < |r.value.details| :: r.value.details[i] == Detail(bom.items[i], prices)
  {
    if bom.deleted {
      return Err(NOT_FOUND);
    }
    var perBatch, details := SumCosts(bom.items, prices);
    var perUnit := perBatch / bom.batchSize;
    return Ok(Costing(perBatch, perUnit, details));
  }

  /** Cost of the items scaled by `multiplier`: the sum over the items of quantity x multiplier x price. */
  function ScaledCost(items: seq<BOMItem>, multiplier: real, prices: map<nat, real>): real
    decreases |items|
  {
    if items == [] then 0.0
    else
      var it := items[|items| - 1];
      ScaledCost(items[..|items| - 1], multiplier, prices) + (it.quantity * multiplier) * PriceOr0(prices, it.rawMaterial)
  }

  /** Costing each scaled line is the same as scaling the batch cost. */
  lemma {:induction false} ScaledCostIsScaled(items: seq<BOMItem>, multiplier: real, prices: map<nat, real>)
    ensures ScaledCost(items, multiplier, prices) == multiplier * MaterialCost(items, prices)
    decreases |items|
  {
    if items != [] {
      ScaledCostIsScaled(items[..|items| - 1], multiplier, prices);
    }
  }

  /** With non-negative prices the material cost is non-negative. */
  lemma {:induction false} MaterialCostNonNegative(items: seq<BOMItem>, prices: map<nat, real>)
    requires forall i | 0 <= i < |items| :: items[i].quantity >= 0.0
    requires forall m | m in prices :: prices[m] >= 0.0
    ensures MaterialCost(items, prices) >= 0.0
    decreases |items|
  {
    if items != [] {
      var pre := items[..|items| - 1];
      forall i | 0 <= i < |pre| ensures pre[i].quantity >= 0.0 {
        assert pre[i] == items[i];
      }
      MaterialCostNonNegative(pre, prices);
    }
  }
}

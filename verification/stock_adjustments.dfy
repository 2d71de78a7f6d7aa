/**
 * Product stock adjustments (stock opname): a counted quantity per product is
 * recorded against the system quantity in a draft, and posting the draft moves
 * each product's balance by the signed difference.
 */
module StockAdjustments {
  import opened Common
  import opened Ledger
  import LedgerProps

  datatype AdjustmentStatus = Draft | Posted

  /** The status as stored in the database. */
  function StatusName(s: AdjustmentStatus): string
  {
    match s
    case Draft => "draft"
    case Posted => "posted"
  }

  /** One counted product: what the system held, what was counted, and the difference. */
  datatype AdjustmentItem = AdjustmentItem(product: nat, systemQty: real, actualQty: real, difference: real)

  /** One input line of `store`: a product and its counted quantity. */
  datatype CountLine = CountLine(product: nat, actualQty: real)

  // ---------------------------------------------------------------- the item saving hook

  /**
   * The saving hook of an adjustment item: the difference is always recomputed
   * from the two quantities, whatever difference the caller supplied.
   */
  function Saved(item: AdjustmentItem): (r: AdjustmentItem)
    ensures r.product == item.product && r.systemQty == item.systemQty && r.actualQty == item.actualQty
    ensures r.systemQty + r.difference == r.actualQty
    ensures r.difference == 0.0 <==> r.actualQty == r.systemQty
  {
    item.(difference := item.actualQty - item.systemQty)
  }

  // ---------------------------------------------------------------- the header hooks

  /** The updating hook as written: a status change away from "approved" throws. */
  function UpdatingAllowedAsWritten(originalStatus: string, statusDirty: bool): bool
  {
    !(statusDirty && originalStatus == "approved")
  }

  /** The deleting hook as written: deleting a record whose status is "approved" throws. */
  function DeletingAllowedAsWritten(status: string): bool
  {
    status != "approved"
  }

  /**
   * No adjustment ever has the status "approved" (the statuses are draft and
   * posted), so as written neither hook ever refuses anything.
   */
  lemma HooksNeverFireAsWritten(original: AdjustmentStatus, current: AdjustmentStatus, statusDirty: bool)
    ensures UpdatingAllowedAsWritten(StatusName(original), statusDirty)
    ensures DeletingAllowedAsWritten(StatusName(current))
  {
  }

  /** The updating hook as intended: a status change away from "posted" throws. */
  function UpdatingAllowed(originalStatus: string, statusDirty: bool): bool
  {
    !(statusDirty && originalStatus == "posted")
  }

  /** The deleting hook as intended: deleting a posted record throws. */
  function DeletingAllowed(status: string): bool
  {
    status != "posted"
  }

  /**
   * The hooks as written and as intended disagree exactly on a posted record: the
   * written hooks let a posted adjustment be deleted and moved out of posted, the
   * intended ones refuse both; on a draft they agree.
   */
  lemma HooksDisagreeOnPosted(statusDirty: bool)
    ensures DeletingAllowedAsWritten(StatusName(Posted)) && !DeletingAllowed(StatusName(Posted))
    ensures UpdatingAllowedAsWritten(StatusName(Posted), true) && !UpdatingAllowed(StatusName(Posted), true)
    ensures DeletingAllowedAsWritten(StatusName(Draft)) == DeletingAllowed(StatusName(Draft))
    ensures UpdatingAllowedAsWritten(StatusName(Draft), statusDirty) == UpdatingAllowed(StatusName(Draft), statusDirty)
  {
  }

  // ---------------------------------------------------------------- store

  /** The system quantity as written: the balance row is read through a column it does not have, which is always empty. */
  function SystemQtyAsWritten(stock: Stock, product: nat, warehouse: nat): real
  {
    0.0
  }

  /** The system quantity as intended: the product's balance at the warehouse, zero when there is no row. */
  function SystemQty(stock: Stock, product: nat, warehouse: nat): real
  {
    BalanceOr0(stock, Key(Product(product), warehouse))
  }

  /** The items `store` writes, as written. */
  function CountedItemsAsWritten(lines: seq<CountLine>, stock: Stock, warehouse: nat): (r: seq<AdjustmentItem>)
    ensures |r| == |lines|
    ensures forall i | 0 <= i < |lines| :: r[i].systemQty == 0.0 && r[i].difference == lines[i].actualQty
  {
    seq(|lines|, i requires 0 <= i < |lines| =>
      Saved(AdjustmentItem(lines[i].product, SystemQtyAsWritten(stock, lines[i].product, warehouse), lines[i].actualQty, 0.0)))
  }

  /**
   * The items `store` writes: one per counted line, recording the product's current
   * balance (zero without a row) as the system quantity and the counted quantity
   * minus it as the difference.
   */
  function CountedItems(lines: seq<CountLine>, stock: Stock, warehouse: nat): (r: seq<AdjustmentItem>)
    ensures |r| == |lines|
    ensures forall i | 0 <= i < |lines| ::
      && r[i].product == lines[i].product
      && r[i].actualQty == lines[i].actualQty
      && r[i].systemQty == BalanceOr0(stock, Key(Product(lines[i].product), warehouse))
      && r[i].systemQty + r[i].difference == r[i].actualQty
  {
    seq(|lines|, i requires 0 <= i < |lines| =>
      Saved(AdjustmentItem(lines[i].product, SystemQty(stock, lines[i].product, warehouse), lines[i].actualQty, 0.0)))
  }

  // ---------------------------------------------------------------- post

  /** The ledger lines `post` applies: one per item with a non-zero difference, carrying the signed difference. */
  function AdjustLines(items: seq<AdjustmentItem>, warehouse: nat): seq<Line>
    decreases |items|
  {
    if items == [] then []
    else
      var it := items[|items| - 1];
      AdjustLines(items[..|items| - 1], warehouse)
      + (if it.difference == 0.0 then [] else [Line(Key(Product(it.product), warehouse), it.difference)])
  }

  /** Number of items with a non-zero difference. */
  function NonZeroCount(items: seq<AdjustmentItem>): nat
    decreases |items|
  {
    if items == [] then 0
    else NonZeroCount(items[..|items| - 1]) + (if items[|items| - 1].difference == 0.0 then 0 else 1)
  }

  /** Sum of the differences of the items for one product. */
  function DiffSum(items: seq<AdjustmentItem>, product: nat): real
    decreases |items|
  {
    if items == [] then 0.0
    else DiffSum(items[..|items| - 1], product) + (if items[|items| - 1].product == product then items[|items| - 1].difference else 0.0)
  }

  /** What an adjustment's movements are: "adjustment" rows pointing back to the adjustment. */
  function AdjustSpec(id: nat): LogSpec
  {
    LogSpec("adjustment", "ADJUSTMENT", Doc("App\\Models\\StockAdjustment", id), Doc("App\\Models\\StockAdjustment", id))
  }

  /**
   * Zero-difference items are skipped: every line `post` applies is a product line
   * at the adjustment's warehouse with a non-zero quantity, there is one per
   * non-zero item, and each product's row moves by the sum of its items' differences.
   */
  lemma {:induction false} AdjustLinesShape(items: seq<AdjustmentItem>, warehouse: nat)
    ensures |AdjustLines(items, warehouse)| == NonZeroCount(items)
    ensures forall i | 0 <= i < |AdjustLines(items, warehouse)| ::
      AdjustLines(items, warehouse)[i].key.item.Product? && AdjustLines(items, warehouse)[i].key.warehouse == warehouse
      && AdjustLines(items, warehouse)[i].qty != 0.0
    ensures forall p: nat :: QtyFor(AdjustLines(items, warehouse), Key(Product(p), warehouse)) == DiffSum(items, p)
    decreases |items|
  {
    if items != [] {
      var pre := items[..|items| - 1];
      var it := items[|items| - 1];
      AdjustLinesShape(pre, warehouse);
      var lp := AdjustLines(pre, warehouse);
      if it.difference != 0.0 {
        var l := Line(Key(Product(it.product), warehouse), it.difference);
        assert AdjustLines(items, warehouse) == lp + [l];
        assert (lp + [l])[..|lp|] == lp;
      } else {
        assert AdjustLines(items, warehouse) == lp;
      }
    }
  }

  /** Keys an adjustment at `warehouse` never touches. */
  lemma {:induction false} AdjustLinesElsewhere(items: seq<AdjustmentItem>, warehouse: nat, k: Key)
    requires k.item.RawMaterial? || k.warehouse != warehouse
    ensures QtyFor(AdjustLines(items, warehouse), k) == 0.0
    decreases |items|
  {
    if items != [] {
      var pre := items[..|items| - 1];
      var it := items[|items| - 1];
      AdjustLinesElsewhere(pre, warehouse, k);
      var lp := AdjustLines(pre, warehouse);
      if it.difference != 0.0 {
        var l := Line(Key(Product(it.product), warehouse), it.difference);
        assert AdjustLines(items, warehouse) == lp + [l];
        assert (lp + [l])[..|lp|] == lp;
      } else {
        assert AdjustLines(items, warehouse) == lp;
      }
    }
  }

  predicate DistinctProducts(lines: seq<CountLine>)
  {
    forall i, j | 0 <= i < j < |lines| :: lines[i].product != lines[j].product
  }

  /** With distinct products, a product's difference sum is its one item's difference. */
  lemma {:induction false} DiffSumSingle(lines: seq<CountLine>, stock: Stock, warehouse: nat, i: nat)
    requires DistinctProducts(lines)
    requires i < |lines|
    ensures DiffSum(CountedItems(lines, stock, warehouse), lines[i].product) == CountedItems(lines, stock, warehouse)[i].difference
    decreases |lines|
  {
    var items := CountedItems(lines, stock, warehouse);
    var pre := lines[..|lines| - 1];
    var itemsPre := CountedItems(pre, stock, warehouse);
    assert items[..|items| - 1] == itemsPre;
    if i == |lines| - 1 {
      DiffSumAbsent(pre, stock, warehouse, lines[i].product);
    } else {
      assert pre[i] == lines[i];
      DiffSumSingle(pre, stock, warehouse, i);
    }
  }

  lemma {:induction false} DiffSumAbsent(lines: seq<CountLine>, stock: Stock, warehouse: nat, p: nat)
    requires forall i | 0 <= i < |lines| :: lines[i].product != p
    ensures DiffSum(CountedItems(lines, stock, warehouse), p) == 0.0
    decreases |lines|
  {
    if lines != [] {
      var pre := lines[..|lines| - 1];
      assert CountedItems(lines, stock, warehouse)[..|lines| - 1] == CountedItems(pre, stock, warehouse);
      DiffSumAbsent(pre, stock, warehouse, p);
    }
  }

  /**
   * Counting then posting at once makes every counted product's balance equal to
   * the counted quantity (for distinct products), and leaves every other row alone.
   */
  lemma CountThenPostSetsBalance(lines: seq<CountLine>, stock: Stock, warehouse: nat, k: Key)
    requires DistinctProducts(lines)
    ensures forall i | 0 <= i < |lines| ::
      BalanceOr0(Incremented(stock, AdjustLines(CountedItems(lines, stock, warehouse), warehouse)), Key(Product(lines[i].product), warehouse))
      == lines[i].actualQty
    ensures (forall i | 0 <= i < |lines| :: k != Key(Product(lines[i].product), warehouse)) ==>
      BalanceOr0(Incremented(stock, AdjustLines(CountedItems(lines, stock, warehouse), warehouse)), k) == BalanceOr0(stock, k)
  {
    var items := CountedItems(lines, stock, warehouse);
    var adj := AdjustLines(items, warehouse);
    AdjustLinesShape(items, warehouse);
    forall i | 0 <= i < |lines|
      ensures BalanceOr0(Incremented(stock, adj), Key(Product(lines[i].product), warehouse)) == lines[i].actualQty
    {
      LedgerProps.IncrementedAt(stock, adj, Key(Product(lines[i].product), warehouse));
      DiffSumSingle(lines, stock, warehouse, i);
    }
    if forall i | 0 <= i < |lines| :: k != Key(Product(lines[i].product), warehouse) {
      LedgerProps.IncrementedAt(stock, adj, k);
      if k.item.Product? && k.warehouse == warehouse {
        DiffSumAbsent(lines, stock, warehouse, k.item.id);
      } else {
        AdjustLinesElsewhere(items, warehouse, k);
      }
    }
  }

  /**
   * As written, counting a product exactly at its non-zero balance b records a
   * difference of b, and posting it doubles the balance to 2b (a balance of 10
   * counted as 10 becomes 20); as intended the difference is 0 and posting
   * changes nothing.
   */
  lemma CountAsWrittenDoublesBalance(stock: Stock, product: nat, warehouse: nat)
    requires Key(Product(product), warehouse) in stock && stock[Key(Product(product), warehouse)] != 0.0
    ensures var b := stock[Key(Product(product), warehouse)];
            var asWritten := CountedItemsAsWritten([CountLine(product, b)], stock, warehouse);
            && asWritten[0].difference == b
            && BalanceOr0(Incremented(stock, AdjustLines(asWritten, warehouse)), Key(Product(product), warehouse)) == 2.0 * b
    ensures var b := stock[Key(Product(product), warehouse)];
            var intended := CountedItems([CountLine(product, b)], stock, warehouse);
            && intended[0].difference == 0.0
            && Incremented(stock, AdjustLines(intended, warehouse)) == stock
  {
    var k := Key(Product(product), warehouse);
    var lines := [CountLine(product, stock[k])];
    var asWritten := CountedItemsAsWritten(lines, stock, warehouse);
    assert asWritten == [asWritten[0]];
    AdjustSingle(asWritten[0], warehouse);
    IncrementSingle(stock, Line(k, stock[k]));
    var intended := CountedItems(lines, stock, warehouse);
    assert intended == [intended[0]];
    AdjustSingle(intended[0], warehouse);
  }

  lemma AdjustSingle(it: AdjustmentItem, warehouse: nat)
    ensures AdjustLines([it], warehouse) == if it.difference == 0.0 then [] else [Line(Key(Product(it.product), warehouse), it.difference)]
  {
    assert [it][..0] == [];
  }

  lemma IncrementSingle(stock: Stock, l: Line)
    ensures Incremented(stock, [l]) == Credit(stock, l.key, l.qty)
  {
    assert [l][..0] == [];
  }

  // ---------------------------------------------------------------- the document

  class Adjustment {
    const id: nat
    var date: string
    var warehouse: nat
    var reason: string
    var notes: string
    var status: AdjustmentStatus
    var items: seq<AdjustmentItem>
    var deleted: bool

    /** store: a draft with one item per counted line, measured against the current balances. */
    constructor Store(id: nat, date: string, warehouse: nat, reason: string, notes: string, lines: seq<CountLine>, stock: Stock)
      requires |lines| >= 1
      requires forall i | 0 <= i < |lines| :: lines[i].actualQty >= 0.0
      ensures this.id == id && this.date == date && this.warehouse == warehouse
      ensures this.reason == reason && this.notes == notes
      ensures status == Draft && !deleted
      ensures items == CountedItems(lines, stock, warehouse)
    {
      this.id := id;
      this.date := date;
      this.warehouse := warehouse;
      this.reason := reason;
      this.notes := notes;
      status := Draft;
      items := CountedItems(lines, stock, warehouse);
      deleted := false;
    }

    /**
     * post: a soft-deleted adjustment is not found; a posted one is refused;
     * otherwise, in one transaction, every non-zero item moves its product's
     * balance (created at zero) by its difference and logs one adjustment row of
     * that signed quantity, and the adjustment becomes posted (a status change the
     * intended updating hook lets through).
     */
    method Post(ledger: Ledger) returns (r: Outcome)
      modifies this, ledger
      ensures old(deleted) ==> r == Refused(NOT_FOUND) && unchanged(this) && ledger.Untouched()
      ensures !old(deleted) && old(status) == Posted ==> r == Refused(UNPROCESSABLE) && unchanged(this) && ledger.Untouched()
      ensures !old(deleted) && old(status) == Draft ==>
                && r == Done && status == Posted && UpdatingAllowed(StatusName(old(status)), true)
                && ledger.stock == Incremented(old(ledger.stock), AdjustLines(items, warehouse))
                && ledger.productLog == old(ledger.productLog) + Entries(AdjustLines(items, warehouse), AdjustSpec(id), true)
      ensures ledger.rawLog == old(ledger.rawLog)
      ensures items == old(items) && warehouse == old(warehouse) && deleted == old(deleted)
      ensures date == old(date) && reason == old(reason) && notes == old(notes)
    {
      if deleted {
        return Refused(NOT_FOUND);
      }
      if status == Posted {
        return Refused(UNPROCESSABLE);
      }
      var lines := AdjustLines(items, warehouse);
      AdjustLinesShape(items, warehouse);
      LedgerProps.EntriesOtherKindEmpty(lines, AdjustSpec(id), false);
      ledger.IncrementAll(lines, AdjustSpec(id));
      status := Posted;
      return Done;
    }

    /**
     * update: a soft-deleted adjustment is not found; otherwise the header fields
     * are replaced (the items are kept) exactly when the intended updating hook
     * would accept a status change, that is, unless the adjustment is posted.
     */
    method Update(date: string, warehouse: nat, reason: string, notes: string) returns (r: Outcome)
      modifies this
      ensures old(deleted) ==> r == Refused(NOT_FOUND) && unchanged(this)
      ensures !old(deleted) ==> (r == Done <==> UpdatingAllowed(StatusName(old(status)), true))
      ensures !old(deleted) && old(status) == Posted ==> r == Refused(UNPROCESSABLE) && unchanged(this)
      ensures !old(deleted) && old(status) != Posted ==>
                r == Done && this.date == date && this.warehouse == warehouse && this.reason == reason && this.notes == notes
      ensures status == old(status) && items == old(items) && deleted == old(deleted)
    {
      if deleted {
        return Refused(NOT_FOUND);
      }
      if status == Posted {
        return Refused(UNPROCESSABLE);
      }
      this.date := date;
      this.warehouse := warehouse;
      this.reason := reason;
      this.notes := notes;
      return Done;
    }

    /**
     * destroy: a soft-deleted adjustment is not found; otherwise it is soft-deleted
     * exactly when the intended deleting hook allows it (it is not posted), and
     * refused with 422 when posted.
     */
    method Destroy() returns (r: Outcome)
      modifies this
      ensures old(deleted) ==> r == Refused(NOT_FOUND) && unchanged(this)
      ensures !old(deleted) ==> (r == Done <==> DeletingAllowed(StatusName(old(status))))
      ensures !old(deleted) && old(status) == Posted ==> r == Refused(UNPROCESSABLE) && unchanged(this)
      ensures !old(deleted) && old(status) != Posted ==> r == Done && deleted
      ensures status == old(status) && items == old(items)
      ensures date == old(date) && warehouse == old(warehouse) && reason == old(reason) && notes == old(notes)
    {
      if deleted {
        return Refused(NOT_FOUND);
      }
      if status == Posted {
        return Refused(UNPROCESSABLE);
      }
      deleted := true;
      return Done;
    }
  }

  /** A posted adjustment is reconciled: its rows and balance changes agree, so posting keeps the ledger reconciled. */
  lemma PostReconciles(stock: Stock, p: seq<Movement>, r: seq<Movement>, items: seq<AdjustmentItem>, warehouse: nat, id: nat)
    requires Reconciled(stock, p, r)
    ensures Reconciled(Incremented(stock, AdjustLines(items, warehouse)),
                       p + Entries(AdjustLines(items, warehouse), AdjustSpec(id), true),
                       r + Entries(AdjustLines(items, warehouse), AdjustSpec(id), false))
  {
    LedgerProps.IncrementReconciles(stock, p, r, AdjustLines(items, warehouse), AdjustSpec(id));
  }
}

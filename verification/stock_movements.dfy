/**
 * The universal movement API: `store` appends one manual movement to the log of
 * the chosen kind, and `getStockSummary` recomputes each item's on-hand quantity
 * over all warehouses from the log alone.
 */
module StockMovements {
  import opened Common
  import opened Ledger

  /** The `category` field of a manual movement. */
  datatype Category = ProductCategory | RawMaterialCategory

  // ---------------------------------------------------------------- ASCII case mapping

  predicate IsUpper(c: char) { 'A' <= c <= 'Z' }
  predicate IsLower(c: char) { 'a' <= c <= 'z' }

  function LowerChar(c: char): char
  {
    if IsUpper(c) then (c as int + 32) as char else c
  }

  function UpperChar(c: char): char
  {
    if IsLower(c) then (c as int - 32) as char else c
  }

  /** strtolower: the same string with every ASCII capital replaced by its small letter. */
  function ToLower(s: string): (r: string)
    ensures |r| == |s|
    ensures forall i | 0 <= i < |r| :: !IsUpper(r[i])
    ensures forall i | 0 <= i < |r| :: r[i] == s[i] || (IsUpper(s[i]) && r[i] as int == s[i] as int + 32)
  {
    seq(|s|, i requires 0 <= i < |s| => LowerChar(s[i]))
  }

  /** strtoupper: the same string with every ASCII small letter replaced by its capital. */
  function ToUpper(s: string): (r: string)
    ensures |r| == |s|
    ensures forall i | 0 <= i < |r| :: !IsLower(r[i])
    ensures forall i | 0 <= i < |r| :: r[i] == s[i] || (IsLower(s[i]) && r[i] as int == s[i] as int - 32)
  {
    seq(|s|, i requires 0 <= i < |s| => UpperChar(s[i]))
  }

  // ---------------------------------------------------------------- store

  /** The row `store` writes: product types are stored lower-cased, raw-material types upper-cased. */
  function ManualMovement(category: Category, item: nat, warehouse: nat, mtype: string, qty: real): (m: Movement)
    ensures m.item == item && m.warehouse == warehouse && m.quantity == qty && m.ref == NoRef
    ensures category == ProductCategory ==> m.mtype == ToLower(mtype) && !IsUpperAny(m.mtype)
    ensures category == RawMaterialCategory ==> m.mtype == ToUpper(mtype) && !IsLowerAny(m.mtype)
  {
    Movement(item, warehouse, if category == ProductCategory then ToLower(mtype) else ToUpper(mtype), qty, NoRef)
  }

  predicate IsUpperAny(s: string) { exists i | 0 <= i < |s| :: IsUpper(s[i]) }
  predicate IsLowerAny(s: string) { exists i | 0 <= i < |s| :: IsLower(s[i]) }

  /**
   * Append one movement to the log of the chosen category; no balance row is read
   * or written. The quantity may have either sign.
   */
  method Store(ledger: Ledger, category: Category, item: nat, warehouse: nat, mtype: string, qty: real) returns (m: Movement)
    modifies ledger
    ensures m == ManualMovement(category, item, warehouse, mtype, qty)
    ensures ledger.stock == old(ledger.stock)
    ensures ledger.productLog == (if category == ProductCategory then old(ledger.productLog) + [m] else old(ledger.productLog))
    ensures ledger.rawLog == (if category == ProductCategory then old(ledger.rawLog) else old(ledger.rawLog) + [m])
  {
    m := ManualMovement(category, item, warehouse, mtype, qty);
    ledger.Record(m, category == ProductCategory);
  }

  // ---------------------------------------------------------------- getStockSummary

  /** Sum of the quantities of one item's rows of one type, over all warehouses. */
  function TypeSum(log: seq<Movement>, item: nat, t: string): real
    decreases |log|
  {
    if log == [] then 0.0
    else
      var m := log[|log| - 1];
      TypeSum(log[..|log| - 1], item, t) + (if m.item == item && m.mtype == t then m.quantity else 0.0)
  }

  /** A product's current_stock: (in + adjustment) - out. */
  function ProductCurrentStock(log: seq<Movement>, item: nat): real
  {
    (TypeSum(log, item, "in") + TypeSum(log, item, "adjustment")) - TypeSum(log, item, "out")
  }

  /** A raw material's current_stock: (IN + TRANSFER_IN + ADJUSTMENT) - (OUT + TRANSFER_OUT). */
  function RawCurrentStock(log: seq<Movement>, item: nat): real
  {
    (TypeSum(log, item, "IN") + TypeSum(log, item, "TRANSFER_IN") + TypeSum(log, item, "ADJUSTMENT"))
    - (TypeSum(log, item, "OUT") + TypeSum(log, item, "TRANSFER_OUT"))
  }

  /** The signed total of one item's rows over all warehouses, each row weighted by its type's sign. */
  function SignedTotal(log: seq<Movement>, product: bool, item: nat): real
    decreases |log|
  {
    if log == [] then 0.0
    else
      var m := log[|log| - 1];
      SignedTotal(log[..|log| - 1], product, item) + (if m.item == item then Sign(product, m.mtype) * m.quantity else 0.0)
  }

  /** One entry of the summary: which item, and its current_stock. */
  datatype SummaryRow = SummaryRow(item: ItemRef, currentStock: real)

  /** getStockSummary: every product, then every raw material, each with its current_stock from the log. */
  function StockSummary(products: seq<nat>, rawMaterials: seq<nat>, productLog: seq<Movement>, rawLog: seq<Movement>): (r: seq<SummaryRow>)
    ensures |r| == |products| + |rawMaterials|
    ensures forall i | 0 <= i < |products| :: r[i].item == Product(products[i]) && r[i].currentStock == SignedTotal(productLog, true, products[i])
    ensures forall j | 0 <= j < |rawMaterials| ::
      r[|products| + j].item == RawMaterial(rawMaterials[j]) && r[|products| + j].currentStock == SignedTotal(rawLog, false, rawMaterials[j])
  {
    SummaryIsSignedTotalAll(productLog, rawLog);
    seq(|products|, i requires 0 <= i < |products| => SummaryRow(Product(products[i]), ProductCurrentStock(productLog, products[i])))
    + seq(|rawMaterials|, j requires 0 <= j < |rawMaterials| => SummaryRow(RawMaterial(rawMaterials[j]), RawCurrentStock(rawLog, rawMaterials[j])))
  }

  /** The summary's type-by-type formulas are the signed total: inbound types add, outbound subtract, nothing else counts. */
  lemma {:induction false} SummaryIsSignedTotal(productLog: seq<Movement>, rawLog: seq<Movement>, item: nat)
    ensures ProductCurrentStock(productLog, item) == SignedTotal(productLog, true, item)
    ensures RawCurrentStock(rawLog, item) == SignedTotal(rawLog, false, item)
    decreases |productLog| + |rawLog|
  {
    if productLog != [] {
      SummaryIsSignedTotal(productLog[..|productLog| - 1], rawLog, item);
    }
    if rawLog != [] {
      SummaryIsSignedTotal(productLog, rawLog[..|rawLog| - 1], item);
    }
  }

  lemma SummaryIsSignedTotalAll(productLog: seq<Movement>, rawLog: seq<Movement>)
    ensures forall item: nat :: ProductCurrentStock(productLog, item) == SignedTotal(productLog, true, item)
    ensures forall item: nat :: RawCurrentStock(rawLog, item) == SignedTotal(rawLog, false, item)
  {
    forall item: nat ensures ProductCurrentStock(productLog, item) == SignedTotal(productLog, true, item)
    {
      SummaryIsSignedTotal(productLog, rawLog, item);
    }
    forall item: nat ensures RawCurrentStock(rawLog, item) == SignedTotal(rawLog, false, item)
    {
      SummaryIsSignedTotal(productLog, rawLog, item);
    }
  }

  lemma SignedTotalAppend(log: seq<Movement>, m: Movement, product: bool, item: nat)
    ensures SignedTotal(log + [m], product, item)
         == SignedTotal(log, product, item) + (if m.item == item then Sign(product, m.mtype) * m.quantity else 0.0)
  {
    assert (log + [m])[..|log|] == log;
  }

  /** A manual movement moves its item's current_stock by its signed quantity, and no other item's. */
  lemma StoreMovesSummary(log: seq<Movement>, category: Category, item: nat, warehouse: nat, mtype: string, qty: real, other: nat)
    ensures SignedTotal(log + [ManualMovement(category, item, warehouse, mtype, qty)], category == ProductCategory, other)
         == SignedTotal(log, category == ProductCategory, other)
            + (if other == item then Sign(category == ProductCategory, ManualMovement(category, item, warehouse, mtype, qty).mtype) * qty else 0.0)
  {
    SignedTotalAppend(log, ManualMovement(category, item, warehouse, mtype, qty), category == ProductCategory, other);
  }

  /** A row whose type is none of the summary's types leaves every current_stock unchanged. */
  lemma UnknownTypeIgnored(log: seq<Movement>, m: Movement, item: nat)
    requires m.mtype !in {"in", "out", "adjustment", "IN", "OUT", "ADJUSTMENT", "TRANSFER_IN", "TRANSFER_OUT"}
    ensures ProductCurrentStock(log + [m], item) == ProductCurrentStock(log, item)
    ensures RawCurrentStock(log + [m], item) == RawCurrentStock(log, item)
  {
    SummaryIsSignedTotal(log + [m], log + [m], item);
    SummaryIsSignedTotal(log, log, item);
    SignedTotalAppend(log, m, true, item);
    SignedTotalAppend(log, m, false, item);
  }

  lemma {:induction false} SignedTotalConcat(a: seq<Movement>, b: seq<Movement>, product: bool, item: nat)
    ensures SignedTotal(a + b, product, item) == SignedTotal(a, product, item) + SignedTotal(b, product, item)
    decreases |b|
  {
    if b == [] {
      assert a + b == a;
    } else {
      var b' := b[..|b| - 1];
      var last := b[|b| - 1];
      SignedTotalConcat(a, b', product, item);
      var c := a + b;
      assert c[..|c| - 1] == a + b' && c[|c| - 1] == last;
      assert b[..|b| - 1] == b';
    }
  }

  /** An outbound row and an inbound row of the same item and quantity cancel out. */
  lemma PairCancels(a: Movement, b: Movement, product: bool, item: nat)
    requires a.item == b.item && a.quantity == b.quantity
    requires Sign(product, a.mtype) == -1.0 && Sign(product, b.mtype) == 1.0
    ensures SignedTotal([a, b], product, item) == 0.0
  {
    SignedTotalAppend([], a, product, item);
    SignedTotalAppend([a], b, product, item);
    assert [] + [a] == [a] && [a] + [b] == [a, b];
  }

  /**
   * The rows a transfer writes leave every item's current_stock unchanged: each
   * outbound row at the source is matched by an inbound row of equal quantity.
   */
  lemma {:induction false} TransferKeepsSummary(log: seq<Movement>, lines: seq<Line>, to: nat, outSpec: LogSpec, inSpec: LogSpec,
                                                product: bool, item: nat)
    requires Sign(product, if product then outSpec.productType else outSpec.rawType) == -1.0
    requires Sign(product, if product then inSpec.productType else inSpec.rawType) == 1.0
    ensures SignedTotal(log + TransferEntries(lines, to, outSpec, inSpec, product), product, item) == SignedTotal(log, product, item)
    decreases |lines|
  {
    if lines == [] {
      assert log + [] == log;
    } else {
      var pre := lines[..|lines| - 1];
      var l := lines[|lines| - 1];
      TransferKeepsSummary(log, pre, to, outSpec, inSpec, product, item);
      var mid := log + TransferEntries(pre, to, outSpec, inSpec, product);
      if l.key.item.Product? == product {
        var pair := [MoveFor(l, outSpec), MoveFor(Line(Dest(l, to), l.qty), inSpec)];
        assert log + TransferEntries(lines, to, outSpec, inSpec, product) == mid + pair;
        SignedTotalConcat(mid, pair, product, item);
        PairCancels(pair[0], pair[1], product, item);
      } else {
        assert log + TransferEntries(lines, to, outSpec, inSpec, product) == mid;
      }
    }
  }
}

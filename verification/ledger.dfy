/**
 * The inventory ledger: the per-(item, warehouse) balance store for products and
 * raw materials, and the two movement logs (product movements and raw-material
 * movements) that every document writes into when it changes a balance.
 *
 * Every balance change in the core is one of four row operations, applied to the
 * document's lines in order inside one transaction:
 *   - increment: create the row at zero when it is missing, then add;
 *   - checked decrement: the row must exist and hold at least the quantity;
 *   - unchecked decrement: the row must exist, its balance may go negative;
 *   - transfer: a checked decrement at the source, an increment at the destination.
 * Each is specified by a pure function over the lines and implemented by a
 * `Ledger` method with a loop, which commits only when every line succeeds.
 */
module Ledger {
  import opened Common

  /** A stocked thing: a finished product or a raw material. */
  datatype ItemRef = Product(id: nat) | RawMaterial(id: nat)

  /** A balance row is unique per item and warehouse. */
  datatype Key = Key(item: ItemRef, warehouse: nat)

  /**
   * What a movement row points back to (reference_type / reference_id): a document,
   * the balance row itself (opening stock), or nothing (a manual movement).
   */
  datatype Ref = Doc(kind: string, id: nat) | BalanceRow(kind: string) | NoRef

  /**
   * One movement row. Product rows go to the product log with lower-case types
   * ("in", "out", "adjustment"); raw-material rows go to the raw log with
   * upper-case types ("IN", "OUT", "ADJUSTMENT", "TRANSFER_IN", "TRANSFER_OUT").
   */
  datatype Movement = Movement(item: nat, warehouse: nat, mtype: string, quantity: real, ref: Ref)

  /** One line of a document as it reaches the ledger: which row, how much. */
  datatype Line = Line(key: Key, qty: real)

  /** Which movement type and reference a document writes, per log. */
  datatype LogSpec = LogSpec(productType: string, rawType: string, productRef: Ref, rawRef: Ref)

  type Stock = map<Key, real>

  // ---------------------------------------------------------------- balances

  /** The balance of a row, zero when the row does not exist. */
  function BalanceOr0(stock: Stock, k: Key): real
  {
    if k in stock then stock[k] else 0.0
  }

  /** firstOrCreate(row, quantity 0) followed by increment(quantity, q). */
  function Credit(stock: Stock, k: Key, q: real): Stock
  {
    stock[k := BalanceOr0(stock, k) + q]
  }

  /** Total quantity the lines ask of row `k`. */
  function QtyFor(lines: seq<Line>, k: Key): real
    decreases |lines|
  {
    if lines == [] then 0.0
    else QtyFor(lines[..|lines| - 1], k) + (if lines[|lines| - 1].key == k then lines[|lines| - 1].qty else 0.0)
  }

  predicate NonNegativeLines(lines: seq<Line>)
  {
    forall i | 0 <= i < |lines| :: lines[i].qty >= 0.0
  }

  /** Increment every line's row, creating missing rows at zero. */
  function Incremented(stock: Stock, lines: seq<Line>): Stock
    decreases |lines|
  {
    if lines == [] then stock
    else
      var l := lines[|lines| - 1];
      Credit(Incremented(stock, lines[..|lines| - 1]), l.key, l.qty)
  }

  /** Decrement every line's row; a missing row or a short balance fails the whole batch. */
  function CheckedDecremented(stock: Stock, lines: seq<Line>): Option<Stock>
    decreases |lines|
  {
    if lines == [] then Some(stock)
    else
      match CheckedDecremented(stock, lines[..|lines| - 1])
      case None => None
      case Some(s) =>
        var l := lines[|lines| - 1];
        if l.key in s && s[l.key] >= l.qty then Some(s[l.key := s[l.key] - l.qty]) else None
  }

  /** Decrement every line's row; only a missing row fails, the balance may go below zero. */
  function Decremented(stock: Stock, lines: seq<Line>): Option<Stock>
    decreases |lines|
  {
    if lines == [] then Some(stock)
    else
      match Decremented(stock, lines[..|lines| - 1])
      case None => None
      case Some(s) =>
        var l := lines[|lines| - 1];
        if l.key in s then Some(s[l.key := s[l.key] - l.qty]) else None
  }

  /** The destination row of a transfer line. */
  function Dest(l: Line, to: nat): Key
  {
    Key(l.key.item, to)
  }

  /**
   * Move every line's quantity from its (source) row to the same item at warehouse
   * `to`: a checked decrement at the source, an increment at the destination.
   */
  function Transferred(stock: Stock, lines: seq<Line>, to: nat): Option<Stock>
    decreases |lines|
  {
    if lines == [] then Some(stock)
    else
      match Transferred(stock, lines[..|lines| - 1], to)
      case None => None
      case Some(s) =>
        var l := lines[|lines| - 1];
        if l.key in s && s[l.key] >= l.qty then Some(Credit(s[l.key := s[l.key] - l.qty], Dest(l, to), l.qty))
        else None
  }

  // ---------------------------------------------------------------- movement logs

  /** The movement row a document writes for one of its lines. */
  function MoveFor(l: Line, spec: LogSpec): Movement
  {
    if l.key.item.Product? then Movement(l.key.item.id, l.key.warehouse, spec.productType, l.qty, spec.productRef)
    else Movement(l.key.item.id, l.key.warehouse, spec.rawType, l.qty, spec.rawRef)
  }

  /** The rows a batch of lines writes into the product log (`product`) or the raw log. */
  function Entries(lines: seq<Line>, spec: LogSpec, product: bool): seq<Movement>
    decreases |lines|
  {
    if lines == [] then []
    else
      var l := lines[|lines| - 1];
      Entries(lines[..|lines| - 1], spec, product) + (if l.key.item.Product? == product then [MoveFor(l, spec)] else [])
  }

  /** The rows a transfer writes: per line, an outbound row at the source and an inbound row at the destination. */
  function TransferEntries(lines: seq<Line>, to: nat, outSpec: LogSpec, inSpec: LogSpec, product: bool): seq<Movement>
    decreases |lines|
  {
    if lines == [] then []
    else
      var l := lines[|lines| - 1];
      TransferEntries(lines[..|lines| - 1], to, outSpec, inSpec, product)
      + (if l.key.item.Product? == product then [MoveFor(l, outSpec), MoveFor(Line(Dest(l, to), l.qty), inSpec)] else [])
  }

  /**
   * How a movement type counts towards a balance: +1 for inbound, -1 for outbound,
   * 0 for a type the summaries do not know.
   */
  function Sign(product: bool, t: string): real
  {
    if product then
      if t == "in" || t == "adjustment" then 1.0 else if t == "out" then -1.0 else 0.0
    else
      if t == "IN" || t == "TRANSFER_IN" || t == "ADJUSTMENT" then 1.0
      else if t == "OUT" || t == "TRANSFER_OUT" then -1.0
      else 0.0
  }

  /** Signed contribution of one log row to (item, warehouse). */
  function Contribution(m: Movement, product: bool, item: nat, wh: nat): real
  {
    if m.item == item && m.warehouse == wh then Sign(product, m.mtype) * m.quantity else 0.0
  }

  /** Signed sum of a log's rows for one item at one warehouse. */
  function NetAt(log: seq<Movement>, product: bool, item: nat, wh: nat): real
    decreases |log|
  {
    if log == [] then 0.0
    else NetAt(log[..|log| - 1], product, item, wh) + Contribution(log[|log| - 1], product, item, wh)
  }

  /** The balance a row should have according to the log of its kind. */
  function Net(productLog: seq<Movement>, rawLog: seq<Movement>, k: Key): real
  {
    match k.item
    case Product(id) => NetAt(productLog, true, id, k.warehouse)
    case RawMaterial(id) => NetAt(rawLog, false, id, k.warehouse)
  }

  /** Every balance (zero when the row is missing) equals the signed sum of its log rows. */
  ghost predicate Reconciled(stock: Stock, productLog: seq<Movement>, rawLog: seq<Movement>)
  {
    forall k :: BalanceOr0(stock, k) == Net(productLog, rawLog, k)
  }

  // ---------------------------------------------------------------- the ledger object

  class Ledger {
    var stock: Stock
    var productLog: seq<Movement>
    var rawLog: seq<Movement>

    /** No balance and no log changed since the start of the method. */
    twostate predicate Untouched()
      reads this
    {
      stock == old(stock) && productLog == old(productLog) && rawLog == old(rawLog)
    }

    /** An empty ledger: no rows, no movements. */
    constructor ()
      ensures stock == map[] && productLog == [] && rawLog == []
      ensures Reconciled(stock, productLog, rawLog)
    {
      stock := map[];
      productLog := [];
      rawLog := [];
    }

    /** Increment every line's row and log one row per line. */
    method IncrementAll(lines: seq<Line>, spec: LogSpec)
      modifies this
      ensures stock == Incremented(old(stock), lines)
      ensures productLog == old(productLog) + Entries(lines, spec, true)
      ensures rawLog == old(rawLog) + Entries(lines, spec, false)
    {
      var i := 0;
      while i < |lines|
        invariant 0 <= i <= |lines|
        invariant stock == Incremented(old(stock), lines[..i])
        invariant productLog == old(productLog) + Entries(lines[..i], spec, true)
        invariant rawLog == old(rawLog) + Entries(lines[..i], spec, false)
      {
        var l := lines[i];
        assert lines[..i + 1][..i] == lines[..i];
        stock := stock[l.key := BalanceOr0(stock, l.key) + l.qty];
        if l.key.item.Product? {
          productLog := productLog + [MoveFor(l, spec)];
        } else {
          rawLog := rawLog + [MoveFor(l, spec)];
        }
        i := i + 1;
      }
      assert lines[..|lines|] == lines;
    }

    /**
     * Decrement every line's row after checking that it exists and holds enough;
     * on the first failing line nothing at all is changed (the transaction rolls back).
     */
    method DecrementChecked(lines: seq<Line>, spec: LogSpec) returns (ok: bool)
      modifies this
      ensures ok == CheckedDecremented(old(stock), lines).Some?
      ensures ok ==> stock == CheckedDecremented(old(stock), lines).value
      ensures ok ==> productLog == old(productLog) + Entries(lines, spec, true)
      ensures ok ==> rawLog == old(rawLog) + Entries(lines, spec, false)
      ensures !ok ==> stock == old(stock) && productLog == old(productLog) && rawLog == old(rawLog)
    {
      var s, p, r := stock, productLog, rawLog;
      var i := 0;
      while i < |lines|
        invariant 0 <= i <= |lines|
        invariant CheckedDecremented(stock, lines[..i]) == Some(s)
        invariant p == productLog + Entries(lines[..i], spec, true)
        invariant r == rawLog + Entries(lines[..i], spec, false)
      {
        var l := lines[i];
        assert lines[..i + 1][..i] == lines[..i];
        if !(l.key in s && s[l.key] >= l.qty) {
          CheckedFailurePersists(stock, lines, i + 1);
          return false;
        }
        s := s[l.key := s[l.key] - l.qty];
        if l.key.item.Product? {
          p := p + [MoveFor(l, spec)];
        } else {
          r := r + [MoveFor(l, spec)];
        }
        i := i + 1;
      }
      assert lines[..|lines|] == lines;
      stock, productLog, rawLog := s, p, r;
      return true;
    }

    /**
     * Decrement every line's row, which must exist; the balance is not checked.
     * A missing row aborts the batch with nothing changed.
     */
    method DecrementExisting(lines: seq<Line>, spec: LogSpec) returns (ok: bool)
      modifies this
      ensures ok == Decremented(old(stock), lines).Some?
      ensures ok ==> stock == Decremented(old(stock), lines).value
      ensures ok ==> productLog == old(productLog) + Entries(lines, spec, true)
      ensures ok ==> rawLog == old(rawLog) + Entries(lines, spec, false)
      ensures !ok ==> stock == old(stock) && productLog == old(productLog) && rawLog == old(rawLog)
    {
      var s, p, r := stock, productLog, rawLog;
      var i := 0;
      while i < |lines|
        invariant 0 <= i <= |lines|
        invariant Decremented(stock, lines[..i]) == Some(s)
        invariant p == productLog + Entries(lines[..i], spec, true)
        invariant r == rawLog + Entries(lines[..i], spec, false)
      {
        var l := lines[i];
        assert lines[..i + 1][..i] == lines[..i];
        if l.key !in s {
          UncheckedFailurePersists(stock, lines, i + 1);
          return false;
        }
        s := s[l.key := s[l.key] - l.qty];
        if l.key.item.Product? {
          p := p + [MoveFor(l, spec)];
        } else {
          r := r + [MoveFor(l, spec)];
        }
        i := i + 1;
      }
      assert lines[..|lines|] == lines;
      stock, productLog, rawLog := s, p, r;
      return true;
    }

    /**
     * Move every line's quantity from its source row to warehouse `to`, logging an
     * outbound and an inbound row per line; all or nothing.
     */
    method TransferAll(lines: seq<Line>, to: nat, outSpec: LogSpec, inSpec: LogSpec) returns (ok: bool)
      modifies this
      ensures ok == Transferred(old(stock), lines, to).Some?
      ensures ok ==> stock == Transferred(old(stock), lines, to).value
      ensures ok ==> productLog == old(productLog) + TransferEntries(lines, to, outSpec, inSpec, true)
      ensures ok ==> rawLog == old(rawLog) + TransferEntries(lines, to, outSpec, inSpec, false)
      ensures !ok ==> stock == old(stock) && productLog == old(productLog) && rawLog == old(rawLog)
    {
      var s, p, r := stock, productLog, rawLog;
      var i := 0;
      while i < |lines|
        invariant 0 <= i <= |lines|
        invariant Transferred(stock, lines[..i], to) == Some(s)
        invariant p == productLog + TransferEntries(lines[..i], to, outSpec, inSpec, true)
        invariant r == rawLog + TransferEntries(lines[..i], to, outSpec, inSpec, false)
      {
        var l := lines[i];
        assert lines[..i + 1][..i] == lines[..i];
        if !(l.key in s && s[l.key] >= l.qty) {
          TransferFailurePersists(stock, lines, to, i + 1);
          return false;
        }
        s := s[l.key := s[l.key] - l.qty];
        s := s[Dest(l, to) := BalanceOr0(s, Dest(l, to)) + l.qty];
        var moves := [MoveFor(l, outSpec), MoveFor(Line(Dest(l, to), l.qty), inSpec)];
        if l.key.item.Product? {
          p := p + moves;
        } else {
          r := r + moves;
        }
        i := i + 1;
      }
      assert lines[..|lines|] == lines;
      stock, productLog, rawLog := s, p, r;
      return true;
    }

    /** Append one movement row without touching any balance. */
    method Record(m: Movement, product: bool)
      modifies this
      ensures stock == old(stock)
      ensures productLog == (if product then old(productLog) + [m] else old(productLog))
      ensures rawLog == (if product then old(rawLog) else old(rawLog) + [m])
    {
      if product {
        productLog := productLog + [m];
      } else {
        rawLog := rawLog + [m];
      }
    }

    /** Set one row to an absolute quantity and log one row (used by the raw-material adjustment). */
    method SetBalance(k: Key, q: real, m: Movement)
      modifies this
      ensures stock == old(stock)[k := q]
      ensures productLog == (if k.item.Product? then old(productLog) + [m] else old(productLog))
      ensures rawLog == (if k.item.Product? then old(rawLog) else old(rawLog) + [m])
    {
      stock := stock[k := q];
      if k.item.Product? {
        productLog := productLog + [m];
      } else {
        rawLog := rawLog + [m];
      }
    }
  }

  // ---------------------------------------------------------------- failure is final

  /** Once a prefix of the lines fails a checked decrement, the whole batch fails. */
  lemma {:induction false} CheckedFailurePersists(stock: Stock, lines: seq<Line>, j: nat)
    requires j <= |lines|
    requires CheckedDecremented(stock, lines[..j]).None?
    ensures CheckedDecremented(stock, lines).None?
    decreases |lines|
  {
    if j == |lines| {
      assert lines[..j] == lines;
    } else {
      var pre := lines[..|lines| - 1];
      assert pre[..j] == lines[..j];
      CheckedFailurePersists(stock, pre, j);
    }
  }

  /** Once a prefix of the lines meets a missing row, the whole unchecked batch fails. */
  lemma {:induction false} UncheckedFailurePersists(stock: Stock, lines: seq<Line>, j: nat)
    requires j <= |lines|
    requires Decremented(stock, lines[..j]).None?
    ensures Decremented(stock, lines).None?
    decreases |lines|
  {
    if j == |lines| {
      assert lines[..j] == lines;
    } else {
      var pre := lines[..|lines| - 1];
      assert pre[..j] == lines[..j];
      UncheckedFailurePersists(stock, pre, j);
    }
  }

  /** Once a prefix of a transfer fails, the whole transfer fails. */
  lemma {:induction false} TransferFailurePersists(stock: Stock, lines: seq<Line>, to: nat, j: nat)
    requires j <= |lines|
    requires Transferred(stock, lines[..j], to).None?
    ensures Transferred(stock, lines, to).None?
    decreases |lines|
  {
    if j == |lines| {
      assert lines[..j] == lines;
    } else {
      var pre := lines[..|lines| - 1];
      assert pre[..j] == lines[..j];
      TransferFailurePersists(stock, pre, to, j);
    }
  }
}

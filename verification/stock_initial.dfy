/**
 * Opening stock: one request credits every listed product at one warehouse and
 * logs an `in` row per line, all in one transaction.
 */
module StockInitial {
  import opened Common
  import opened Ledger
  import LedgerProps

  /** One opening-stock line: a product and a non-negative quantity. */
  datatype InitialItem = InitialItem(product: nat, quantity: real)

  /** The opening-stock rows reference the balance row they credited ("Stok Awal"). */
  function InitialSpec(): LogSpec
  {
    LogSpec("in", "IN", BalanceRow("Stok Awal"), BalanceRow("Stok Awal"))
  }

  /** The ledger lines of an opening-stock request: every item at the chosen warehouse. */
  function InitialLines(items: seq<InitialItem>, warehouse: nat): (r: seq<Line>)
    ensures |r| == |items|
    ensures forall i | 0 <= i < |items| :: r[i] == Line(Key(Product(items[i].product), warehouse), items[i].quantity)
    ensures LedgerProps.AllOfKind(r, true)
  {
    seq(|items|, i requires 0 <= i < |items| => Line(Key(Product(items[i].product), warehouse), items[i].quantity))
  }

  /**
   * store: every line credits its (product, warehouse) row, created at zero when
   * absent, and appends one `in` row of the same quantity; raw materials are untouched.
   */
  method Store(ledger: Ledger, warehouse: nat, items: seq<InitialItem>)
    requires forall i | 0 <= i < |items| :: items[i].quantity >= 0.0
    modifies ledger
    ensures ledger.stock == Incremented(old(ledger.stock), InitialLines(items, warehouse))
    ensures ledger.productLog == old(ledger.productLog) + Entries(InitialLines(items, warehouse), InitialSpec(), true)
    ensures ledger.rawLog == old(ledger.rawLog)
  {
    var lines := InitialLines(items, warehouse);
    LedgerProps.EntriesOtherKindEmpty(lines, InitialSpec(), false);
    ledger.IncrementAll(lines, InitialSpec());
  }

  /**
   * Opening stock never lowers a balance: each row grows by the sum of the
   * quantities listed for it (a product listed twice is credited twice), and the
   * log gets exactly one `in` row per line carrying the line's quantity.
   */
  lemma StoreEffects(stock: Stock, items: seq<InitialItem>, warehouse: nat, k: Key)
    requires forall i | 0 <= i < |items| :: items[i].quantity >= 0.0
    ensures BalanceOr0(Incremented(stock, InitialLines(items, warehouse)), k)
         == BalanceOr0(stock, k) + QtyFor(InitialLines(items, warehouse), k)
    ensures BalanceOr0(Incremented(stock, InitialLines(items, warehouse)), k) >= BalanceOr0(stock, k)
    ensures k.warehouse != warehouse || k.item.RawMaterial? ==>
              BalanceOr0(Incremented(stock, InitialLines(items, warehouse)), k) == BalanceOr0(stock, k)
    ensures |Entries(InitialLines(items, warehouse), InitialSpec(), true)| == |items|
    ensures forall i | 0 <= i < |items| ::
              Entries(InitialLines(items, warehouse), InitialSpec(), true)[i]
              == Movement(items[i].product, warehouse, "in", items[i].quantity, BalanceRow("Stok Awal"))
  {
    var lines := InitialLines(items, warehouse);
    LedgerProps.IncrementedAt(stock, lines, k);
    LedgerProps.QtyForNonNegative(lines, k);
    if k.warehouse != warehouse || k.item.RawMaterial? {
      QtyForAbsent(lines, k);
    }
    LedgerProps.EntriesOnePerLine(lines, InitialSpec(), true);
  }

  /** A row no line names gets nothing. */
  lemma {:induction false} QtyForAbsent(lines: seq<Line>, k: Key)
    requires forall i | 0 <= i < |lines| :: lines[i].key != k
    ensures QtyFor(lines, k) == 0.0
    decreases |lines|
  {
    if lines != [] {
      var pre := lines[..|lines| - 1];
      forall i | 0 <= i < |pre| ensures pre[i].key != k {
        assert pre[i] == lines[i];
      }
      QtyForAbsent(pre, k);
    }
  }

  /** Listing a product twice credits it twice. */
  lemma DuplicateCountedTwice(stock: Stock, product: nat, warehouse: nat, q: real)
    ensures BalanceOr0(Incremented(stock, InitialLines([InitialItem(product, q), InitialItem(product, q)], warehouse)),
                       Key(Product(product), warehouse))
         == BalanceOr0(stock, Key(Product(product), warehouse)) + 2.0 * q
  {
    var lines := InitialLines([InitialItem(product, q), InitialItem(product, q)], warehouse);
    LedgerProps.IncrementedAt(stock, lines, Key(Product(product), warehouse));
    var k := Key(Product(product), warehouse);
    assert lines[..1][..0] == [];
    assert QtyFor(lines[..1], k) == q;
    assert QtyFor(lines, k) == QtyFor(lines[..1], k) + q;
  }

  /** Opening stock keeps the ledger reconciled. */
  lemma StoreReconciles(stock: Stock, p: seq<Movement>, r: seq<Movement>, items: seq<InitialItem>, warehouse: nat)
    requires Reconciled(stock, p, r)
    ensures Reconciled(Incremented(stock, InitialLines(items, warehouse)),
                       p + Entries(InitialLines(items, warehouse), InitialSpec(), true),
                       r + Entries(InitialLines(items, warehouse), InitialSpec(), false))
  {
    LedgerProps.IncrementReconciles(stock, p, r, InitialLines(items, warehouse), InitialSpec());
  }
}

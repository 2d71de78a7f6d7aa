/**
 * Stock-outs: issuing every line of an approved stock request from one warehouse,
 * and undoing such an issue.
 */
module StockOuts {
  import opened Common
  import opened Ledger
  import opened StockRequests
  import LedgerProps

  /** A stock-out document: which request it fulfils, from which warehouse, with which lines. */
  datatype StockOut = StockOut(id: nat, request: nat, warehouse: nat, items: seq<RequestItem>)

  /** The reference a stock-out's movement rows carry. */
  function OutRef(id: nat): Ref
  {
    Doc("stock_out", id)
  }

  function OutSpec(id: nat): LogSpec
  {
    LogSpec("out", "OUT", OutRef(id), OutRef(id))
  }

  /** The ledger lines of a request issued from one warehouse: one product line per request item. */
  function OutLines(items: seq<RequestItem>, warehouse: nat): (r: seq<Line>)
    ensures |r| == |items|
    ensures forall i | 0 <= i < |items| :: r[i] == Line(Key(Product(items[i].product), warehouse), items[i].quantity)
    ensures LedgerProps.AllOfKind(r, true)
  {
    seq(|items|, i requires 0 <= i < |items| => Line(Key(Product(items[i].product), warehouse), items[i].quantity))
  }

  /**
   * store: a soft-deleted request is not found (404); otherwise only an approved
   * request that was never completed is issued. In one transaction every request
   * line is checked against its balance row and decremented, with one "out" row
   * per line, and the request becomes completed; a missing row or a short balance
   * on any line rolls everything back (500). After the commit the response loads a
   * `stockRequest` relation that the stock-out does not define, so a committed
   * stock-out is also answered with 500: `created` is the record that stays.
   */
  method Store(req: StockRequest, ledger: Ledger, id: nat, warehouse: nat, user: nat, now: int)
    returns (r: Outcome, created: Option<StockOut>)
    modifies req, ledger
    ensures old(req.deleted) ==> r == Refused(NOT_FOUND) && created == None && unchanged(req) && ledger.Untouched()
    ensures !old(req.deleted) && (old(req.status) != Approved || old(req.completedAt).Some?) ==>
              r == Refused(UNPROCESSABLE) && created == None && unchanged(req) && ledger.Untouched()
    ensures (!old(req.deleted) && old(req.status) == Approved && old(req.completedAt).None?
             && CheckedDecremented(old(ledger.stock), OutLines(req.items, warehouse)).None?) ==>
              r == Refused(SERVER_ERROR) && created == None && unchanged(req) && ledger.Untouched()
    ensures created.Some? ==>
              && r == Refused(SERVER_ERROR)
              && !old(req.deleted) && old(req.status) == Approved && old(req.completedAt).None?
              && CheckedDecremented(old(ledger.stock), OutLines(req.items, warehouse)).Some?
              && created.value == StockOut(id, req.id, warehouse, req.items)
              && ledger.stock == CheckedDecremented(old(ledger.stock), OutLines(req.items, warehouse)).value
              && ledger.productLog == old(ledger.productLog) + Entries(OutLines(req.items, warehouse), OutSpec(id), true)
              && ledger.rawLog == old(ledger.rawLog)
              && req.status == Completed && req.completedAt == Some(now) && req.completedBy == Some(user)
              && req.items == old(req.items) && req.deleted == old(req.deleted)
              && req.approvedBy == old(req.approvedBy) && req.approvedAt == old(req.approvedAt)
    ensures (!old(req.deleted) && old(req.status) == Approved && old(req.completedAt).None?
             && CheckedDecremented(old(ledger.stock), OutLines(req.items, warehouse)).Some?) ==> created.Some?
  {
    if req.deleted {
      return Refused(NOT_FOUND), None;
    }
    if req.status != Approved || req.completedAt.Some? {
      return Refused(UNPROCESSABLE), None;
    }
    var lines := OutLines(req.items, warehouse);
    LedgerProps.EntriesOtherKindEmpty(lines, OutSpec(id), false);
    var ok := ledger.DecrementChecked(lines, OutSpec(id));
    if !ok {
      return Refused(SERVER_ERROR), None;
    }
    req.status := Completed;
    req.completedAt := Some(now);
    req.completedBy := Some(user);
    return Refused(SERVER_ERROR), Some(StockOut(id, req.id, warehouse, req.items));
  }

  // ---------------------------------------------------------------- destroy

  /** Add each line back to its row, only where the row exists (a missing row is skipped). */
  function Restocked(stock: Stock, lines: seq<Line>): Stock
    decreases |lines|
  {
    if lines == [] then stock
    else
      var s := Restocked(stock, lines[..|lines| - 1]);
      var l := lines[|lines| - 1];
      if l.key in s then s[l.key := s[l.key] + l.qty] else s
  }

  /** The rows that survive deleting the movements carrying `ref` for any product in `products`. */
  function Kept(log: seq<Movement>, ref: Ref, products: set<nat>): seq<Movement>
    decreases |log|
  {
    if log == [] then []
    else
      var m := log[|log| - 1];
      Kept(log[..|log| - 1], ref, products) + (if m.ref == ref && m.item in products then [] else [m])
  }

  function ProductsOf(items: seq<RequestItem>): set<nat>
  {
    set i | 0 <= i < |items| :: items[i].product
  }

  /** Deleting one more product's rows after a batch deletion is the batch deletion for one more product. */
  lemma {:induction false} KeptStep(log: seq<Movement>, ref: Ref, products: set<nat>, p: nat)
    ensures Kept(Kept(log, ref, products), ref, {p}) == Kept(log, ref, products + {p})
    decreases |log|
  {
    if log != [] {
      var pre := log[..|log| - 1];
      var m := log[|log| - 1];
      KeptStep(pre, ref, products, p);
      var kp := Kept(pre, ref, products);
      if !(m.ref == ref && m.item in products) {
        assert (kp + [m])[..|kp|] == kp;
      } else {
        assert Kept(log, ref, products) == kp;
      }
    }
  }

  /**
   * destroy as written: the stock-out is looked up together with a `stockRequest`
   * relation it does not define, so the lookup itself fails inside the
   * transaction and the answer is 500 with nothing changed.
   */
  method DestroyAsWritten(so: StockOut, req: StockRequest, ledger: Ledger) returns (r: Outcome)
    ensures r == Refused(SERVER_ERROR)
    ensures unchanged(req) && ledger.Untouched()
  {
    return Refused(SERVER_ERROR);
  }

  /**
   * destroy as evidently intended (the request loaded through the `request`
   * relation the stock-out does define): every item of the stock-out is added back to its row where the row
   * still exists, the stock-out's movement rows for its products are deleted,
   * and the request (unless it was deleted meanwhile) goes back to approved with
   * the completion cleared.
   */
  method Destroy(so: StockOut, req: StockRequest, ledger: Ledger)
    requires req.id == so.request
    modifies req, ledger
    ensures ledger.stock == Restocked(old(ledger.stock), OutLines(so.items, so.warehouse))
    ensures ledger.productLog == Kept(old(ledger.productLog), OutRef(so.id), ProductsOf(so.items))
    ensures ledger.rawLog == old(ledger.rawLog)
    ensures !old(req.deleted) ==> req.status == Approved && req.completedAt == None && req.completedBy == None
    ensures old(req.deleted) ==> req.status == old(req.status) && req.completedAt == old(req.completedAt) && req.completedBy == old(req.completedBy)
    ensures req.items == old(req.items) && req.deleted == old(req.deleted)
    ensures req.approvedBy == old(req.approvedBy) && req.approvedAt == old(req.approvedAt)
  {
    var lines := OutLines(so.items, so.warehouse);
    KeptNothing(ledger.productLog, OutRef(so.id));
    assert ProductsOf(so.items[..0]) == {};
    var i := 0;
    while i < |so.items|
      invariant 0 <= i <= |so.items|
      invariant ledger.stock == Restocked(old(ledger.stock), lines[..i])
      invariant ledger.productLog == Kept(old(ledger.productLog), OutRef(so.id), ProductsOf(so.items[..i]))
      invariant ledger.rawLog == old(ledger.rawLog)
      invariant unchanged(req)
    {
      var item := so.items[i];
      var k := Key(Product(item.product), so.warehouse);
      assert lines[..i + 1][..i] == lines[..i];
      if k in ledger.stock {
        ledger.stock := ledger.stock[k := ledger.stock[k] + item.quantity];
      }
      KeptStep(old(ledger.productLog), OutRef(so.id), ProductsOf(so.items[..i]), item.product);
      assert ProductsOf(so.items[..i + 1]) == ProductsOf(so.items[..i]) + {item.product} by {
        assert so.items[..i + 1] == so.items[..i] + [item];
      }
      ledger.productLog := Kept(ledger.productLog, OutRef(so.id), {item.product});
      i := i + 1;
    }
    assert lines[..|lines|] == lines;
    assert so.items[..|so.items|] == so.items;
    if !req.deleted {
      req.status := Approved;
      req.completedAt := None;
      req.completedBy := None;
    }
  }

  // ---------------------------------------------------------------- store, then destroy

  lemma {:induction false} RestockedAt(stock: Stock, lines: seq<Line>)
    ensures Restocked(stock, lines).Keys == stock.Keys
    ensures forall k | k in stock :: Restocked(stock, lines)[k] == stock[k] + QtyFor(lines, k)
    decreases |lines|
  {
    if lines != [] {
      RestockedAt(stock, lines[..|lines| - 1]);
    }
  }

  lemma {:induction false} KeptNothing(log: seq<Movement>, ref: Ref)
    ensures Kept(log, ref, {}) == log
    decreases |log|
  {
    if log != [] {
      KeptNothing(log[..|log| - 1], ref);
    }
  }

  lemma {:induction false} KeptConcat(a: seq<Movement>, b: seq<Movement>, ref: Ref, products: set<nat>)
    ensures Kept(a + b, ref, products) == Kept(a, ref, products) + Kept(b, ref, products)
    decreases |b|
  {
    if b == [] {
      assert a + b == a;
    } else {
      var b' := b[..|b| - 1];
      KeptConcat(a, b', ref, products);
      assert (a + b)[..|a + b| - 1] == a + b';
    }
  }

  /** No row of the log carries `ref`. */
  predicate FreshRef(log: seq<Movement>, ref: Ref)
  {
    forall i | 0 <= i < |log| :: log[i].ref != ref
  }

  lemma {:induction false} KeptFresh(log: seq<Movement>, ref: Ref, products: set<nat>)
    requires FreshRef(log, ref)
    ensures Kept(log, ref, products) == log
    decreases |log|
  {
    if log != [] {
      KeptFresh(log[..|log| - 1], ref, products);
    }
  }

  lemma {:induction false} KeptOwnEntries(items: seq<RequestItem>, warehouse: nat, id: nat)
    ensures Kept(Entries(OutLines(items, warehouse), OutSpec(id), true), OutRef(id), ProductsOf(items)) == []
  {
    var lines := OutLines(items, warehouse);
    var e := Entries(lines, OutSpec(id), true);
    LedgerProps.EntriesOnePerLine(lines, OutSpec(id), true);
    KeptNone(e, OutRef(id), ProductsOf(items));
  }

  lemma {:induction false} KeptNone(log: seq<Movement>, ref: Ref, products: set<nat>)
    requires forall i | 0 <= i < |log| :: log[i].ref == ref && log[i].item in products
    ensures Kept(log, ref, products) == []
    decreases |log|
  {
    if log != [] {
      KeptNone(log[..|log| - 1], ref, products);
    }
  }

  /**
   * A successful stock-out followed by its destroy gives back the original balances
   * and the original movement log (the stock-out's id being new to the log).
   */
  lemma StoreThenDestroyRestores(stock: Stock, productLog: seq<Movement>, items: seq<RequestItem>, warehouse: nat, id: nat)
    requires CheckedDecremented(stock, OutLines(items, warehouse)).Some?
    requires FreshRef(productLog, OutRef(id))
    ensures Restocked(CheckedDecremented(stock, OutLines(items, warehouse)).value, OutLines(items, warehouse)) == stock
    ensures Kept(productLog + Entries(OutLines(items, warehouse), OutSpec(id), true), OutRef(id), ProductsOf(items)) == productLog
  {
    var lines := OutLines(items, warehouse);
    var s1 := CheckedDecremented(stock, lines).value;
    LedgerProps.CheckedDecrementedAt(stock, lines);
    RestockedAt(s1, lines);
    assert Restocked(s1, lines) == stock;
    KeptConcat(productLog, Entries(lines, OutSpec(id), true), OutRef(id), ProductsOf(items));
    KeptFresh(productLog, OutRef(id), ProductsOf(items));
    KeptOwnEntries(items, warehouse, id);
    assert productLog + [] == productLog;
  }

  /** A stock-out keeps the ledger reconciled. */
  lemma StoreReconciles(stock: Stock, p: seq<Movement>, r: seq<Movement>, items: seq<RequestItem>, warehouse: nat, id: nat)
    requires Reconciled(stock, p, r)
    requires CheckedDecremented(stock, OutLines(items, warehouse)).Some?
    ensures Reconciled(CheckedDecremented(stock, OutLines(items, warehouse)).value,
                       p + Entries(OutLines(items, warehouse), OutSpec(id), true), r)
  {
    LedgerProps.CheckedDecrementReconciles(stock, p, r, OutLines(items, warehouse), OutSpec(id));
    LedgerProps.EntriesOtherKindEmpty(OutLines(items, warehouse), OutSpec(id), false);
    assert r + [] == r;
  }

  /** With request quantities of at least 1, a stock-out succeeds exactly when every row holds the request's total for it. */
  lemma StoreSucceedsIff(stock: Stock, items: seq<RequestItem>, warehouse: nat)
    requires ValidItems(items)
    ensures CheckedDecremented(stock, OutLines(items, warehouse)).Some?
        <==> forall i | 0 <= i < |items| ::
               Key(Product(items[i].product), warehouse) in stock
               && QtyFor(OutLines(items, warehouse), Key(Product(items[i].product), warehouse)) <= stock[Key(Product(items[i].product), warehouse)]
  {
    var lines := OutLines(items, warehouse);
    LedgerProps.CheckedDecrementSucceedsIff(stock, lines);
  }
}

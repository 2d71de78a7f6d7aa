/**
 * What the four row operations do to each balance, when a batch succeeds, and
 * that each keeps balances and movement logs reconciled.
 */
module LedgerProps {
  import opened Common
  import opened Ledger

  // ---------------------------------------------------------------- per-row effect

  /** An increment batch adds to each row exactly what the lines ask of it and leaves other rows alone. */
  lemma {:induction false} IncrementedAt(stock: Stock, lines: seq<Line>, k: Key)
    ensures BalanceOr0(Incremented(stock, lines), k) == BalanceOr0(stock, k) + QtyFor(lines, k)
    ensures k in Incremented(stock, lines) <==> k in stock || exists i | 0 <= i < |lines| :: lines[i].key == k
    decreases |lines|
  {
    if lines != [] {
      var pre := lines[..|lines| - 1];
      IncrementedAt(stock, pre, k);
      if k in Incremented(stock, lines) && k !in stock && lines[|lines| - 1].key != k {
        var i :| 0 <= i < |pre| && pre[i].key == k;
        assert lines[i].key == k;
      }
      if exists i | 0 <= i < |lines| :: lines[i].key == k {
        var i :| 0 <= i < |lines| && lines[i].key == k;
        if i < |pre| {
          assert pre[i].key == k;
        }
      }
    }
  }

  /** With non-negative quantities no increment batch lowers a balance. */
  lemma {:induction false} QtyForNonNegative(lines: seq<Line>, k: Key)
    requires NonNegativeLines(lines)
    ensures QtyFor(lines, k) >= 0.0
    decreases |lines|
  {
    if lines != [] {
      QtyForNonNegative(lines[..|lines| - 1], k);
    }
  }

  /** With non-negative quantities a row is asked at least as much as any one of its lines asks. */
  lemma {:induction false} QtyForCoversLine(lines: seq<Line>, i: nat)
    requires NonNegativeLines(lines)
    requires i < |lines|
    ensures QtyFor(lines, lines[i].key) >= lines[i].qty
    decreases |lines|
  {
    var pre := lines[..|lines| - 1];
    forall j | 0 <= j < |pre| ensures pre[j].qty >= 0.0 {
      assert pre[j] == lines[j];
    }
    if i == |lines| - 1 {
      QtyForNonNegative(pre, lines[i].key);
    } else {
      assert pre[i] == lines[i];
      QtyForCoversLine(pre, i);
    }
  }

  /** A successful checked decrement takes from each row exactly what the lines ask, and every touched row ends non-negative. */
  lemma {:induction false} CheckedDecrementedAt(stock: Stock, lines: seq<Line>)
    requires CheckedDecremented(stock, lines).Some?
    ensures CheckedDecremented(stock, lines).value.Keys == stock.Keys
    ensures forall k | k in stock :: CheckedDecremented(stock, lines).value[k] == stock[k] - QtyFor(lines, k)
    ensures forall i | 0 <= i < |lines| :: lines[i].key in stock && CheckedDecremented(stock, lines).value[lines[i].key] >= 0.0
    decreases |lines|
  {
    if lines != [] {
      var pre := lines[..|lines| - 1];
      var l := lines[|lines| - 1];
      CheckedDecrementedAt(stock, pre);
      forall i | 0 <= i < |lines|
        ensures lines[i].key in stock && CheckedDecremented(stock, lines).value[lines[i].key] >= 0.0
      {
        if i < |pre| {
          assert pre[i] == lines[i];
        }
      }
    }
  }

  /**
   * The checked decrement of a batch of non-negative lines succeeds exactly when every
   * touched row exists and holds the batch's whole demand on it: a document can never
   * overdraw a row, however its lines are split.
   */
  lemma {:induction false} CheckedDecrementSucceedsIff(stock: Stock, lines: seq<Line>)
    requires NonNegativeLines(lines)
    ensures CheckedDecremented(stock, lines).Some?
        <==> forall i | 0 <= i < |lines| :: lines[i].key in stock && QtyFor(lines, lines[i].key) <= stock[lines[i].key]
    decreases |lines|
  {
    if CheckedDecremented(stock, lines).Some? {
      CheckedDecrementedAt(stock, lines);
    } else if lines != [] && forall i | 0 <= i < |lines| :: lines[i].key in stock && QtyFor(lines, lines[i].key) <= stock[lines[i].key] {
      var pre := lines[..|lines| - 1];
      var l := lines[|lines| - 1];
      forall i | 0 <= i < |pre|
        ensures pre[i].key in stock && QtyFor(pre, pre[i].key) <= stock[pre[i].key]
      {
        assert pre[i] == lines[i];
      }
      assert NonNegativeLines(pre) by {
        forall i | 0 <= i < |pre| ensures pre[i].qty >= 0.0 {
          assert pre[i] == lines[i];
        }
      }
      CheckedDecrementSucceedsIff(stock, pre);
      CheckedDecrementedAt(stock, pre);
      assert false;
    }
  }

  /** An unchecked decrement takes from each row exactly what the lines ask, and keeps the set of rows. */
  lemma {:induction false} DecrementedAt(stock: Stock, lines: seq<Line>)
    requires Decremented(stock, lines).Some?
    ensures Decremented(stock, lines).value.Keys == stock.Keys
    ensures forall k | k in stock :: Decremented(stock, lines).value[k] == stock[k] - QtyFor(lines, k)
    decreases |lines|
  {
    if lines != [] {
      DecrementedAt(stock, lines[..|lines| - 1]);
    }
  }

  /** An unchecked decrement fails only on a missing row; the balance plays no part. */
  lemma {:induction false} DecrementSucceedsIff(stock: Stock, lines: seq<Line>)
    ensures Decremented(stock, lines).Some? <==> forall i | 0 <= i < |lines| :: lines[i].key in stock
    decreases |lines|
  {
    if lines != [] {
      var pre := lines[..|lines| - 1];
      DecrementSucceedsIff(stock, pre);
      if Decremented(stock, pre).Some? {
        DecrementedAt(stock, pre);
      }
      if forall i | 0 <= i < |lines| :: lines[i].key in stock {
        forall i | 0 <= i < |pre| ensures pre[i].key in stock {
          assert pre[i] == lines[i];
        }
      }
      if Decremented(stock, lines).Some? {
        forall i | 0 <= i < |lines| ensures lines[i].key in stock {
          if i < |pre| {
            assert pre[i] == lines[i];
          }
        }
      }
    }
  }

  /** Lines that all leave from warehouse `from`. */
  predicate AllFrom(lines: seq<Line>, from: nat)
  {
    forall i | 0 <= i < |lines| :: lines[i].key.warehouse == from
  }

  /**
   * A successful transfer between two different warehouses takes each item's total
   * from the source row, adds the same total to the destination row, and leaves
   * every row at any other warehouse alone.
   */
  lemma {:induction false} TransferredAt(stock: Stock, lines: seq<Line>, from: nat, to: nat, item: ItemRef, wh: nat)
    requires from != to
    requires AllFrom(lines, from)
    requires Transferred(stock, lines, to).Some?
    ensures wh == from ==> BalanceOr0(Transferred(stock, lines, to).value, Key(item, wh)) == BalanceOr0(stock, Key(item, wh)) - QtyFor(lines, Key(item, from))
    ensures wh == to ==> BalanceOr0(Transferred(stock, lines, to).value, Key(item, wh)) == BalanceOr0(stock, Key(item, wh)) + QtyFor(lines, Key(item, from))
    ensures wh != from && wh != to ==> BalanceOr0(Transferred(stock, lines, to).value, Key(item, wh)) == BalanceOr0(stock, Key(item, wh))
    decreases |lines|
  {
    if lines != [] {
      var pre := lines[..|lines| - 1];
      assert AllFrom(pre, from) by {
        forall i | 0 <= i < |pre| ensures pre[i].key.warehouse == from {
          assert pre[i] == lines[i];
        }
      }
      TransferredAt(stock, pre, from, to, item, wh);
    }
  }

  /** A transfer between two different warehouses keeps each item's combined balance over the two. */
  lemma TransferConservesPair(stock: Stock, lines: seq<Line>, from: nat, to: nat, item: ItemRef)
    requires from != to
    requires AllFrom(lines, from)
    requires Transferred(stock, lines, to).Some?
    ensures BalanceOr0(Transferred(stock, lines, to).value, Key(item, from)) + BalanceOr0(Transferred(stock, lines, to).value, Key(item, to))
         == BalanceOr0(stock, Key(item, from)) + BalanceOr0(stock, Key(item, to))
  {
    TransferredAt(stock, lines, from, to, item, from);
    TransferredAt(stock, lines, from, to, item, to);
  }

  // ---------------------------------------------------------------- reconciliation

  lemma NetAtAppend(log: seq<Movement>, m: Movement, product: bool, item: nat, wh: nat)
    ensures NetAt(log + [m], product, item, wh) == NetAt(log, product, item, wh) + Contribution(m, product, item, wh)
  {
    assert (log + [m])[..|log|] == log;
  }

  lemma NetAtConcat(log: seq<Movement>, a: Movement, b: Movement, product: bool, item: nat, wh: nat)
    ensures NetAt(log + [a, b], product, item, wh)
         == NetAt(log, product, item, wh) + Contribution(a, product, item, wh) + Contribution(b, product, item, wh)
  {
    NetAtAppend(log, a, product, item, wh);
    NetAtAppend(log + [a], b, product, item, wh);
    assert log + [a] + [b] == log + [a, b];
  }

  /** The log a key's kind is reconciled against, after one row is appended to it. */
  function Appended(log: seq<Movement>, m: Movement, toThisLog: bool): seq<Movement>
  {
    if toThisLog then log + [m] else log
  }

  /** The per-row half of `ReconciledStep`. */
  lemma {:induction false} ReconciledStepAt(stock: Stock, p: seq<Movement>, r: seq<Movement>, k: Key, m: Movement, delta: real, k': Key)
    requires BalanceOr0(stock, k') == Net(p, r, k')
    requires m.item == k.item.id && m.warehouse == k.warehouse
    requires Sign(k.item.Product?, m.mtype) * m.quantity == delta
    ensures BalanceOr0(stock[k := BalanceOr0(stock, k) + delta], k')
         == Net(Appended(p, m, k.item.Product?), Appended(r, m, !k.item.Product?), k')
  {
    NetAppended(p, r, m, k.item.Product?, k');
    if k' == k {
      assert Contribution(m, k.item.Product?, k.item.id, k.warehouse) == delta;
    }
  }

  /** Appending a row to the log of `product`'s kind adds its contribution to every key of that kind, and nothing to the others. */
  lemma {:induction false} NetAppended(p: seq<Movement>, r: seq<Movement>, m: Movement, product: bool, k': Key)
    ensures Net(Appended(p, m, product), Appended(r, m, !product), k')
         == Net(p, r, k') + (if k'.item.Product? == product then Contribution(m, product, k'.item.id, k'.warehouse) else 0.0)
  {
    if product {
      NetAtAppend(p, m, true, k'.item.id, k'.warehouse);
    } else {
      NetAtAppend(r, m, false, k'.item.id, k'.warehouse);
    }
  }

  /**
   * One step of every ledger operation: changing row `k` by `delta` while logging one
   * row for it whose signed quantity is `delta` keeps the ledger reconciled.
   */
  lemma ReconciledStep(stock: Stock, p: seq<Movement>, r: seq<Movement>, k: Key, m: Movement, delta: real)
    requires Reconciled(stock, p, r)
    requires m.item == k.item.id && m.warehouse == k.warehouse
    requires Sign(k.item.Product?, m.mtype) * m.quantity == delta
    ensures Reconciled(stock[k := BalanceOr0(stock, k) + delta],
                       Appended(p, m, k.item.Product?), Appended(r, m, !k.item.Product?))
  {
    var s' := stock[k := BalanceOr0(stock, k) + delta];
    var p' := Appended(p, m, k.item.Product?);
    var r' := Appended(r, m, !k.item.Product?);
    forall k': Key ensures BalanceOr0(s', k') == Net(p', r', k') {
      ReconciledStepAt(stock, p, r, k, m, delta, k');
    }
  }

  /** Increment batches logged with inbound types keep the ledger reconciled. */
  lemma {:induction false} IncrementReconciles(stock: Stock, p: seq<Movement>, r: seq<Movement>, lines: seq<Line>, spec: LogSpec)
    requires Reconciled(stock, p, r)
    requires Sign(true, spec.productType) == 1.0 && Sign(false, spec.rawType) == 1.0
    ensures Reconciled(Incremented(stock, lines), p + Entries(lines, spec, true), r + Entries(lines, spec, false))
    decreases |lines|
  {
    if lines != [] {
      var pre := lines[..|lines| - 1];
      var l := lines[|lines| - 1];
      IncrementReconciles(stock, p, r, pre, spec);
      var p1 := p + Entries(pre, spec, true);
      var r1 := r + Entries(pre, spec, false);
      ReconciledStep(Incremented(stock, pre), p1, r1, l.key, MoveFor(l, spec), l.qty);
      assert Incremented(stock, lines) == Incremented(stock, pre)[l.key := BalanceOr0(Incremented(stock, pre), l.key) + l.qty];
      assert p + Entries(lines, spec, true) == Appended(p1, MoveFor(l, spec), l.key.item.Product?);
      assert r + Entries(lines, spec, false) == Appended(r1, MoveFor(l, spec), !l.key.item.Product?);
    } else {
      assert p + [] == p && r + [] == r;
    }
  }

  /** Checked decrements logged with outbound types keep the ledger reconciled. */
  lemma {:induction false} CheckedDecrementReconciles(stock: Stock, p: seq<Movement>, r: seq<Movement>, lines: seq<Line>, spec: LogSpec)
    requires Reconciled(stock, p, r)
    requires Sign(true, spec.productType) == -1.0 && Sign(false, spec.rawType) == -1.0
    requires CheckedDecremented(stock, lines).Some?
    ensures Reconciled(CheckedDecremented(stock, lines).value, p + Entries(lines, spec, true), r + Entries(lines, spec, false))
    decreases |lines|
  {
    if lines != [] {
      var pre := lines[..|lines| - 1];
      var l := lines[|lines| - 1];
      CheckedDecrementReconciles(stock, p, r, pre, spec);
      var s1 := CheckedDecremented(stock, pre).value;
      var p1 := p + Entries(pre, spec, true);
      var r1 := r + Entries(pre, spec, false);
      ReconciledStep(s1, p1, r1, l.key, MoveFor(l, spec), -l.qty);
      assert CheckedDecremented(stock, lines).value == s1[l.key := BalanceOr0(s1, l.key) + -l.qty];
      assert p + Entries(lines, spec, true) == Appended(p1, MoveFor(l, spec), l.key.item.Product?);
      assert r + Entries(lines, spec, false) == Appended(r1, MoveFor(l, spec), !l.key.item.Product?);
    } else {
      assert p + [] == p && r + [] == r;
    }
  }

  /** Unchecked decrements logged with outbound types keep the ledger reconciled too, even below zero. */
  lemma {:induction false} DecrementReconciles(stock: Stock, p: seq<Movement>, r: seq<Movement>, lines: seq<Line>, spec: LogSpec)
    requires Reconciled(stock, p, r)
    requires Sign(true, spec.productType) == -1.0 && Sign(false, spec.rawType) == -1.0
    requires Decremented(stock, lines).Some?
    ensures Reconciled(Decremented(stock, lines).value, p + Entries(lines, spec, true), r + Entries(lines, spec, false))
    decreases |lines|
  {
    if lines != [] {
      var pre := lines[..|lines| - 1];
      var l := lines[|lines| - 1];
      DecrementReconciles(stock, p, r, pre, spec);
      var s1 := Decremented(stock, pre).value;
      var p1 := p + Entries(pre, spec, true);
      var r1 := r + Entries(pre, spec, false);
      ReconciledStep(s1, p1, r1, l.key, MoveFor(l, spec), -l.qty);
      assert Decremented(stock, lines).value == s1[l.key := BalanceOr0(s1, l.key) + -l.qty];
      assert p + Entries(lines, spec, true) == Appended(p1, MoveFor(l, spec), l.key.item.Product?);
      assert r + Entries(lines, spec, false) == Appended(r1, MoveFor(l, spec), !l.key.item.Product?);
    } else {
      assert p + [] == p && r + [] == r;
    }
  }

  /** Transfers logged with an outbound and an inbound type keep the ledger reconciled. */
  lemma {:induction false} TransferReconciles(stock: Stock, p: seq<Movement>, r: seq<Movement>, lines: seq<Line>, to: nat,
                                              outSpec: LogSpec, inSpec: LogSpec)
    requires Reconciled(stock, p, r)
    requires Sign(true, outSpec.productType) == -1.0 && Sign(false, outSpec.rawType) == -1.0
    requires Sign(true, inSpec.productType) == 1.0 && Sign(false, inSpec.rawType) == 1.0
    requires Transferred(stock, lines, to).Some?
    ensures Reconciled(Transferred(stock, lines, to).value,
                       p + TransferEntries(lines, to, outSpec, inSpec, true),
                       r + TransferEntries(lines, to, outSpec, inSpec, false))
    decreases |lines|
  {
    if lines != [] {
      var pre := lines[..|lines| - 1];
      var l := lines[|lines| - 1];
      TransferReconciles(stock, p, r, pre, to, outSpec, inSpec);
      var s1 := Transferred(stock, pre, to).value;
      var p1 := p + TransferEntries(pre, to, outSpec, inSpec, true);
      var r1 := r + TransferEntries(pre, to, outSpec, inSpec, false);
      var mOut := MoveFor(l, outSpec);
      var lIn := Line(Dest(l, to), l.qty);
      var mIn := MoveFor(lIn, inSpec);
      var product := l.key.item.Product?;
      ReconciledStep(s1, p1, r1, l.key, mOut, -l.qty);
      var s2 := s1[l.key := BalanceOr0(s1, l.key) + -l.qty];
      var p2 := Appended(p1, mOut, product);
      var r2 := Appended(r1, mOut, !product);
      ReconciledStep(s2, p2, r2, Dest(l, to), mIn, l.qty);
      assert Transferred(stock, lines, to).value == s2[Dest(l, to) := BalanceOr0(s2, Dest(l, to)) + l.qty];
      assert p + TransferEntries(lines, to, outSpec, inSpec, true) == Appended(p2, mIn, product);
      assert r + TransferEntries(lines, to, outSpec, inSpec, false) == Appended(r2, mIn, !product);
    } else {
      assert p + [] == p && r + [] == r;
    }
  }

  // ---------------------------------------------------------------- one row per line

  /** Lines that all touch the same kind of item. */
  predicate AllOfKind(lines: seq<Line>, product: bool)
  {
    forall i | 0 <= i < |lines| :: lines[i].key.item.Product? == product
  }

  /** When every line is of the log's kind, the log gets exactly one row per line, in order, carrying the line's quantity. */
  lemma {:induction false} EntriesOnePerLine(lines: seq<Line>, spec: LogSpec, product: bool)
    requires AllOfKind(lines, product)
    ensures |Entries(lines, spec, product)| == |lines|
    ensures forall i | 0 <= i < |lines| :: Entries(lines, spec, product)[i] == MoveFor(lines[i], spec)
    ensures forall i | 0 <= i < |lines| :: Entries(lines, spec, product)[i].quantity == lines[i].qty
    decreases |lines|
  {
    if lines != [] {
      var pre := lines[..|lines| - 1];
      assert AllOfKind(pre, product) by {
        forall i | 0 <= i < |pre| ensures pre[i].key.item.Product? == product {
          assert pre[i] == lines[i];
        }
      }
      EntriesOnePerLine(pre, spec, product);
    }
  }

  /** The other log gets nothing. */
  lemma {:induction false} EntriesOtherKindEmpty(lines: seq<Line>, spec: LogSpec, product: bool)
    requires AllOfKind(lines, !product)
    ensures Entries(lines, spec, product) == []
    decreases |lines|
  {
    if lines != [] {
      var pre := lines[..|lines| - 1];
      assert AllOfKind(pre, !product) by {
        forall i | 0 <= i < |pre| ensures pre[i].key.item.Product? == !product {
          assert pre[i] == lines[i];
        }
      }
      EntriesOtherKindEmpty(pre, spec, product);
    }
  }
}

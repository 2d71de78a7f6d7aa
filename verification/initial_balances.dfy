/**
 * Yearly opening balances of the chart of accounts: a year's rows are drafted
 * (each new draft replaces the previous one), approved together once their
 * debits and credits balance, and then frozen.
 */
module InitialBalances {
  import opened Common

  datatype BalanceStatus = Draft | Approved

  /** One account's opening balance for a year. */
  datatype OpeningRow = OpeningRow(year: int, account: nat, debit: real, credit: real, budget: real,
                                   status: BalanceStatus, approvedBy: Option<nat>, approvedAt: Option<int>)

  /** One submitted line. */
  datatype BalanceInput = BalanceInput(account: nat, debit: real, credit: real)

  /** What show answers for a year. */
  datatype YearSummary = YearSummary(status: BalanceStatus, rows: seq<OpeningRow>, totalDebit: real, totalCredit: real)

  predicate ValidInputs(inputs: seq<BalanceInput>)
  {
    |inputs| >= 1 && forall i | 0 <= i < |inputs| :: inputs[i].debit >= 0.0 && inputs[i].credit >= 0.0
  }

  /** No account is listed twice; the table is unique on (year, account). */
  predicate DistinctAccounts(inputs: seq<BalanceInput>)
  {
    forall i, j | 0 <= i < j < |inputs| :: inputs[i].account != inputs[j].account
  }

  predicate IsDraftOf(row: OpeningRow, year: int)
  {
    row.year == year && row.status == Draft
  }

  /** The rows of one year, in table order. */
  function OfYear(rows: seq<OpeningRow>, year: int): seq<OpeningRow>
    decreases |rows|
  {
    if rows == [] then []
    else OfYear(rows[..|rows| - 1], year) + (if rows[|rows| - 1].year == year then [rows[|rows| - 1]] else [])
  }

  /** The draft rows of one year. */
  function Drafts(rows: seq<OpeningRow>, year: int): seq<OpeningRow>
    decreases |rows|
  {
    if rows == [] then []
    else Drafts(rows[..|rows| - 1], year) + (if IsDraftOf(rows[|rows| - 1], year) then [rows[|rows| - 1]] else [])
  }

  /** The table with one year's draft rows deleted. */
  function WithoutDrafts(rows: seq<OpeningRow>, year: int): seq<OpeningRow>
    decreases |rows|
  {
    if rows == [] then []
    else WithoutDrafts(rows[..|rows| - 1], year) + (if IsDraftOf(rows[|rows| - 1], year) then [] else [rows[|rows| - 1]])
  }

  function DebitSum(rows: seq<OpeningRow>): real
    decreases |rows|
  {
    if rows == [] then 0.0 else DebitSum(rows[..|rows| - 1]) + rows[|rows| - 1].debit
  }

  function CreditSum(rows: seq<OpeningRow>): real
    decreases |rows|
  {
    if rows == [] then 0.0 else CreditSum(rows[..|rows| - 1]) + rows[|rows| - 1].credit
  }

  /** The draft rows store inserts: one per line, with the budget at its default 0. */
  function NewRows(year: int, inputs: seq<BalanceInput>): (r: seq<OpeningRow>)
    ensures |r| == |inputs|
    ensures forall i | 0 <= i < |inputs| ::
              r[i] == OpeningRow(year, inputs[i].account, inputs[i].debit, inputs[i].credit, 0.0, Draft, None, None)
  {
    seq(|inputs|, i requires 0 <= i < |inputs| =>
      OpeningRow(year, inputs[i].account, inputs[i].debit, inputs[i].credit, 0.0, Draft, None, None))
  }

  /** The table after approve: the year's drafts become approved, with approver and time. */
  function ApprovedYear(rows: seq<OpeningRow>, year: int, user: nat, now: int): (r: seq<OpeningRow>)
    ensures |r| == |rows|
    ensures forall i | 0 <= i < |rows| ::
              r[i] == (if IsDraftOf(rows[i], year) then rows[i].(status := Approved, approvedBy := Some(user), approvedAt := Some(now))
                       else rows[i])
  {
    seq(|rows|, i requires 0 <= i < |rows| =>
      if IsDraftOf(rows[i], year) then rows[i].(status := Approved, approvedBy := Some(user), approvedAt := Some(now))
      else rows[i])
  }

  predicate HasApproved(rows: seq<OpeningRow>, year: int)
  {
    exists x | x in rows :: x.year == year && x.status == Approved
  }

  /** A year is either wholly draft or wholly approved. */
  ghost predicate OneStatusPerYear(rows: seq<OpeningRow>)
  {
    forall x, y | x in rows && y in rows && x.year == y.year :: x.status == y.status
  }

  /** show: the year's rows, their debit and credit totals, and the first row's status (draft when there is none). */
  function Show(rows: seq<OpeningRow>, year: int): (s: YearSummary)
    ensures s.rows == OfYear(rows, year)
    ensures s.totalDebit == DebitSum(OfYear(rows, year)) && s.totalCredit == CreditSum(OfYear(rows, year))
  {
    var mine := OfYear(rows, year);
    var status := if mine == [] then Draft else mine[0].status;
    YearSummary(status, mine, DebitSum(mine), CreditSum(mine))
  }

  class InitialBalanceTable {
    var rows: seq<OpeningRow>

    ghost predicate Valid()
      reads this
    {
      OneStatusPerYear(rows)
    }

    constructor ()
      ensures rows == [] && Valid()
    {
      rows := [];
    }

    /**
     * store: refused (422) once the year has an approved row. Otherwise, in one
     * transaction, the year's draft rows are deleted and one draft row per line is
     * inserted; a line repeating an account breaks the (year, account) key and
     * rolls everything back (500).
     */
    method Store(year: int, inputs: seq<BalanceInput>) returns (r: Outcome)
      requires 2000 <= year <= 2100 && ValidInputs(inputs)
      requires Valid()
      modifies this
      ensures Valid()
      ensures HasApproved(old(rows), year) ==> r == Refused(UNPROCESSABLE) && rows == old(rows)
      ensures !HasApproved(old(rows), year) && !DistinctAccounts(inputs) ==> r == Refused(SERVER_ERROR) && rows == old(rows)
      ensures !HasApproved(old(rows), year) && DistinctAccounts(inputs) ==>
                r == Done && rows == WithoutDrafts(old(rows), year) + NewRows(year, inputs)
    {
      if HasApproved(rows, year) {
        return Refused(UNPROCESSABLE);
      }
      if !DistinctAccounts(inputs) {
        return Refused(SERVER_ERROR);
      }
      StoreKeepsOneStatus(rows, year, inputs);
      rows := WithoutDrafts(rows, year) + NewRows(year, inputs);
      return Done;
    }

    /**
     * approve: refused (422) when the year has no draft rows, or when their debits
     * and credits do not sum to the same total; otherwise all of them become approved.
     */
    method Approve(year: int, user: nat, now: int) returns (r: Outcome)
      requires Valid()
      modifies this
      ensures Valid()
      ensures Drafts(old(rows), year) == [] ==> r == Refused(UNPROCESSABLE) && rows == old(rows)
      ensures Drafts(old(rows), year) != [] && DebitSum(Drafts(old(rows), year)) != CreditSum(Drafts(old(rows), year)) ==>
                r == Refused(UNPROCESSABLE) && rows == old(rows)
      ensures Drafts(old(rows), year) != [] && DebitSum(Drafts(old(rows), year)) == CreditSum(Drafts(old(rows), year)) ==>
                r == Done && rows == ApprovedYear(old(rows), year, user, now)
    {
      var drafts := Drafts(rows, year);
      if drafts == [] {
        return Refused(UNPROCESSABLE);
      }
      if DebitSum(drafts) != CreditSum(drafts) {
        return Refused(UNPROCESSABLE);
      }
      ApproveKeepsOneStatus(rows, year, user, now);
      rows := ApprovedYear(rows, year, user, now);
      return Done;
    }

    /** destroy: deletes the year's draft rows; when there were none the answer is 422. */
    method Destroy(year: int) returns (r: Outcome)
      requires Valid()
      modifies this
      ensures Valid()
      ensures Drafts(old(rows), year) == [] ==> r == Refused(UNPROCESSABLE)
      ensures Drafts(old(rows), year) != [] ==> r == Done
      ensures rows == WithoutDrafts(old(rows), year)
    {
      var n := |Drafts(rows, year)|;
      DestroyKeepsOneStatus(rows, year);
      rows := WithoutDrafts(rows, year);
      if n == 0 {
        return Refused(UNPROCESSABLE);
      }
      return Done;
    }
  }

  // ---------------------------------------------------------------- properties

  /** The year's rows are the table's rows of that year. */
  lemma {:induction false} InOfYear(rows: seq<OpeningRow>, year: int)
    ensures forall x :: x in OfYear(rows, year) <==> x in rows && x.year == year
    decreases |rows|
  {
    if rows != [] {
      InOfYear(rows[..|rows| - 1], year);
      assert rows == rows[..|rows| - 1] + [rows[|rows| - 1]];
    }
  }

  /** The year's drafts are the table's draft rows of that year. */
  lemma {:induction false} InDrafts(rows: seq<OpeningRow>, year: int)
    ensures forall x :: x in Drafts(rows, year) <==> x in rows && IsDraftOf(x, year)
    decreases |rows|
  {
    if rows != [] {
      InDrafts(rows[..|rows| - 1], year);
      assert rows == rows[..|rows| - 1] + [rows[|rows| - 1]];
    }
  }

  /** Deleting the drafts keeps exactly the other rows, and removes as many rows as there were drafts. */
  lemma {:induction false} InWithoutDrafts(rows: seq<OpeningRow>, year: int)
    ensures forall x :: x in WithoutDrafts(rows, year) <==> x in rows && !IsDraftOf(x, year)
    ensures |WithoutDrafts(rows, year)| + |Drafts(rows, year)| == |rows|
    decreases |rows|
  {
    if rows != [] {
      InWithoutDrafts(rows[..|rows| - 1], year);
      assert rows == rows[..|rows| - 1] + [rows[|rows| - 1]];
    }
  }

  /**
   * While every year is wholly draft or wholly approved, the status show reports
   * (taken from the year's first row) is approved exactly when the year has an approved row.
   */
  lemma ShowReportsYearStatus(rows: seq<OpeningRow>, year: int)
    requires OneStatusPerYear(rows)
    ensures Show(rows, year).status == Approved <==> HasApproved(rows, year)
  {
    InOfYear(rows, year);
    var mine := OfYear(rows, year);
    if HasApproved(rows, year) {
      var x :| x in rows && x.year == year && x.status == Approved;
      assert x in mine;
    }
    if mine != [] {
      assert mine[0] in mine;
    }
  }

  /** Store keeps every year wholly draft or wholly approved. */
  lemma StoreKeepsOneStatus(rows: seq<OpeningRow>, year: int, inputs: seq<BalanceInput>)
    requires OneStatusPerYear(rows) && !HasApproved(rows, year)
    ensures OneStatusPerYear(WithoutDrafts(rows, year) + NewRows(year, inputs))
  {
    var kept := WithoutDrafts(rows, year);
    var added := NewRows(year, inputs);
    InWithoutDrafts(rows, year);
    forall x | x in kept ensures x.year != year {
      assert x in rows;
    }
    forall x | x in added ensures x.year == year && x.status == Draft {
      var i :| 0 <= i < |added| && added[i] == x;
    }
  }

  /** Approve keeps every year wholly draft or wholly approved. */
  lemma ApproveKeepsOneStatus(rows: seq<OpeningRow>, year: int, user: nat, now: int)
    requires OneStatusPerYear(rows)
    ensures OneStatusPerYear(ApprovedYear(rows, year, user, now))
  {
    var a := ApprovedYear(rows, year, user, now);
    forall x, y | x in a && y in a && x.year == y.year ensures x.status == y.status {
      var i :| 0 <= i < |a| && a[i] == x;
      var j :| 0 <= j < |a| && a[j] == y;
      assert rows[i] in rows && rows[j] in rows;
    }
  }

  /** Destroying the drafts keeps every year wholly draft or wholly approved. */
  lemma DestroyKeepsOneStatus(rows: seq<OpeningRow>, year: int)
    requires OneStatusPerYear(rows)
    ensures OneStatusPerYear(WithoutDrafts(rows, year))
  {
    InWithoutDrafts(rows, year);
  }

  /**
   * After a successful store the year holds exactly the new draft rows, in the
   * order given, and every other year's rows are as they were.
   */
  lemma {:induction false} StoreReplacesYear(rows: seq<OpeningRow>, year: int, inputs: seq<BalanceInput>, other: int)
    requires !HasApproved(rows, year) && other != year
    ensures OfYear(WithoutDrafts(rows, year) + NewRows(year, inputs), year) == NewRows(year, inputs)
    ensures OfYear(WithoutDrafts(rows, year) + NewRows(year, inputs), other) == OfYear(rows, other)
  {
    OfYearConcat(WithoutDrafts(rows, year), NewRows(year, inputs), year);
    OfYearConcat(WithoutDrafts(rows, year), NewRows(year, inputs), other);
    var kept := WithoutDrafts(rows, year);
    InWithoutDrafts(rows, year);
    forall i | 0 <= i < |kept| ensures kept[i].year != year {
      assert kept[i] in kept && kept[i] in rows;
    }
    NoRowsOfYear(kept, year);
    AllOfYear(NewRows(year, inputs), year);
    NoRowsOfYear(NewRows(year, inputs), other);
    WithoutDraftsKeepsOtherYears(rows, year, other);
  }

  lemma {:induction false} OfYearConcat(a: seq<OpeningRow>, b: seq<OpeningRow>, year: int)
    ensures OfYear(a + b, year) == OfYear(a, year) + OfYear(b, year)
    decreases |b|
  {
    if b == [] {
      assert a + b == a;
    } else {
      assert (a + b)[..|a + b| - 1] == a + b[..|b| - 1];
      OfYearConcat(a, b[..|b| - 1], year);
    }
  }

  lemma {:induction false} NoRowsOfYear(rows: seq<OpeningRow>, year: int)
    requires forall i | 0 <= i < |rows| :: rows[i].year != year
    ensures OfYear(rows, year) == []
    decreases |rows|
  {
    if rows != [] {
      NoRowsOfYear(rows[..|rows| - 1], year);
    }
  }

  lemma {:induction false} AllOfYear(rows: seq<OpeningRow>, year: int)
    requires forall i | 0 <= i < |rows| :: rows[i].year == year
    ensures OfYear(rows, year) == rows
    decreases |rows|
  {
    if rows != [] {
      AllOfYear(rows[..|rows| - 1], year);
    }
  }

  lemma {:induction false} WithoutDraftsKeepsOtherYears(rows: seq<OpeningRow>, year: int, other: int)
    requires other != year
    ensures OfYear(WithoutDrafts(rows, year), other) == OfYear(rows, other)
    decreases |rows|
  {
    if rows != [] {
      var pre := rows[..|rows| - 1];
      var last := rows[|rows| - 1];
      WithoutDraftsKeepsOtherYears(pre, year, other);
      if IsDraftOf(last, year) {
        assert WithoutDrafts(rows, year) == WithoutDrafts(pre, year) + [];
        assert WithoutDrafts(pre, year) + [] == WithoutDrafts(pre, year);
        assert OfYear(rows, other) == OfYear(pre, other) + [];
      } else {
        assert WithoutDrafts(rows, year) == WithoutDrafts(pre, year) + [last];
        OfYearConcat(WithoutDrafts(pre, year), [last], other);
        assert [last][..0] == [];
        assert OfYear([last], other) == [] + (if last.year == other then [last] else []);
      }
    }
  }

  lemma DebitSumAppend(s: seq<OpeningRow>, x: OpeningRow)
    ensures DebitSum(s + [x]) == DebitSum(s) + x.debit
    ensures CreditSum(s + [x]) == CreditSum(s) + x.credit
  {
    assert (s + [x])[..|s|] == s;
  }

  /** Approving changes statuses only: the year's debit and credit totals stay what they were. */
  lemma {:induction false} ApproveKeepsTotals(rows: seq<OpeningRow>, year: int, user: nat, now: int)
    ensures DebitSum(OfYear(ApprovedYear(rows, year, user, now), year)) == DebitSum(OfYear(rows, year))
    ensures CreditSum(OfYear(ApprovedYear(rows, year, user, now), year)) == CreditSum(OfYear(rows, year))
    decreases |rows|
  {
    if rows != [] {
      var pre := rows[..|rows| - 1];
      var last := rows[|rows| - 1];
      var a := ApprovedYear(rows, year, user, now);
      assert a[..|a| - 1] == ApprovedYear(pre, year, user, now);
      ApproveKeepsTotals(pre, year, user, now);
      var x := a[|a| - 1];
      assert x.year == last.year && x.debit == last.debit && x.credit == last.credit;
      if last.year == year {
        assert OfYear(a, year) == OfYear(ApprovedYear(pre, year, user, now), year) + [x];
        assert OfYear(rows, year) == OfYear(pre, year) + [last];
        DebitSumAppend(OfYear(ApprovedYear(pre, year, user, now), year), x);
        DebitSumAppend(OfYear(pre, year), last);
      } else {
        assert OfYear(a, year) == OfYear(ApprovedYear(pre, year, user, now), year) + [];
        assert OfYear(rows, year) == OfYear(pre, year) + [];
        assert OfYear(ApprovedYear(pre, year, user, now), year) + [] == OfYear(ApprovedYear(pre, year, user, now), year);
        assert OfYear(pre, year) + [] == OfYear(pre, year);
      }
    }
  }

  /** In a year with no approved row, the year's rows are exactly its drafts. */
  lemma {:induction false} DraftYearRowsAreDrafts(rows: seq<OpeningRow>, year: int)
    requires !HasApproved(rows, year)
    ensures OfYear(rows, year) == Drafts(rows, year)
    decreases |rows|
  {
    if rows != [] {
      var pre := rows[..|rows| - 1];
      assert !HasApproved(pre, year) by {
        forall x | x in pre ensures !(x.year == year && x.status == Approved) {
          assert x in rows;
        }
      }
      DraftYearRowsAreDrafts(pre, year);
      assert rows[|rows| - 1] in rows;
    }
  }

  /**
   * A successful approve leaves the year wholly approved and balanced: show then
   * reports status approved and equal debit and credit totals.
   */
  lemma ApprovedYearBalances(rows: seq<OpeningRow>, year: int, user: nat, now: int)
    requires OneStatusPerYear(rows)
    requires Drafts(rows, year) != [] && DebitSum(Drafts(rows, year)) == CreditSum(Drafts(rows, year))
    ensures forall x | x in ApprovedYear(rows, year, user, now) && x.year == year :: x.status == Approved
    ensures Show(ApprovedYear(rows, year, user, now), year).status == Approved
    ensures Show(ApprovedYear(rows, year, user, now), year).totalDebit == Show(ApprovedYear(rows, year, user, now), year).totalCredit
  {
    var a := ApprovedYear(rows, year, user, now);
    InDrafts(rows, year);
    assert Drafts(rows, year)[0] in Drafts(rows, year);
    assert Drafts(rows, year)[0] in rows;
    assert !HasApproved(rows, year);
    DraftYearRowsAreDrafts(rows, year);
    ApproveKeepsTotals(rows, year, user, now);
    ApproveKeepsOneStatus(rows, year, user, now);
    var i :| 0 <= i < |rows| && rows[i] == Drafts(rows, year)[0];
    assert a[i] in a && a[i].year == year && a[i].status == Approved;
    forall x | x in a && x.year == year ensures x.status == Approved {
    }
    ShowReportsYearStatus(a, year);
  }

  /** Once a year is approved, store can no longer change it: it is refused and the rows stay as they were. */
  lemma ApprovedYearIsFrozen(rows: seq<OpeningRow>, year: int, user: nat, now: int)
    requires Drafts(rows, year) != []
    ensures HasApproved(ApprovedYear(rows, year, user, now), year)
    ensures Drafts(ApprovedYear(rows, year, user, now), year) == []
  {
    var a := ApprovedYear(rows, year, user, now);
    InDrafts(rows, year);
    assert Drafts(rows, year)[0] in Drafts(rows, year);
    var i :| 0 <= i < |rows| && rows[i] == Drafts(rows, year)[0];
    assert a[i] in a;
    NoDrafts(a, year);
  }

  lemma {:induction false} NoDrafts(rows: seq<OpeningRow>, year: int)
    requires forall i | 0 <= i < |rows| :: !IsDraftOf(rows[i], year)
    ensures Drafts(rows, year) == []
    decreases |rows|
  {
    if rows != [] {
      NoDrafts(rows[..|rows| - 1], year);
    }
  }
}

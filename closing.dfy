/**
  The closing entry (statements.py:58-60): Net Income is subtracted, in
  place, from the balance of every trial-balance row whose account is one
  of the retained-earnings accounts.
*/
module Closing {
  import opened Wrappers
  import opened Ledger

  /** The table after the closing entry. */
  function Closed(rows: seq<Entry>, reAccounts: seq<string>, netIncome: int): (r: seq<Entry>)
    ensures |r| == |rows|
    ensures netIncome == 0 ==> r == rows
  {
    seq(|rows|, i requires 0 <= i < |rows| =>
      if rows[i].account in reAccounts then rows[i].(balance := rows[i].balance - netIncome) else rows[i])
  }

  /** How many rows the closing entry touches. */
  function MatchCount(rows: seq<Entry>, reAccounts: seq<string>): nat
  {
    if rows == [] then 0
    else (if rows[0].account in reAccounts then 1 else 0) + MatchCount(rows[1..], reAccounts)
  }

  /**
    The per-row effect: no row is added, removed or re-keyed; matching rows
    lose Net Income, every other row is untouched.
  */
  lemma ClosedRows(rows: seq<Entry>, reAccounts: seq<string>, netIncome: int)
    ensures |Closed(rows, reAccounts, netIncome)| == |rows|
    ensures forall i :: 0 <= i < |rows| ==>
      Closed(rows, reAccounts, netIncome)[i].account == rows[i].account &&
      Closed(rows, reAccounts, netIncome)[i].balance
        == (if rows[i].account in reAccounts then rows[i].balance - netIncome else rows[i].balance)
  {
  }

  /** The table total moves by Net Income once per matching row. */
  lemma {:induction false} ClosedTotal(rows: seq<Entry>, reAccounts: seq<string>, netIncome: int)
    ensures Total(Closed(rows, reAccounts, netIncome)) == Total(rows) - netIncome * MatchCount(rows, reAccounts)
  {
    if rows != [] {
      var c := Closed(rows, reAccounts, netIncome);
      assert c[1..] == Closed(rows[1..], reAccounts, netIncome);
      ClosedTotal(rows[1..], reAccounts, netIncome);
      var m := MatchCount(rows[1..], reAccounts);
      if rows[0].account in reAccounts {
        assert netIncome * (1 + m) == netIncome + netIncome * m;
      }
    }
  }

  /** With a single matching row `k`, closing is an update of that row alone. */
  lemma ClosedSingle(rows: seq<Entry>, reAccounts: seq<string>, netIncome: int, k: nat)
    requires k < |rows| && rows[k].account in reAccounts
    requires forall j :: 0 <= j < |rows| && j != k ==> rows[j].account !in reAccounts
    ensures Closed(rows, reAccounts, netIncome)
         == rows[k := rows[k].(balance := rows[k].balance + -netIncome)]
  {
  }

  /** An account list that matches no row leaves the table as it was. */
  lemma ClosedNoMatch(rows: seq<Entry>, reAccounts: seq<string>, netIncome: int)
    requires forall r | r in rows :: r.account !in reAccounts
    ensures Closed(rows, reAccounts, netIncome) == rows
  {
    assert forall i :: 0 <= i < |rows| ==> rows[i] in rows;
  }

  /** Closing twice with the same accounts is closing once with the two amounts added. */
  lemma ClosedTwice(rows: seq<Entry>, reAccounts: seq<string>, x: int, y: int)
    ensures Closed(Closed(rows, reAccounts, x), reAccounts, y) == Closed(rows, reAccounts, x + y)
  {
  }

  /** An account sum over accounts that are not closed is unchanged by closing. */
  lemma {:induction false} ClosedAccountSum(rows: seq<Entry>, reAccounts: seq<string>, netIncome: int,
                                            accounts: seq<string>)
    requires forall a | a in accounts :: a !in reAccounts
    ensures AccountSum(Closed(rows, reAccounts, netIncome), accounts) == AccountSum(rows, accounts)
  {
    if rows != [] {
      var c := Closed(rows, reAccounts, netIncome);
      assert c[1..] == Closed(rows[1..], reAccounts, netIncome);
      ClosedAccountSum(rows[1..], reAccounts, netIncome, accounts);
    }
  }

  /** A section sum whose line items list no closed account is unchanged by closing. */
  lemma {:induction false} ClosedSectionSum(rows: seq<Entry>, reAccounts: seq<string>, netIncome: int,
                                            items: seq<LineItem>)
    requires forall a | a in AccountsOf(items) :: a !in reAccounts
    ensures SectionSum(Closed(rows, reAccounts, netIncome), items) == SectionSum(rows, items)
    decreases |items|
  {
    if items != [] {
      var init := items[..|items| - 1];
      assert forall a | a in AccountsOf(init) :: a in AccountsOf(items);
      ClosedSectionSum(rows, reAccounts, netIncome, init);
      ClosedAccountSum(rows, reAccounts, netIncome, items[|items| - 1].accounts);
    }
  }

  /** statements.py:60: the closing entry applied to the caller's table in place. */
  method CloseRetainedEarnings(tb: array<Entry>, reAccounts: seq<string>, netIncome: int)
    modifies tb
    ensures tb[..] == Closed(old(tb[..]), reAccounts, netIncome)
  {
    var i := 0;
    while i < tb.Length
      invariant 0 <= i <= tb.Length
      invariant forall j :: 0 <= j < i ==> tb[j] == Closed(old(tb[..]), reAccounts, netIncome)[j]
      invariant forall j :: i <= j < tb.Length ==> tb[j] == old(tb[j])
    {
      if tb[i].account in reAccounts {
        tb[i] := tb[i].(balance := tb[i].balance - netIncome);
      }
      i := i + 1;
    }
  }
}

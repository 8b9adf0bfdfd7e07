/**
  The trial balance, the classification mapping and the aggregation of
  balances over account lists (statements.py `get_section_sum` and the
  per-line-item `isin(...)['balance'].sum()` expression).
  Amounts are integers in minor currency units.
*/
module Ledger {
  import opened Wrappers

  /** One trial-balance row; `balance` is debit minus credit. */
  datatype Entry = Entry(account: string, balance: int)

  /** A named line item and the account numbers that roll up into it. */
  datatype LineItem = LineItem(name: string, accounts: seq<string>)

  /** A balance-sheet sub-section ("Current Assets", ...) and its line items. */
  datatype SubSection = SubSection(name: string, items: seq<LineItem>)

  /** Sum of all balances of a table. */
  function Total(rows: seq<Entry>): int
  {
    if rows == [] then 0 else rows[0].balance + Total(rows[1..])
  }

  /** Sum of the balances of the rows whose account is listed in `accounts`. */
  function AccountSum(rows: seq<Entry>, accounts: seq<string>): (s: int)
    ensures (forall r | r in rows :: r.account !in accounts) ==> s == 0
    ensures (forall r | r in rows :: r.account in accounts) ==> s == Total(rows)
  {
    if rows == [] then 0
    else (if rows[0].account in accounts then rows[0].balance else 0) + AccountSum(rows[1..], accounts)
  }

  /** When exactly one row `k` has a listed account, the sum is that row's balance. */
  lemma {:induction false} AccountSumUnique(rows: seq<Entry>, accounts: seq<string>, k: nat)
    requires k < |rows| && rows[k].account in accounts
    requires forall j :: 0 <= j < |rows| && j != k ==> rows[j].account !in accounts
    ensures AccountSum(rows, accounts) == rows[k].balance
  {
    if k == 0 {
      assert forall r | r in rows[1..] :: r.account !in accounts by {
        forall r | r in rows[1..] ensures r.account !in accounts {
          var j :| 0 <= j < |rows[1..]| && rows[1..][j] == r;
          assert rows[j + 1] == r;
        }
      }
    } else {
      assert rows[0].account !in accounts;
      AccountSumUnique(rows[1..], accounts, k - 1);
    }
  }

  /** The section sum: the line-item sums added up in mapping order. */
  function SectionSum(rows: seq<Entry>, items: seq<LineItem>): (s: int)
    ensures rows == [] ==> s == 0
  {
    if items == [] then 0
    else SectionSum(rows, items[..|items| - 1]) + AccountSum(rows, items[|items| - 1].accounts)
  }

  /** The line items of every sub-section, in order. */
  function Flat(subs: seq<SubSection>): seq<LineItem>
  {
    if subs == [] then [] else Flat(subs[..|subs| - 1]) + subs[|subs| - 1].items
  }

  /** Every account listed by some line item, in order (duplicates kept). */
  function AccountsOf(items: seq<LineItem>): (r: seq<string>)
    ensures forall a :: a in r <==> exists i :: 0 <= i < |items| && a in items[i].accounts
  {
    if items == [] then []
    else
      var init := items[..|items| - 1];
      assert forall i :: 0 <= i < |init| ==> init[i] == items[i];
      AccountsOf(init) + items[|items| - 1].accounts
  }

  /** How many line items list the account `a`. */
  function Occurrences(a: string, items: seq<LineItem>): nat
  {
    if items == [] then 0
    else Occurrences(a, items[..|items| - 1]) + (if a in items[|items| - 1].accounts then 1 else 0)
  }

  /** Each balance weighted by the number of line items that list its account. */
  function Weighted(rows: seq<Entry>, items: seq<LineItem>): int
  {
    if rows == [] then 0
    else rows[0].balance * Occurrences(rows[0].account, items) + Weighted(rows[1..], items)
  }

  /** The first sub-section called `name`: a dictionary lookup by key. */
  function FindSubSection(name: string, subs: seq<SubSection>): (r: Option<SubSection>)
    ensures r.Some? ==> r.value in subs && r.value.name == name
    ensures r.None? <==> forall s | s in subs :: s.name != name
  {
    if subs == [] then None
    else if subs[0].name == name then Some(subs[0])
    else FindSubSection(name, subs[1..])
  }

  lemma {:induction false} SectionSumAppend(rows: seq<Entry>, a: seq<LineItem>, b: seq<LineItem>)
    ensures SectionSum(rows, a + b) == SectionSum(rows, a) + SectionSum(rows, b)
    decreases |b|
  {
    if b == [] {
      assert a + b == a;
    } else {
      var b' := b[..|b| - 1];
      assert (a + b)[..|a + b| - 1] == a + b';
      SectionSumAppend(rows, a, b');
    }
  }

  lemma {:induction false} OccurrencesAppend(x: string, a: seq<LineItem>, b: seq<LineItem>)
    ensures Occurrences(x, a + b) == Occurrences(x, a) + Occurrences(x, b)
    decreases |b|
  {
    if b == [] {
      assert a + b == a;
    } else {
      var b' := b[..|b| - 1];
      assert (a + b)[..|a + b| - 1] == a + b';
      OccurrencesAppend(x, a, b');
    }
  }

  /** Adding one line item adds its account sum to the weighted total. */
  lemma {:induction false} WeightedSnoc(rows: seq<Entry>, items: seq<LineItem>, it: LineItem)
    ensures Weighted(rows, items + [it]) == Weighted(rows, items) + AccountSum(rows, it.accounts)
  {
    if rows != [] {
      var r := rows[0];
      assert (items + [it])[..|items + [it]| - 1] == items;
      var o := Occurrences(r.account, items);
      if r.account in it.accounts {
        assert Occurrences(r.account, items + [it]) == o + 1;
        assert r.balance * (o + 1) == r.balance * o + r.balance;
      } else {
        assert Occurrences(r.account, items + [it]) == o;
      }
      WeightedSnoc(rows[1..], items, it);
    }
  }

  /** A section sum counts each balance once per line item listing its account. */
  lemma {:induction false} SectionSumIsWeighted(rows: seq<Entry>, items: seq<LineItem>)
    ensures SectionSum(rows, items) == Weighted(rows, items)
    decreases |items|
  {
    if items == [] {
      WeightedEmpty(rows);
    } else {
      var init := items[..|items| - 1];
      SectionSumIsWeighted(rows, init);
      WeightedSnoc(rows, init, items[|items| - 1]);
      assert init + [items[|items| - 1]] == items;
    }
  }

  lemma {:induction false} WeightedEmpty(rows: seq<Entry>)
    ensures Weighted(rows, []) == 0
  {
    if rows != [] {
      WeightedEmpty(rows[1..]);
    }
  }

  /** When every account is listed exactly once, the weighted sum is the plain total. */
  lemma {:induction false} WeightedOnce(rows: seq<Entry>, items: seq<LineItem>)
    requires forall r | r in rows :: Occurrences(r.account, items) == 1
    ensures Weighted(rows, items) == Total(rows)
  {
    if rows != [] {
      assert rows[0] in rows;
      assert forall r | r in rows[1..] :: r in rows;
      WeightedOnce(rows[1..], items);
    }
  }

  /** Changing one row's balance by `d` moves the weighted sum by `d` per listing of its account. */
  lemma {:induction false} WeightedUpdate(rows: seq<Entry>, items: seq<LineItem>, k: nat, d: int)
    requires k < |rows|
    ensures Weighted(rows[k := rows[k].(balance := rows[k].balance + d)], items)
         == Weighted(rows, items) + d * Occurrences(rows[k].account, items)
  {
    var rows' := rows[k := rows[k].(balance := rows[k].balance + d)];
    if k == 0 {
      assert rows'[1..] == rows[1..];
      var o := Occurrences(rows[0].account, items);
      assert (rows[0].balance + d) * o == rows[0].balance * o + d * o;
    } else {
      assert rows'[1..] == rows[1..][k - 1 := rows[k].(balance := rows[k].balance + d)];
      WeightedUpdate(rows[1..], items, k - 1, d);
    }
  }

  /** An account listed by some line item is counted at least once. */
  lemma {:induction false} ListedOccurs(a: string, items: seq<LineItem>)
    requires a in AccountsOf(items)
    ensures Occurrences(a, items) >= 1
    decreases |items|
  {
    var init := items[..|items| - 1];
    if a !in items[|items| - 1].accounts {
      assert a in AccountsOf(init);
      ListedOccurs(a, init);
    }
  }

  /** A line item of one sub-section is also a line item of the flattened section. */
  lemma {:induction false} FlatOccurs(a: string, subs: seq<SubSection>, s: SubSection)
    requires s in subs
    ensures Occurrences(a, Flat(subs)) >= Occurrences(a, s.items)
    decreases |subs|
  {
    var init := subs[..|subs| - 1];
    OccurrencesAppend(a, Flat(init), subs[|subs| - 1].items);
    if s != subs[|subs| - 1] {
      assert s in init;
      FlatOccurs(a, init, s);
    }
  }
}

/**
  The statement rows shared by the builders: the `Line Item`, `Amount`,
  `is_header`, `is_total` and `is_final_total` columns of a statement.
  A flag the source leaves out of a row's record is `false` here.
*/
module Report {
  import opened Wrappers
  import opened Ledger

  datatype Row = Row(desc: string, amount: Option<int>, isHeader: bool, isTotal: bool, isFinalTotal: bool)

  datatype Statement = Statement(name: string, rows: seq<Row>)

  function HeaderRow(desc: string): Row { Row(desc, None, true, false, false) }

  function TotalRow(desc: string, amount: int): Row { Row(desc, Some(amount), false, true, false) }

  function FinalTotalRow(desc: string, amount: int): Row { Row(desc, Some(amount), false, true, true) }

  /** A presentation amount: the ledger amount, negated for credit-normal sections. */
  function Signed(negate: bool, x: int): int
  {
    if negate then -x else x
  }

  /** A line-item row: indented name, the item's account sum in presentation sign. */
  function LineRow(rows: seq<Entry>, item: LineItem, negate: bool): (r: Row)
    ensures r.amount.Some? && !r.isHeader && !r.isTotal && !r.isFinalTotal
    ensures (forall e | e in rows :: e.account !in item.accounts) ==> r.amount == Some(0)
  {
    Row("  " + item.name, Some(Signed(negate, AccountSum(rows, item.accounts))), false, false, false)
  }

  /** One line-item row per mapped line item, in mapping order. */
  function LineRows(rows: seq<Entry>, items: seq<LineItem>, negate: bool): seq<Row>
  {
    seq(|items|, i requires 0 <= i < |items| => LineRow(rows, items[i], negate))
  }

  /** A headed block: a header row, the line rows, and a closing total row. */
  function Block(header: string, lines: seq<Row>, total: Row): seq<Row>
  {
    [HeaderRow(header)] + lines + [total]
  }

  lemma BlockParts(header: string, lines: seq<Row>, total: Row)
    ensures var b := Block(header, lines, total);
      |b| == |lines| + 2 && b[0] == HeaderRow(header) && b[1..|b| - 1] == lines && b[|b| - 1] == total
      && b[..|b| - 1] == [HeaderRow(header)] + lines
  {
    var b := Block(header, lines, total);
    assert b[1..|b| - 1] == lines;
  }

  /** A block placed after `at` rows: where its header, its `n` lines and its total sit. */
  lemma BlockAt(r: seq<Row>, pre: seq<Row>, header: string, lines: seq<Row>, total: Row, post: seq<Row>,
                at: nat, n: nat)
    requires r == pre + Block(header, lines, total) + post && at == |pre| && n == |lines|
    ensures |r| == at + n + 2 + |post| && r[at] == HeaderRow(header) && r[at + 1 + n] == total
    ensures forall i :: 0 <= i < n ==> r[at + 1 + i] == lines[i]
  {
  }

  /** The same placement seen as slices: the block's lines are one slice of `r`. */
  lemma BlockSlice(r: seq<Row>, pre: seq<Row>, header: string, lines: seq<Row>, total: Row, post: seq<Row>,
                   at: nat, n: nat)
    requires r == pre + Block(header, lines, total) + post && at == |pre| && n == |lines|
    ensures |r| == at + n + 2 + |post| && r[at + 1..at + 1 + n] == lines && r[at + 1 + n] == total
  {
    BlockAt(r, pre, header, lines, total, post, at, n);
  }

  lemma AppendAssoc<T>(a: seq<T>, b: seq<T>, c: seq<T>)
    ensures a + b + c == a + (b + c)
  {
  }

  /** One more line item appends one row. */
  lemma LineRowsSnoc(rows: seq<Entry>, items: seq<LineItem>, negate: bool, i: nat)
    requires i < |items|
    ensures LineRows(rows, items[..i + 1], negate) == LineRows(rows, items[..i], negate) + [LineRow(rows, items[i], negate)]
  {
    assert items[..i + 1][..i] == items[..i];
  }

  /** The amount a row shows; a row without an amount counts as zero. */
  function Shown(r: Row): int
  {
    match r.amount
    case Some(v) => v
    case None => 0
  }

  /** The sum of the amounts shown on a run of rows. */
  function SumAmounts(shown: seq<Row>): int
  {
    if shown == [] then 0 else SumAmounts(shown[..|shown| - 1]) + Shown(shown[|shown| - 1])
  }

  /** Sum of the amounts of the rows flagged as totals. */
  function SumTotals(shown: seq<Row>): int
  {
    if shown == [] then 0
    else SumTotals(shown[..|shown| - 1]) + (if shown[|shown| - 1].isTotal then Shown(shown[|shown| - 1]) else 0)
  }

  /** Sum of the amounts of the plain line-item rows (neither header nor total). */
  function SumLines(shown: seq<Row>): int
  {
    if shown == [] then 0
    else SumLines(shown[..|shown| - 1]) + (if IsLine(shown[|shown| - 1]) then Shown(shown[|shown| - 1]) else 0)
  }

  predicate IsLine(r: Row) { !r.isHeader && !r.isTotal }

  lemma {:induction false} SumAmountsAppend(a: seq<Row>, b: seq<Row>)
    ensures SumAmounts(a + b) == SumAmounts(a) + SumAmounts(b)
    decreases |b|
  {
    if b == [] {
      assert a + b == a;
    } else {
      assert (a + b)[..|a + b| - 1] == a + b[..|b| - 1];
      SumAmountsAppend(a, b[..|b| - 1]);
    }
  }

  lemma {:induction false} SumTotalsAppend(a: seq<Row>, b: seq<Row>)
    ensures SumTotals(a + b) == SumTotals(a) + SumTotals(b)
    decreases |b|
  {
    if b == [] {
      assert a + b == a;
    } else {
      assert (a + b)[..|a + b| - 1] == a + b[..|b| - 1];
      SumTotalsAppend(a, b[..|b| - 1]);
    }
  }

  lemma {:induction false} SumLinesAppend(a: seq<Row>, b: seq<Row>)
    ensures SumLines(a + b) == SumLines(a) + SumLines(b)
    decreases |b|
  {
    if b == [] {
      assert a + b == a;
    } else {
      assert (a + b)[..|a + b| - 1] == a + b[..|b| - 1];
      SumLinesAppend(a, b[..|b| - 1]);
    }
  }

  /** The sums over a block are the sums over its line rows plus its total row. */
  lemma BlockSums(header: string, lines: seq<Row>, total: Row)
    ensures SumAmounts(Block(header, lines, total)) == SumAmounts(lines) + Shown(total)
    ensures SumTotals(Block(header, lines, total)) == SumTotals(lines) + (if total.isTotal then Shown(total) else 0)
    ensures SumLines(Block(header, lines, total)) == SumLines(lines) + (if IsLine(total) then Shown(total) else 0)
  {
    var h := [HeaderRow(header)];
    assert SumAmounts(h) == 0 && SumTotals(h) == 0 && SumLines(h) == 0 by {
      assert h[..0] == [];
    }
    assert SumAmounts([total]) == Shown(total) && SumTotals([total]) == (if total.isTotal then Shown(total) else 0)
        && SumLines([total]) == (if IsLine(total) then Shown(total) else 0) by {
      assert [total][..0] == [];
    }
    SumAmountsAppend(h, lines);
    SumAmountsAppend(h + lines, [total]);
    SumTotalsAppend(h, lines);
    SumTotalsAppend(h + lines, [total]);
    SumLinesAppend(h, lines);
    SumLinesAppend(h + lines, [total]);
  }

  /**
    The displayed line amounts add up to `sign` times the section sum, and
    no line row is a total.
  */
  lemma {:induction false} LineRowsSum(rows: seq<Entry>, items: seq<LineItem>, negate: bool)
    ensures SumAmounts(LineRows(rows, items, negate)) == Signed(negate, SectionSum(rows, items))
    ensures SumLines(LineRows(rows, items, negate)) == Signed(negate, SectionSum(rows, items))
    ensures SumTotals(LineRows(rows, items, negate)) == 0
    decreases |items|
  {
    if items != [] {
      var init := items[..|items| - 1];
      var lr := LineRows(rows, items, negate);
      assert lr[..|lr| - 1] == LineRows(rows, init, negate);
      LineRowsSum(rows, init, negate);
      var last := lr[|lr| - 1];
      var s := SectionSum(rows, init);
      var a := AccountSum(rows, items[|items| - 1].accounts);
      assert Shown(last) == Signed(negate, a) && IsLine(last) && !last.isTotal;
    }
  }
}

/**
  The income statement (statements.py:26-54): revenue and expense line
  items, their totals and Net Income, all from the balances as they stand
  before the closing entry. Revenue is shown negated (credit-normal).
*/
module IncomeStatement {
  import opened Wrappers
  import opened Ledger
  import opened Report

  /** Net Income: presentation revenue (the negated revenue sum) less expenses. */
  function NetIncome(rows: seq<Entry>, revenue: seq<LineItem>, expenses: seq<LineItem>): (ni: int)
    ensures ni == -Weighted(rows, revenue) - Weighted(rows, expenses)
  {
    SectionSumIsWeighted(rows, revenue);
    SectionSumIsWeighted(rows, expenses);
    var revenueTotal := -SectionSum(rows, revenue);
    var expenseTotal := SectionSum(rows, expenses);
    revenueTotal - expenseTotal
  }

  function RevenueBlock(rows: seq<Entry>, revenue: seq<LineItem>): seq<Row>
  {
    Block("Revenue", LineRows(rows, revenue, true), TotalRow("Total Revenue", -SectionSum(rows, revenue)))
  }

  function ExpenseBlock(rows: seq<Entry>, expenses: seq<LineItem>): seq<Row>
  {
    Block("Expenses", LineRows(rows, expenses, false), TotalRow("Total Expenses", SectionSum(rows, expenses)))
  }

  /** The rows of the income statement, in the order they are emitted. */
  function IncomeRows(rows: seq<Entry>, revenue: seq<LineItem>, expenses: seq<LineItem>): (r: seq<Row>)
    ensures |r| == 5 + |revenue| + |expenses|
    ensures r[|r| - 1] == FinalTotalRow("Net Income", NetIncome(rows, revenue, expenses))
  {
    RevenueBlock(rows, revenue) + ExpenseBlock(rows, expenses)
    + [FinalTotalRow("Net Income", NetIncome(rows, revenue, expenses))]
  }

  /** `get_section_sum`: the line-item sums of one section, accumulated in mapping order. */
  method GetSectionSum(tb: array<Entry>, section: seq<LineItem>) returns (total: int)
    ensures total == SectionSum(tb[..], section)
    ensures total == Weighted(tb[..], section)
  {
    total := 0;
    for i := 0 to |section|
      invariant total == SectionSum(tb[..], section[..i])
    {
      assert section[..i + 1][..i] == section[..i];
      total := total + AccountSum(tb[..], section[i].accounts);
    }
    assert section[..|section|] == section;
    SectionSumIsWeighted(tb[..], section);
  }

  /**
    statements.py:43-44 and 48-49: one appended row per line item, in
    mapping order, showing its account sum (negated for revenue).
  */
  method AppendLineRows(tb: array<Entry>, isData: seq<Row>, items: seq<LineItem>, negate: bool)
    returns (out: seq<Row>)
    ensures out == isData + LineRows(tb[..], items, negate)
  {
    var rows := tb[..];
    out := isData;
    for i := 0 to |items|
      invariant out == isData + LineRows(rows, items[..i], negate)
    {
      LineRowsSnoc(rows, items, negate, i);
      var balance := AccountSum(rows, items[i].accounts);
      out := out + [Row("  " + items[i].name, Some(if negate then -balance else balance), false, false, false)];
    }
    assert items[..|items|] == items;
  }

  /** statements.py:32-54: the income-statement rows and the Net Income handed to the balance sheet. */
  method BuildIncomeStatement(tb: array<Entry>, revenue: seq<LineItem>, expenses: seq<LineItem>)
    returns (isData: seq<Row>, netIncome: int)
    ensures isData == IncomeRows(tb[..], revenue, expenses)
    ensures netIncome == -SectionSum(tb[..], revenue) - SectionSum(tb[..], expenses)
    ensures isData[|isData| - 1].amount == Some(netIncome)
  {
    ghost var rows := tb[..];
    var revenueTotal := GetSectionSum(tb, revenue);
    var expenseTotal := GetSectionSum(tb, expenses);
    revenueTotal := -revenueTotal;
    netIncome := revenueTotal - expenseTotal;

    isData := AppendLineRows(tb, [HeaderRow("Revenue")], revenue, true);
    isData := isData + [TotalRow("Total Revenue", revenueTotal)];
    assert isData == RevenueBlock(rows, revenue);

    ghost var prefix := isData;
    isData := AppendLineRows(tb, isData + [HeaderRow("Expenses")], expenses, false);
    isData := isData + [TotalRow("Total Expenses", expenseTotal)];
    assert isData == prefix + ExpenseBlock(rows, expenses);
    assert netIncome == NetIncome(rows, revenue, expenses);
    isData := isData + [FinalTotalRow("Net Income", netIncome)];
  }

  /** The revenue block opens the income statement. */
  lemma RevenueLayout(rows: seq<Entry>, revenue: seq<LineItem>, expenses: seq<LineItem>)
    ensures var r := IncomeRows(rows, revenue, expenses);
      var nr := |revenue|;
      |r| == 5 + nr + |expenses| &&
      r[0] == HeaderRow("Revenue") &&
      (forall i :: 0 <= i < nr ==> r[1 + i] == LineRow(rows, revenue[i], true)) &&
      r[1 + nr] == TotalRow("Total Revenue", -SectionSum(rows, revenue))
  {
    var r := IncomeRows(rows, revenue, expenses);
    var rb, eb := RevenueBlock(rows, revenue), ExpenseBlock(rows, expenses);
    var last := [FinalTotalRow("Net Income", NetIncome(rows, revenue, expenses))];
    var lines, total := LineRows(rows, revenue, true), TotalRow("Total Revenue", -SectionSum(rows, revenue));
    AppendAssoc(rb, eb, last);
    assert r == [] + rb + (eb + last);
    BlockAt(r, [], "Revenue", lines, total, eb + last, 0, |revenue|);
    forall i | 0 <= i < |revenue|
      ensures r[1 + i] == LineRow(rows, revenue[i], true)
    {
      assert r[0 + 1 + i] == lines[i];
    }
    assert r[1 + |revenue|] == total;
  }

  /** The expense block follows the revenue block; Net Income closes the statement. */
  lemma ExpenseLayout(rows: seq<Entry>, revenue: seq<LineItem>, expenses: seq<LineItem>)
    ensures var r := IncomeRows(rows, revenue, expenses);
      var nr, ne := |revenue|, |expenses|;
      |r| == 5 + nr + ne &&
      r[2 + nr] == HeaderRow("Expenses") &&
      (forall j :: 0 <= j < ne ==> r[3 + nr + j] == LineRow(rows, expenses[j], false)) &&
      r[3 + nr + ne] == TotalRow("Total Expenses", SectionSum(rows, expenses))
  {
    var r := IncomeRows(rows, revenue, expenses);
    var rb := RevenueBlock(rows, revenue);
    var last := [FinalTotalRow("Net Income", NetIncome(rows, revenue, expenses))];
    assert |rb| == 2 + |revenue|;
    assert r == rb + ExpenseBlock(rows, expenses) + last;
    BlockAt(r, rb, "Expenses", LineRows(rows, expenses, false), TotalRow("Total Expenses", SectionSum(rows, expenses)),
            last, 2 + |revenue|, |expenses|);
  }

  /**
    The layout: a Revenue header, one row per revenue item (its negated
    account sum), Total Revenue, an Expenses header, one row per expense
    item, Total Expenses and Net Income. A line item whose accounts sum to
    zero still has its row.
  */
  lemma IncomeLayout(rows: seq<Entry>, revenue: seq<LineItem>, expenses: seq<LineItem>)
    ensures var r := IncomeRows(rows, revenue, expenses);
      var nr, ne := |revenue|, |expenses|;
      |r| == 5 + nr + ne &&
      r[0] == HeaderRow("Revenue") &&
      (forall i :: 0 <= i < nr ==> r[1 + i] == LineRow(rows, revenue[i], true)) &&
      r[1 + nr].desc == "Total Revenue" && r[1 + nr].isTotal &&
      r[2 + nr] == HeaderRow("Expenses") &&
      (forall j :: 0 <= j < ne ==> r[3 + nr + j] == LineRow(rows, expenses[j], false)) &&
      r[3 + nr + ne].desc == "Total Expenses" && r[3 + nr + ne].isTotal &&
      r[4 + nr + ne].desc == "Net Income" && r[4 + nr + ne].isTotal
  {
    RevenueLayout(rows, revenue, expenses);
    ExpenseLayout(rows, revenue, expenses);
  }

  /**
    Exactly the two headers carry no amount, and only Net Income, the last
    row, is a final total.
  */
  lemma IncomeFlags(rows: seq<Entry>, revenue: seq<LineItem>, expenses: seq<LineItem>)
    ensures var r := IncomeRows(rows, revenue, expenses);
      var nr := |revenue|;
      (forall i :: 0 <= i < |r| ==> (r[i].amount.None? <==> i == 0 || i == 2 + nr)) &&
      (forall i :: 0 <= i < |r| ==> (r[i].isHeader <==> i == 0 || i == 2 + nr)) &&
      (forall i :: 0 <= i < |r| ==> (r[i].isFinalTotal <==> i == |r| - 1))
  {
    var r := IncomeRows(rows, revenue, expenses);
    var nr, ne := |revenue|, |expenses|;
    IncomeLayout(rows, revenue, expenses);
    forall i | 0 <= i < |r|
      ensures (r[i].amount.None? <==> i == 0 || i == 2 + nr)
      ensures (r[i].isHeader <==> i == 0 || i == 2 + nr)
      ensures (r[i].isFinalTotal <==> i == |r| - 1)
    {
      if 1 <= i < 1 + nr {
        assert r[i] == LineRow(rows, revenue[i - 1], true);
      } else if 3 + nr <= i < 3 + nr + ne {
        assert r[i] == LineRow(rows, expenses[i - 3 - nr], false);
      }
    }
  }

  /** Total Revenue is the sum of the displayed revenue lines, minus the revenue section sum. */
  lemma RevenueTotal(rows: seq<Entry>, revenue: seq<LineItem>, expenses: seq<LineItem>)
    ensures var r := IncomeRows(rows, revenue, expenses);
      var nr := |revenue|;
      |r| == 5 + nr + |expenses| &&
      Shown(r[1 + nr]) == SumAmounts(r[1..1 + nr]) == -SectionSum(rows, revenue)
  {
    var r := IncomeRows(rows, revenue, expenses);
    var rb, eb := RevenueBlock(rows, revenue), ExpenseBlock(rows, expenses);
    var last := [FinalTotalRow("Net Income", NetIncome(rows, revenue, expenses))];
    AppendAssoc(rb, eb, last);
    assert r == [] + rb + (eb + last);
    var lines, total := LineRows(rows, revenue, true), TotalRow("Total Revenue", -SectionSum(rows, revenue));
    BlockSlice(r, [], "Revenue", lines, total, eb + last, 0, |revenue|);
    assert r[1..1 + |revenue|] == lines && r[1 + |revenue|] == total;
    LineRowsSum(rows, revenue, true);
  }

  /** Total Expenses is the sum of the displayed expense lines, the expense section sum. */
  lemma ExpenseTotal(rows: seq<Entry>, revenue: seq<LineItem>, expenses: seq<LineItem>)
    ensures var r := IncomeRows(rows, revenue, expenses);
      var nr, ne := |revenue|, |expenses|;
      |r| == 5 + nr + ne &&
      Shown(r[3 + nr + ne]) == SumAmounts(r[3 + nr..3 + nr + ne]) == SectionSum(rows, expenses)
  {
    var r := IncomeRows(rows, revenue, expenses);
    var rb := RevenueBlock(rows, revenue);
    var last := [FinalTotalRow("Net Income", NetIncome(rows, revenue, expenses))];
    assert |rb| == 2 + |revenue|;
    assert r == rb + ExpenseBlock(rows, expenses) + last;
    var lines, total := LineRows(rows, expenses, false), TotalRow("Total Expenses", SectionSum(rows, expenses));
    BlockSlice(r, rb, "Expenses", lines, total, last, 2 + |revenue|, |expenses|);
    assert r[3 + |revenue|..3 + |revenue| + |expenses|] == lines && r[3 + |revenue| + |expenses|] == total;
    LineRowsSum(rows, expenses, false);
  }

  /**
    Total Revenue is the sum of the displayed (negated) revenue lines, Total
    Expenses the sum of the displayed expense lines, and Net Income is
    their difference, i.e. minus the revenue sum minus the expense sum.
  */
  lemma IncomeTotals(rows: seq<Entry>, revenue: seq<LineItem>, expenses: seq<LineItem>)
    ensures var r := IncomeRows(rows, revenue, expenses);
      var nr, ne := |revenue|, |expenses|;
      |r| == 5 + nr + ne &&
      Shown(r[1 + nr]) == SumAmounts(r[1..1 + nr]) &&
      Shown(r[3 + nr + ne]) == SumAmounts(r[3 + nr..3 + nr + ne]) &&
      Shown(r[4 + nr + ne]) == Shown(r[1 + nr]) - Shown(r[3 + nr + ne]) &&
      Shown(r[4 + nr + ne]) == -SectionSum(rows, revenue) - SectionSum(rows, expenses)
  {
    RevenueTotal(rows, revenue, expenses);
    ExpenseTotal(rows, revenue, expenses);
  }
}

/**
  The balance sheet (statements.py:62-88): Assets, Liabilities and Equity,
  each a run of sub-sections, built from the table after the closing entry.
  Liabilities and equity are shown negated (`sign = -1`).
*/
module BalanceSheet {
  import opened Wrappers
  import opened Ledger
  import opened Report

  /** A sub-section: its header, its line items, and "Total <sub-section>". */
  function SubSectionRows(rows: seq<Entry>, sub: SubSection, negate: bool): (r: seq<Row>)
    ensures |r| == |sub.items| + 2
    ensures r[0] == HeaderRow(sub.name) && r[|r| - 1].desc == "Total " + sub.name && r[|r| - 1].isTotal
  {
    Block(sub.name, LineRows(rows, sub.items, negate),
          TotalRow("Total " + sub.name, Signed(negate, SectionSum(rows, sub.items))))
  }

  /** The rows of every sub-section of a section, in mapping order. */
  function SectionRows(rows: seq<Entry>, subs: seq<SubSection>, negate: bool): (r: seq<Row>)
    ensures r == [] <==> subs == []
  {
    if subs == [] then []
    else SectionRows(rows, subs[..|subs| - 1], negate) + SubSectionRows(rows, subs[|subs| - 1], negate)
  }

  /** The balance-sheet rows from the (closed) table. */
  function BalanceSheetRows(rows: seq<Entry>, assets: seq<SubSection>, liabilities: seq<SubSection>,
                            equity: seq<SubSection>): (r: seq<Row>)
    ensures |r| >= 2 && r[|r| - 1].desc == "Total Liabilities and Equity" && r[|r| - 1].isFinalTotal
    ensures |SectionRows(rows, assets, false)| < |r| && r[|SectionRows(rows, assets, false)|].desc == "Total Assets"
  {
    SectionRows(rows, assets, false)
    + [FinalTotalRow("Total Assets", SectionSum(rows, Flat(assets)))]
    + SectionRows(rows, liabilities, true) + SectionRows(rows, equity, true)
    + [FinalTotalRow("Total Liabilities and Equity",
                     -SectionSum(rows, Flat(liabilities)) - SectionSum(rows, Flat(equity)))]
  }

  /** One more sub-section: its rows are appended and its total added. */
  lemma SubSectionStep(rows: seq<Entry>, section: seq<SubSection>, i: nat, negate: bool)
    requires i < |section|
    ensures SectionRows(rows, section[..i + 1], negate)
         == SectionRows(rows, section[..i], negate) + SubSectionRows(rows, section[i], negate)
    ensures Signed(negate, SectionSum(rows, Flat(section[..i + 1])))
         == Signed(negate, SectionSum(rows, Flat(section[..i]))) + Signed(negate, SectionSum(rows, section[i].items))
  {
    assert section[..i + 1][..i] == section[..i];
    SectionSumAppend(rows, Flat(section[..i]), section[i].items);
  }

  /** One more line item: its row is appended and its presentation amount added. */
  lemma ItemStep(rows: seq<Entry>, items: seq<LineItem>, j: nat, negate: bool)
    requires j < |items|
    ensures var x := AccountSum(rows, items[j].accounts);
      var sign := if negate then -1 else 1;
      LineRows(rows, items[..j + 1], negate)
        == LineRows(rows, items[..j], negate) + [Row("  " + items[j].name, Some(x * sign), false, false, false)] &&
      Signed(negate, SectionSum(rows, items[..j + 1])) == Signed(negate, SectionSum(rows, items[..j])) + x * sign
  {
    LineRowsSnoc(rows, items, negate, j);
    assert items[..j + 1][..j] == items[..j];
  }

  /**
    statements.py:64-77 (`process_bs_section`): appends the section's rows to
    `bsData` and returns the section total, the sum of its sub-section
    totals, which is the presentation-signed sum over all its line items.
  */
  method ProcessBsSection(tb: array<Entry>, bsData: seq<Row>, section: seq<SubSection>, isLiabilityOrEquity: bool)
    returns (out: seq<Row>, sectionTotal: int)
    ensures out == bsData + SectionRows(tb[..], section, isLiabilityOrEquity)
    ensures sectionTotal == Signed(isLiabilityOrEquity, SectionSum(tb[..], Flat(section)))
  {
    var rows := tb[..];
    out := bsData;
    sectionTotal := 0;
    for i := 0 to |section|
      invariant out == bsData + SectionRows(rows, section[..i], isLiabilityOrEquity)
      invariant sectionTotal == Signed(isLiabilityOrEquity, SectionSum(rows, Flat(section[..i])))
    {
      var sub := section[i];
      ghost var start := out;
      out := out + [HeaderRow(sub.name)];
      var subSectionTotal := 0;
      for j := 0 to |sub.items|
        invariant out == start + [HeaderRow(sub.name)] + LineRows(rows, sub.items[..j], isLiabilityOrEquity)
        invariant subSectionTotal == Signed(isLiabilityOrEquity, SectionSum(rows, sub.items[..j]))
      {
        var sign := if isLiabilityOrEquity then -1 else 1;
        var itemBalance := AccountSum(rows, sub.items[j].accounts) * sign;
        ItemStep(rows, sub.items, j, isLiabilityOrEquity);
        var row := Row("  " + sub.items[j].name, Some(itemBalance), false, false, false);
        AppendAssoc(start + [HeaderRow(sub.name)], LineRows(rows, sub.items[..j], isLiabilityOrEquity), [row]);
        out := out + [row];
        subSectionTotal := subSectionTotal + itemBalance;
      }
      assert sub.items[..|sub.items|] == sub.items;
      var total := TotalRow("Total " + sub.name, subSectionTotal);
      ghost var lines := LineRows(rows, sub.items, isLiabilityOrEquity);
      AppendAssoc(start, [HeaderRow(sub.name)], lines);
      AppendAssoc(start, [HeaderRow(sub.name)] + lines, [total]);
      out := out + [total];
      assert out == start + SubSectionRows(rows, sub, isLiabilityOrEquity);
      AppendAssoc(bsData, SectionRows(rows, section[..i], isLiabilityOrEquity), SubSectionRows(rows, sub, isLiabilityOrEquity));
      SubSectionStep(rows, section, i, isLiabilityOrEquity);
      sectionTotal := sectionTotal + subSectionTotal;
    }
    assert section[..|section|] == section;
  }

  /**
    statements.py:62-86: the balance-sheet rows, section by section, each
    section followed by its final total where the source emits one.
    A section missing from the mapping is a KeyError raised in the source
    between these appends; callers check for it before calling.
  */
  method BuildBalanceSheet(tb: array<Entry>, assets: seq<SubSection>, liabilities: seq<SubSection>,
                           equity: seq<SubSection>)
    returns (bsData: seq<Row>)
    ensures bsData == BalanceSheetRows(tb[..], assets, liabilities, equity)
  {
    ghost var rows := tb[..];
    ghost var a, l, e := SectionRows(rows, assets, false), SectionRows(rows, liabilities, true),
                         SectionRows(rows, equity, true);
    var assetTotal;
    bsData, assetTotal := ProcessBsSection(tb, [], assets, false);
    assert [] + a == a;
    ghost var ta := FinalTotalRow("Total Assets", SectionSum(rows, Flat(assets)));
    bsData := bsData + [FinalTotalRow("Total Assets", assetTotal)];
    ghost var head := bsData;
    assert head == a + [ta];
    var liabilitiesTotal, equityTotal;
    bsData, liabilitiesTotal := ProcessBsSection(tb, bsData, liabilities, true);
    assert liabilitiesTotal == -SectionSum(rows, Flat(liabilities));
    bsData, equityTotal := ProcessBsSection(tb, bsData, equity, true);
    assert equityTotal == -SectionSum(rows, Flat(equity));
    assert bsData == head + l + e;
    var totalLiabilitiesAndEquity := liabilitiesTotal + equityTotal;
    bsData := bsData + [FinalTotalRow("Total Liabilities and Equity", totalLiabilitiesAndEquity)];
    assert bsData == head + l + e + [FinalTotalRow("Total Liabilities and Equity", totalLiabilitiesAndEquity)];
  }

  /**
    Within a sub-section, "Total <sub-section>" equals the sum of the
    displayed line amounts; the sub-section has |items| + 2 rows.
  */
  lemma SubSectionTotal(rows: seq<Entry>, sub: SubSection, negate: bool)
    ensures var r := SubSectionRows(rows, sub, negate);
      |r| == |sub.items| + 2 && r[0] == HeaderRow(sub.name) &&
      r[|r| - 1].desc == "Total " + sub.name && r[|r| - 1].isTotal &&
      Shown(r[|r| - 1]) == SumAmounts(r[1..|r| - 1])
  {
    var r := SubSectionRows(rows, sub, negate);
    assert r[1..|r| - 1] == LineRows(rows, sub.items, negate);
    LineRowsSum(rows, sub.items, negate);
  }

  /**
    The section total is both the sum of the sub-section total rows and the
    sum of the displayed line-item rows, and equals the presentation-signed
    sum over the section's line items.
  */
  lemma SectionTotals(rows: seq<Entry>, subs: seq<SubSection>, negate: bool)
    ensures SumTotals(SectionRows(rows, subs, negate)) == Signed(negate, SectionSum(rows, Flat(subs)))
    ensures SumLines(SectionRows(rows, subs, negate)) == Signed(negate, SectionSum(rows, Flat(subs)))
  {
    SectionTotalRows(rows, subs, negate);
    SectionLineRows(rows, subs, negate);
  }

  /** The sub-section total rows of a section add up to its presentation-signed sum. */
  lemma {:induction false} SectionTotalRows(rows: seq<Entry>, subs: seq<SubSection>, negate: bool)
    ensures SumTotals(SectionRows(rows, subs, negate)) == Signed(negate, SectionSum(rows, Flat(subs)))
    decreases |subs|
  {
    if subs != [] {
      var init := subs[..|subs| - 1];
      var last := subs[|subs| - 1];
      SectionTotalRows(rows, init, negate);
      var l := LineRows(rows, last.items, negate);
      var t := TotalRow("Total " + last.name, Signed(negate, SectionSum(rows, last.items)));
      LineRowsSum(rows, last.items, negate);
      BlockSums(last.name, l, t);
      SumTotalsAppend(SectionRows(rows, init, negate), Block(last.name, l, t));
      SectionSumAppend(rows, Flat(init), last.items);
    }
  }

  /** The line-item rows of a section add up to its presentation-signed sum. */
  lemma {:induction false} SectionLineRows(rows: seq<Entry>, subs: seq<SubSection>, negate: bool)
    ensures SumLines(SectionRows(rows, subs, negate)) == Signed(negate, SectionSum(rows, Flat(subs)))
    decreases |subs|
  {
    if subs != [] {
      var init := subs[..|subs| - 1];
      var last := subs[|subs| - 1];
      SectionLineRows(rows, init, negate);
      var l := LineRows(rows, last.items, negate);
      var t := TotalRow("Total " + last.name, Signed(negate, SectionSum(rows, last.items)));
      LineRowsSum(rows, last.items, negate);
      BlockSums(last.name, l, t);
      SumLinesAppend(SectionRows(rows, init, negate), Block(last.name, l, t));
      SectionSumAppend(rows, Flat(init), last.items);
    }
  }

  /** No row of a section is a final total. */
  lemma {:induction false} SectionNoFinalTotal(rows: seq<Entry>, subs: seq<SubSection>, negate: bool)
    ensures forall i :: 0 <= i < |SectionRows(rows, subs, negate)| ==> !SectionRows(rows, subs, negate)[i].isFinalTotal
    decreases |subs|
  {
    if subs != [] {
      var init := subs[..|subs| - 1];
      var last := subs[|subs| - 1];
      SectionNoFinalTotal(rows, init, negate);
      var l := LineRows(rows, last.items, negate);
      var t := TotalRow("Total " + last.name, Signed(negate, SectionSum(rows, last.items)));
      BlockParts(last.name, l, t);
      var all := SectionRows(rows, subs, negate);
      var front := SectionRows(rows, init, negate);
      var b := Block(last.name, l, t);
      assert all == front + b;
      forall i | 0 <= i < |all|
        ensures !all[i].isFinalTotal
      {
        if i < |front| {
          assert all[i] == front[i];
        } else if i == |front| {
          assert all[i] == b[0];
        } else if i < |all| - 1 {
          assert all[i] == b[1..|b| - 1][i - |front| - 1] == l[i - |front| - 1];
        } else {
          assert all[i] == b[|b| - 1];
        }
      }
    }
  }

  /**
    Ordering: the asset rows, then the "Total Assets" row, then the
    liability rows, the equity rows and last the "Total Liabilities and
    Equity" row.
  */
  lemma BalanceSheetOrder(rows: seq<Entry>, assets: seq<SubSection>, liabilities: seq<SubSection>,
                          equity: seq<SubSection>)
    ensures var bs := BalanceSheetRows(rows, assets, liabilities, equity);
      var a := SectionRows(rows, assets, false);
      var l := SectionRows(rows, liabilities, true);
      var e := SectionRows(rows, equity, true);
      |bs| == |a| + |l| + |e| + 2 &&
      bs == a + [bs[|a|]] + l + e + [bs[|bs| - 1]]
  {
  }

  /**
    Final totals: "Total Assets" equals the sum of the asset sub-section
    totals shown above it; "Total Liabilities and Equity" equals the
    liabilities total plus the equity total; both are flagged as totals.
  */
  lemma BalanceSheetTotals(rows: seq<Entry>, assets: seq<SubSection>, liabilities: seq<SubSection>,
                           equity: seq<SubSection>)
    ensures var bs := BalanceSheetRows(rows, assets, liabilities, equity);
      var a := SectionRows(rows, assets, false);
      var l := SectionRows(rows, liabilities, true);
      var e := SectionRows(rows, equity, true);
      |bs| == |a| + |l| + |e| + 2 &&
      bs[|a|].desc == "Total Assets" && bs[|a|].isTotal && Shown(bs[|a|]) == SumTotals(a) &&
      bs[|bs| - 1].desc == "Total Liabilities and Equity" && bs[|bs| - 1].isTotal &&
      Shown(bs[|bs| - 1]) == SumTotals(l) + SumTotals(e)
  {
    SectionTotals(rows, assets, false);
    SectionTotals(rows, liabilities, true);
    SectionTotals(rows, equity, true);
  }

  /** The two final-total rows carry the section sums of the table they were built from. */
  lemma BalanceSheetFinalAmounts(rows: seq<Entry>, assets: seq<SubSection>, liabilities: seq<SubSection>,
                                 equity: seq<SubSection>)
    ensures var bs := BalanceSheetRows(rows, assets, liabilities, equity);
      var na := |SectionRows(rows, assets, false)|;
      na < |bs| &&
      bs[na] == FinalTotalRow("Total Assets", SectionSum(rows, Flat(assets))) &&
      bs[|bs| - 1] == FinalTotalRow("Total Liabilities and Equity",
                                    -SectionSum(rows, Flat(liabilities)) - SectionSum(rows, Flat(equity)))
  {
    var a := SectionRows(rows, assets, false);
    var ta := FinalTotalRow("Total Assets", SectionSum(rows, Flat(assets)));
    var tle := FinalTotalRow("Total Liabilities and Equity",
                             -SectionSum(rows, Flat(liabilities)) - SectionSum(rows, Flat(equity)));
    TotalsAt(BalanceSheetRows(rows, assets, liabilities, equity), a, ta,
             SectionRows(rows, liabilities, true), SectionRows(rows, equity, true), tle);
  }

  /** In `a + [x] + l + e + [y]`, `x` sits right after `a` and `y` is last. */
  lemma TotalsAt(r: seq<Row>, a: seq<Row>, x: Row, l: seq<Row>, e: seq<Row>, y: Row)
    requires r == a + [x] + l + e + [y]
    ensures |a| < |r| && r[|a|] == x && r[|r| - 1] == y
  {
  }

  /** "Total Assets" and "Total Liabilities and Equity" are the only final totals. */
  lemma BalanceSheetFinalTotals(rows: seq<Entry>, assets: seq<SubSection>, liabilities: seq<SubSection>,
                                equity: seq<SubSection>)
    ensures var bs := BalanceSheetRows(rows, assets, liabilities, equity);
      var na := |SectionRows(rows, assets, false)|;
      forall i :: 0 <= i < |bs| ==> (bs[i].isFinalTotal <==> i == na || i == |bs| - 1)
  {
    var bs := BalanceSheetRows(rows, assets, liabilities, equity);
    var a := SectionRows(rows, assets, false);
    var l := SectionRows(rows, liabilities, true);
    var e := SectionRows(rows, equity, true);
    var ta := FinalTotalRow("Total Assets", SectionSum(rows, Flat(assets)));
    var tle := FinalTotalRow("Total Liabilities and Equity",
                             -SectionSum(rows, Flat(liabilities)) - SectionSum(rows, Flat(equity)));
    assert bs == a + [ta] + l + e + [tle];
    SectionNoFinalTotal(rows, assets, false);
    SectionNoFinalTotal(rows, liabilities, true);
    SectionNoFinalTotal(rows, equity, true);
    forall i | 0 <= i < |bs|
      ensures bs[i].isFinalTotal <==> i == |a| || i == |bs| - 1
    {
      if i < |a| {
        assert bs[i] == a[i];
      } else if |a| < i < |a| + 1 + |l| {
        assert bs[i] == l[i - |a| - 1];
      } else if |a| + 1 + |l| <= i < |bs| - 1 {
        assert bs[i] == e[i - |a| - 1 - |l|];
      }
    }
  }
}

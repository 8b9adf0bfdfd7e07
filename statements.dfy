/**
  `build_financial_statements` (statements.py:4-97): the empty-input guard,
  the mapping lookups (each a possible KeyError), the income statement, the
  closing entry applied in place to the caller's table, the balance sheet
  built from the closed table, and the cash-flow placeholder.
*/
module Statements {
  import opened Wrappers
  import opened Ledger
  import opened Closing
  import opened Report
  import opened IncomeStatement
  import opened BalanceSheet

  /** A KeyError raised by a mapping lookup, with the key path that was missing. */
  datatype KeyError = MissingKey(path: seq<string>)

  /** `mapping['Income Statement']`: each section present or missing. */
  datatype IncomeMap = IncomeMap(revenue: Option<seq<LineItem>>, expenses: Option<seq<LineItem>>)

  /** `mapping['Balance Sheet']`: each section present or missing. */
  datatype BalanceMap = BalanceMap(assets: Option<seq<SubSection>>, liabilities: Option<seq<SubSection>>,
                                   equity: Option<seq<SubSection>>)

  /**
    The mapping dictionary. `otherKeys` counts the top-level keys the
    engine never reads; they only matter to the `not mapping` test.
  */
  datatype Mapping = Mapping(incomeStatement: Option<IncomeMap>, balanceSheet: Option<BalanceMap>, otherKeys: nat)

  /** `not mapping`: the dictionary has no key at all. */
  predicate EmptyMapping(m: Mapping): (b: bool)
    ensures b ==> ReadOpening(m) == Err(MissingKey(["Income Statement"]))
  {
    m.incomeStatement.None? && m.balanceSheet.None? && m.otherKeys == 0
  }

  const RetainedEarnings := "Retained Earnings"

  /**
    The accounts the closing entry adjusts: every account listed by a line
    item of the Equity sub-section "Retained Earnings". A missing
    sub-section is a KeyError on that path.
  */
  function ClosingAccounts(equity: seq<SubSection>): (r: Result<seq<string>, KeyError>)
    ensures r.Err? <==> forall s | s in equity :: s.name != RetainedEarnings
    ensures r.Err? ==> r.error == MissingKey(["Balance Sheet", "Equity", RetainedEarnings])
    ensures r.Ok? ==> exists s :: s in equity && s.name == RetainedEarnings && r.value == AccountsOf(s.items)
  {
    match FindSubSection(RetainedEarnings, equity)
    case None => Err(MissingKey(["Balance Sheet", "Equity", RetainedEarnings]))
    case Some(sub) => Ok(AccountsOf(sub.items))
  }

  /** The keys of a line-item dictionary: the line-item names, in order. */
  function Names(items: seq<LineItem>): (r: seq<string>)
    ensures forall x :: x in r <==> exists i :: 0 <= i < |items| && items[i].name == x
  {
    if |items| == 0 then [] else [items[0].name] + Names(items[1..])
  }

  /**
    statements.py:58 as written: `Equity['Retained Earnings']` is the
    sub-section's dictionary of line items, and `Series.isin` on a
    dictionary tests membership among its keys, so the values matched
    against account numbers are the line-item names.
  */
  function ClosingAccountsAsWritten(equity: seq<SubSection>): (r: Result<seq<string>, KeyError>)
    ensures r.Err? <==> forall s | s in equity :: s.name != RetainedEarnings
    ensures r.Ok? ==> exists s :: s in equity && s.name == RetainedEarnings && r.value == Names(s.items)
  {
    match FindSubSection(RetainedEarnings, equity)
    case None => Err(MissingKey(["Balance Sheet", "Equity", RetainedEarnings]))
    case Some(sub) => Ok(Names(sub.items))
  }

  /** What is looked up before the closing entry: both income sections, the equity section and its closing accounts. */
  datatype Opening = Opening(revenue: seq<LineItem>, expenses: seq<LineItem>, balance: BalanceMap,
                             equity: seq<SubSection>, reAccounts: seq<string>)

  /** Every key read up to and including statements.py:58 is present. */
  predicate OpeningKeysPresent(m: Mapping)
  {
    m.incomeStatement.Some? && m.incomeStatement.value.revenue.Some? && m.incomeStatement.value.expenses.Some?
    && m.balanceSheet.Some? && m.balanceSheet.value.equity.Some?
    && exists s :: s in m.balanceSheet.value.equity.value && s.name == RetainedEarnings
  }

  /**
    The lookups of statements.py:32, 33 and 58 in program order; the first
    missing key is the KeyError raised.
  */
  function ReadOpening(m: Mapping): (r: Result<Opening, KeyError>)
    ensures r.Ok? <==> OpeningKeysPresent(m)
    ensures m.incomeStatement.None? ==> r == Err(MissingKey(["Income Statement"]))
    ensures m.incomeStatement.Some? && m.incomeStatement.value.revenue.None?
      ==> r == Err(MissingKey(["Income Statement", "Revenue"]))
    ensures m.incomeStatement.Some? && m.incomeStatement.value.revenue.Some? && m.incomeStatement.value.expenses.None?
      ==> r == Err(MissingKey(["Income Statement", "Expenses"]))
    ensures (m.incomeStatement.Some? && m.incomeStatement.value.revenue.Some? && m.incomeStatement.value.expenses.Some?
             && m.balanceSheet.None?)
      ==> r == Err(MissingKey(["Balance Sheet"]))
    ensures (m.incomeStatement.Some? && m.incomeStatement.value.revenue.Some? && m.incomeStatement.value.expenses.Some?
             && m.balanceSheet.Some? && m.balanceSheet.value.equity.None?)
      ==> r == Err(MissingKey(["Balance Sheet", "Equity"]))
    ensures (r.Err? && m.incomeStatement.Some? && m.incomeStatement.value.revenue.Some?
             && m.incomeStatement.value.expenses.Some? && m.balanceSheet.Some? && m.balanceSheet.value.equity.Some?)
      ==> r == Err(MissingKey(["Balance Sheet", "Equity", RetainedEarnings]))
    ensures r.Ok? ==>
      r.value.revenue == m.incomeStatement.value.revenue.value &&
      r.value.expenses == m.incomeStatement.value.expenses.value &&
      r.value.balance == m.balanceSheet.value &&
      r.value.equity == m.balanceSheet.value.equity.value &&
      ClosingAccounts(r.value.equity) == Ok(r.value.reAccounts)
  {
    match m.incomeStatement
    case None => Err(MissingKey(["Income Statement"]))
    case Some(im) =>
      match im.revenue
      case None => Err(MissingKey(["Income Statement", "Revenue"]))
      case Some(revenue) =>
        match im.expenses
        case None => Err(MissingKey(["Income Statement", "Expenses"]))
        case Some(expenses) =>
          match m.balanceSheet
          case None => Err(MissingKey(["Balance Sheet"]))
          case Some(bm) =>
            match bm.equity
            case None => Err(MissingKey(["Balance Sheet", "Equity"]))
            case Some(equity) =>
              match ClosingAccounts(equity)
              case Err(e) => Err(e)
              case Ok(reAccounts) => Ok(Opening(revenue, expenses, bm, equity, reAccounts))
  }

  /** The single row of the cash-flow placeholder (statements.py:91-93). */
  function CashFlowRows(): (r: seq<Row>)
    ensures |r| == 1 && r[0].amount.None? && !r[0].isTotal && !r[0].isFinalTotal
  {
    [Row("Cash flow statement requires comparative balance sheets.", None, false, false, false)]
  }

  /**
    The statements returned, in insertion order: empty for an empty table or
    mapping, otherwise the income statement from the table as given, the
    balance sheet from the closed table, and the cash-flow placeholder.
  */
  function FinancialStatements(rows: seq<Entry>, m: Mapping): (r: Result<seq<Statement>, KeyError>)
    ensures r.Err? ==> |rows| > 0 && !EmptyMapping(m)
    ensures r.Ok? && r.value != [] ==> |r.value| == 3 && r.value[2].rows == CashFlowRows()
  {
    if |rows| == 0 || EmptyMapping(m) then Ok([])
    else
      match ReadOpening(m)
      case Err(e) => Err(e)
      case Ok(o) =>
        var closed := Closed(rows, o.reAccounts, NetIncome(rows, o.revenue, o.expenses));
        match o.balance.assets
        case None => Err(MissingKey(["Balance Sheet", "Assets"]))
        case Some(assets) =>
          match o.balance.liabilities
          case None => Err(MissingKey(["Balance Sheet", "Liabilities"]))
          case Some(liabilities) =>
            Ok([Statement("Income Statement", IncomeRows(rows, o.revenue, o.expenses)),
                Statement("Balance Sheet", BalanceSheetRows(closed, assets, liabilities, o.equity)),
                Statement("Cash Flow Statement", CashFlowRows())])
  }

  /**
    The caller's table after the call: closed as soon as the lookups of
    statements.py:58 succeed, even when a later lookup of Assets or
    Liabilities then raises.
  */
  function TableAfter(rows: seq<Entry>, m: Mapping): (t: seq<Entry>)
    ensures |t| == |rows|
    ensures !OpeningKeysPresent(m) ==> t == rows
  {
    if |rows| == 0 || EmptyMapping(m) then rows
    else
      match ReadOpening(m)
      case Err(_) => rows
      case Ok(o) => Closed(rows, o.reAccounts, NetIncome(rows, o.revenue, o.expenses))
  }

  /** statements.py:4-97. The table `tb` is the caller's and is updated in place. */
  method BuildFinancialStatements(tb: array<Entry>, m: Mapping) returns (r: Result<seq<Statement>, KeyError>)
    modifies tb
    ensures r == FinancialStatements(old(tb[..]), m)
    ensures tb[..] == TableAfter(old(tb[..]), m)
  {
    if tb.Length == 0 || EmptyMapping(m) {
      return Ok([]);
    }
    var opening := ReadOpening(m);
    if opening.Err? {
      return Err(opening.error);
    }
    var o := opening.value;
    var isData, netIncome := BuildIncomeStatement(tb, o.revenue, o.expenses);
    CloseRetainedEarnings(tb, o.reAccounts, netIncome);

    if o.balance.assets.None? {
      return Err(MissingKey(["Balance Sheet", "Assets"]));
    }
    if o.balance.liabilities.None? {
      return Err(MissingKey(["Balance Sheet", "Liabilities"]));
    }
    var bsData := BuildBalanceSheet(tb, o.balance.assets.value, o.balance.liabilities.value, o.equity);
    r := Ok([Statement("Income Statement", isData),
             Statement("Balance Sheet", bsData),
             Statement("Cash Flow Statement", CashFlowRows())]);
  }

  /** Every key the build reads is present. */
  predicate AllKeysPresent(m: Mapping)
  {
    OpeningKeysPresent(m) && m.balanceSheet.value.assets.Some? && m.balanceSheet.value.liabilities.Some?
  }

  /**
    The outcome: an empty table or mapping gives no statements; otherwise
    the build fails exactly when a key it reads is missing, and succeeds
    with the three statements in order.
  */
  lemma Outcome(rows: seq<Entry>, m: Mapping)
    ensures |rows| == 0 || EmptyMapping(m) ==> FinancialStatements(rows, m) == Ok([]) && TableAfter(rows, m) == rows
    ensures |rows| > 0 && !EmptyMapping(m) ==>
      (FinancialStatements(rows, m).Err? <==> !AllKeysPresent(m))
    ensures |rows| > 0 && !EmptyMapping(m) && AllKeysPresent(m) ==>
      var s := FinancialStatements(rows, m).value;
      |s| == 3 && s[0].name == "Income Statement" && s[1].name == "Balance Sheet" &&
      s[2].name == "Cash Flow Statement" && |s[2].rows| == 1 && s[2].rows[0].amount.None?
  {
  }

  /**
    The income statement's last row is Net Income, the amount the closing
    entry subtracts from the retained-earnings rows.
  */
  lemma NetIncomeCarried(rows: seq<Entry>, m: Mapping)
    requires |rows| > 0 && !EmptyMapping(m) && AllKeysPresent(m)
    ensures var o := ReadOpening(m).value;
      var inc := FinancialStatements(rows, m).value[0].rows;
      var ni := NetIncome(rows, o.revenue, o.expenses);
      |inc| > 0 && inc[|inc| - 1].desc == "Net Income" && inc[|inc| - 1].amount == Some(ni) &&
      TableAfter(rows, m) == Closed(rows, o.reAccounts, ni)
  {
    var o := ReadOpening(m).value;
    IncomeLayout(rows, o.revenue, o.expenses);
  }

  /**
    The closing entry: rows keep their accounts and order; a row whose
    account is a retained-earnings account loses Net Income and every other
    row keeps its balance.
  */
  lemma ClosingEffect(rows: seq<Entry>, m: Mapping)
    requires |rows| > 0 && !EmptyMapping(m) && OpeningKeysPresent(m)
    ensures var o := ReadOpening(m).value;
      var ni := NetIncome(rows, o.revenue, o.expenses);
      var after := TableAfter(rows, m);
      |after| == |rows| &&
      forall i :: 0 <= i < |rows| ==>
        after[i].account == rows[i].account &&
        after[i].balance == (if rows[i].account in o.reAccounts then rows[i].balance - ni else rows[i].balance)
  {
    var o := ReadOpening(m).value;
    ClosedRows(rows, o.reAccounts, NetIncome(rows, o.revenue, o.expenses));
  }

  /**
    The caller's table is updated in place, so a second build on the same
    table closes Net Income into retained earnings again: when no
    retained-earnings account is listed under Revenue or Expenses, Net
    Income is unchanged and the table ends up closed twice. `o` is what
    the lookups up to statements.py:58 return.
  */
  lemma SecondBuildClosesAgain(rows: seq<Entry>, m: Mapping, o: Opening)
    requires |rows| > 0 && !EmptyMapping(m) && ReadOpening(m) == Ok(o)
    requires (forall a | a in AccountsOf(o.revenue) :: a !in o.reAccounts) &&
             (forall a | a in AccountsOf(o.expenses) :: a !in o.reAccounts)
    ensures var ni := NetIncome(rows, o.revenue, o.expenses);
      NetIncome(TableAfter(rows, m), o.revenue, o.expenses) == ni &&
      TableAfter(TableAfter(rows, m), m) == Closed(rows, o.reAccounts, ni + ni)
  {
    var ni := NetIncome(rows, o.revenue, o.expenses);
    var after := TableAfter(rows, m);
    TableAfterOpened(rows, m, o);
    ClosingKeepsNetIncome(rows, o.revenue, o.expenses, o.reAccounts, ni, after);
    TableAfterOpened(after, m, o);
    ClosedAgain(rows, o.reAccounts, ni, after, TableAfter(after, m));
  }

  /** Closing leaves Net Income as it was when no retained-earnings account is an income account. */
  lemma ClosingKeepsNetIncome(rows: seq<Entry>, revenue: seq<LineItem>, expenses: seq<LineItem>,
                              reAccounts: seq<string>, ni: int, after: seq<Entry>)
    requires (forall a | a in AccountsOf(revenue) :: a !in reAccounts) &&
             (forall a | a in AccountsOf(expenses) :: a !in reAccounts)
    requires ni == NetIncome(rows, revenue, expenses) && after == Closed(rows, reAccounts, ni)
    ensures NetIncome(after, revenue, expenses) == ni
  {
    ClosedSectionSum(rows, reAccounts, ni, revenue);
    ClosedSectionSum(rows, reAccounts, ni, expenses);
  }

  lemma ClosedAgain(rows: seq<Entry>, reAccounts: seq<string>, ni: int, after: seq<Entry>, again: seq<Entry>)
    requires after == Closed(rows, reAccounts, ni) && again == Closed(after, reAccounts, ni)
    ensures again == Closed(rows, reAccounts, ni + ni)
  {
    ClosedTwice(rows, reAccounts, ni, ni);
  }

  /** Once the lookups up to statements.py:58 succeed, the table after the call is the closed table. */
  lemma TableAfterOpened(rows: seq<Entry>, m: Mapping, o: Opening)
    requires |rows| > 0 && !EmptyMapping(m) && ReadOpening(m) == Ok(o)
    ensures TableAfter(rows, m) == Closed(rows, o.reAccounts, NetIncome(rows, o.revenue, o.expenses))
  {
  }

  /** Five sections that list every account exactly once add up to the table total. */
  lemma SectionsCoverTotal(rows: seq<Entry>, s1: seq<LineItem>, s2: seq<LineItem>, s3: seq<LineItem>,
                           s4: seq<LineItem>, s5: seq<LineItem>)
    requires forall r | r in rows :: Occurrences(r.account, s1 + s2 + s3 + s4 + s5) == 1
    ensures SectionSum(rows, s1) + SectionSum(rows, s2) + SectionSum(rows, s3)
          + SectionSum(rows, s4) + SectionSum(rows, s5) == Total(rows)
  {
    WeightedOnce(rows, s1 + s2 + s3 + s4 + s5);
    SectionSumIsWeighted(rows, s1 + s2 + s3 + s4 + s5);
    SectionSumAppend(rows, s1 + s2 + s3 + s4, s5);
    SectionSumAppend(rows, s1 + s2 + s3, s4);
    SectionSumAppend(rows, s1 + s2, s3);
    SectionSumAppend(rows, s1, s2);
  }

  /** An account listed once overall, and listed under equity, is listed nowhere else. */
  lemma OnlyUnderEquity(a: string, s1: seq<LineItem>, s2: seq<LineItem>, assets: seq<SubSection>,
                        liabilities: seq<SubSection>, equity: seq<SubSection>, re: SubSection)
    requires Occurrences(a, s1 + s2 + Flat(assets) + Flat(liabilities) + Flat(equity)) == 1
    requires re in equity && a in AccountsOf(re.items)
    ensures Occurrences(a, Flat(assets)) == 0 && Occurrences(a, Flat(liabilities)) == 0
    ensures Occurrences(a, Flat(equity)) == 1
  {
    ListedOccurs(a, re.items);
    FlatOccurs(a, equity, re);
    OccurrencesAppend(a, s1 + s2 + Flat(assets) + Flat(liabilities), Flat(equity));
    OccurrencesAppend(a, s1 + s2 + Flat(assets), Flat(liabilities));
    OccurrencesAppend(a, s1 + s2, Flat(assets));
  }

  /** Changing row `k` by `d` moves a section sum by `d` if the section lists its account once, else not at all. */
  lemma SectionSumUpdate(rows: seq<Entry>, items: seq<LineItem>, k: nat, d: int)
    requires k < |rows| && Occurrences(rows[k].account, items) <= 1
    ensures SectionSum(rows[k := rows[k].(balance := rows[k].balance + d)], items)
         == SectionSum(rows, items) + (if Occurrences(rows[k].account, items) == 1 then d else 0)
  {
    var moved := rows[k := rows[k].(balance := rows[k].balance + d)];
    var n := Occurrences(rows[k].account, items);
    SectionSumIsWeighted(rows, items);
    SectionSumIsWeighted(moved, items);
    WeightedUpdate(rows, items, k, d);
    if n == 0 {
      assert d * n == 0;
    } else {
      assert d * n == d;
    }
  }

  /** Moving row `k` by `d` moves only the one section that lists its account. */
  lemma ShiftOne(rows: seq<Entry>, c: seq<Entry>, fa: seq<LineItem>, fl: seq<LineItem>, fe: seq<LineItem>,
                 k: nat, d: int)
    requires k < |rows| && c == rows[k := rows[k].(balance := rows[k].balance + d)]
    requires Occurrences(rows[k].account, fa) == 0 && Occurrences(rows[k].account, fl) == 0
    requires Occurrences(rows[k].account, fe) == 1
    ensures SectionSum(c, fa) == SectionSum(rows, fa) && SectionSum(c, fl) == SectionSum(rows, fl)
    ensures SectionSum(c, fe) == SectionSum(rows, fe) + d
  {
    SectionSumUpdate(rows, fa, k, d);
    SectionSumUpdate(rows, fl, k, d);
    SectionSumUpdate(rows, fe, k, d);
  }

  /** Closing a single row moves only the section that lists its account, by minus Net Income. */
  lemma ClosedShift(rows: seq<Entry>, reAccounts: seq<string>, ni: int, k: nat,
                    fa: seq<LineItem>, fl: seq<LineItem>, fe: seq<LineItem>)
    requires k < |rows| && rows[k].account in reAccounts
    requires forall j :: 0 <= j < |rows| && j != k ==> rows[j].account !in reAccounts
    requires Occurrences(rows[k].account, fa) == 0 && Occurrences(rows[k].account, fl) == 0
    requires Occurrences(rows[k].account, fe) == 1
    ensures var c := Closed(rows, reAccounts, ni);
      SectionSum(c, fa) == SectionSum(rows, fa) && SectionSum(c, fl) == SectionSum(rows, fl) &&
      SectionSum(c, fe) == SectionSum(rows, fe) - ni
  {
    ClosedSingle(rows, reAccounts, ni, k);
    ShiftOne(rows, Closed(rows, reAccounts, ni), fa, fl, fe, k, -ni);
  }

  /**
    The balancing identity for the corrected closing entry. If the trial
    balance sums to zero, every account is listed by exactly one line item
    of the mapping, and exactly one row (row `k`, listed under the Equity
    sub-section `re`) is a retained-earnings account, then after closing
    the asset sum equals minus the liability sum minus the equity sum.
  */
  lemma {:induction false} ClosingBalances(rows: seq<Entry>, revenue: seq<LineItem>, expenses: seq<LineItem>,
                                           assets: seq<SubSection>, liabilities: seq<SubSection>,
                                           equity: seq<SubSection>, re: SubSection, k: nat)
    requires Total(rows) == 0
    requires forall r | r in rows ::
      Occurrences(r.account, revenue + expenses + Flat(assets) + Flat(liabilities) + Flat(equity)) == 1
    requires re in equity
    requires k < |rows| && rows[k].account in AccountsOf(re.items)
    requires forall j :: 0 <= j < |rows| && j != k ==> rows[j].account !in AccountsOf(re.items)
    ensures var c := Closed(rows, AccountsOf(re.items), NetIncome(rows, revenue, expenses));
      SectionSum(c, Flat(assets)) == -SectionSum(c, Flat(liabilities)) - SectionSum(c, Flat(equity))
  {
    var ni := NetIncome(rows, revenue, expenses);
    var fa, fl, fe := Flat(assets), Flat(liabilities), Flat(equity);
    SectionsCoverTotal(rows, revenue, expenses, fa, fl, fe);
    assert rows[k] in rows;
    OnlyUnderEquity(rows[k].account, revenue, expenses, assets, liabilities, equity, re);
    ClosedShift(rows, AccountsOf(re.items), ni, k, fa, fl, fe);
  }

  /** When every key is present, the statements hold these rows. */
  lemma BuiltRows(rows: seq<Entry>, m: Mapping)
    requires |rows| > 0 && !EmptyMapping(m) && AllKeysPresent(m)
    ensures var o := ReadOpening(m).value;
      var s := FinancialStatements(rows, m).value;
      |s| == 3 &&
      s[0] == Statement("Income Statement", IncomeRows(rows, o.revenue, o.expenses)) &&
      s[1] == Statement("Balance Sheet", BalanceSheetRows(TableAfter(rows, m), o.balance.assets.value,
                                                          o.balance.liabilities.value, o.equity)) &&
      s[2] == Statement("Cash Flow Statement", CashFlowRows())
  {
  }

  /** A balance sheet built from a table whose sections balance shows equal final totals. */
  lemma SheetBalances(rows: seq<Entry>, assets: seq<SubSection>, liabilities: seq<SubSection>,
                      equity: seq<SubSection>)
    requires SectionSum(rows, Flat(assets)) == -SectionSum(rows, Flat(liabilities)) - SectionSum(rows, Flat(equity))
    ensures var bs := BalanceSheetRows(rows, assets, liabilities, equity);
      var na := |SectionRows(rows, assets, false)|;
      na < |bs| && bs[na].desc == "Total Assets" && bs[|bs| - 1].desc == "Total Liabilities and Equity" &&
      bs[na].amount == bs[|bs| - 1].amount
  {
    var x := SectionSum(rows, Flat(assets));
    var y := -SectionSum(rows, Flat(liabilities)) - SectionSum(rows, Flat(equity));
    BalanceSheetFinalAmounts(rows, assets, liabilities, equity);
    FinalRowsEqual(x, y);
  }

  /** Two final-total rows built from equal amounts show the same amount. */
  lemma FinalRowsEqual(x: int, y: int)
    requires x == y
    ensures FinalTotalRow("Total Assets", x).amount == FinalTotalRow("Total Liabilities and Equity", y).amount
  {
  }

  /**
    `ClosingBalances` for the table the closing entry of an opening leaves
    behind; `re` holds the closing accounts and row `k` is the one row they list.
  */
  lemma ClosedTableBalances(rows: seq<Entry>, o: Opening, re: SubSection, k: nat)
    requires re in o.equity && o.reAccounts == AccountsOf(re.items)
    requires o.balance.assets.Some? && o.balance.liabilities.Some?
    requires Total(rows) == 0
    requires forall r | r in rows :: Occurrences(r.account, o.revenue + o.expenses + Flat(o.balance.assets.value)
                                                 + Flat(o.balance.liabilities.value) + Flat(o.equity)) == 1
    requires k < |rows| && rows[k].account in o.reAccounts
    requires forall j :: 0 <= j < |rows| && j != k ==> rows[j].account !in o.reAccounts
    ensures var after := Closed(rows, o.reAccounts, NetIncome(rows, o.revenue, o.expenses));
      SectionSum(after, Flat(o.balance.assets.value))
        == -SectionSum(after, Flat(o.balance.liabilities.value)) - SectionSum(after, Flat(o.equity))
  {
    ClosingBalances(rows, o.revenue, o.expenses, o.balance.assets.value, o.balance.liabilities.value, o.equity, re, k);
  }

  /** The closing accounts are those of the first "Retained Earnings" sub-section of equity. */
  lemma RetainedEarningsSection(equity: seq<SubSection>, reAccounts: seq<string>)
    requires ClosingAccounts(equity) == Ok(reAccounts)
    ensures var re := FindSubSection(RetainedEarnings, equity);
      re.Some? && re.value in equity && re.value.name == RetainedEarnings && reAccounts == AccountsOf(re.value.items)
  {
  }

  /**
    The balancing identity on the built statements: under the hypotheses
    of `ClosingBalances`, the balance sheet's "Total Assets" row shows the
    same amount as its "Total Liabilities and Equity" row.
  */
  lemma StatementsBalance(rows: seq<Entry>, m: Mapping)
    requires |rows| > 0 && !EmptyMapping(m) && AllKeysPresent(m)
    requires Total(rows) == 0
    requires var o := ReadOpening(m).value;
      forall r | r in rows :: Occurrences(r.account, o.revenue + o.expenses + Flat(o.balance.assets.value)
                                            + Flat(o.balance.liabilities.value) + Flat(o.equity)) == 1
    requires var o := ReadOpening(m).value;
      exists k :: 0 <= k < |rows| && rows[k].account in o.reAccounts &&
        forall j :: 0 <= j < |rows| && j != k ==> rows[j].account !in o.reAccounts
    ensures var o := ReadOpening(m).value;
      var bs := FinancialStatements(rows, m).value[1].rows;
      var na := |SectionRows(TableAfter(rows, m), o.balance.assets.value, false)|;
      na < |bs| && bs[na].desc == "Total Assets" && bs[|bs| - 1].desc == "Total Liabilities and Equity" &&
      bs[na].amount == bs[|bs| - 1].amount
  {
    var o := ReadOpening(m).value;
    var k :| 0 <= k < |rows| && rows[k].account in o.reAccounts &&
      forall j :: 0 <= j < |rows| && j != k ==> rows[j].account !in o.reAccounts;
    TableAfterOpened(rows, m, o);
    RetainedEarningsSection(o.equity, o.reAccounts);
    ClosedTableBalances(rows, o, FindSubSection(RetainedEarnings, o.equity).value, k);
    BuiltRows(rows, m);
    SheetBalances(TableAfter(rows, m), o.balance.assets.value, o.balance.liabilities.value, o.equity);
  }

  /** With the as-written lookup, a table whose account numbers are no line-item names is left as it was. */
  lemma AsWrittenClosesNothing(rows: seq<Entry>, equity: seq<SubSection>, ni: int)
    requires ClosingAccountsAsWritten(equity).Ok?
    requires forall r, s | r in rows && s in equity :: r.account !in Names(s.items)
    ensures Closed(rows, ClosingAccountsAsWritten(equity).value, ni) == rows
  {
    ClosedNoMatch(rows, ClosingAccountsAsWritten(equity).value, ni);
  }

  /** A zero-sum trial balance: sales, cost of goods sold, cash, payables, retained earnings. */
  function FixtureRows(): seq<Entry>
  {
    [Entry("4000", -1000), Entry("5000", 400), Entry("1000", 1000), Entry("2000", -400), Entry("3000", 0)]
  }

  /** The fixture's sections; the Equity sub-section "Retained Earnings" lists account 3000. */
  function FixtureRevenue(): seq<LineItem> { [LineItem("Sales", ["4000"])] }

  function FixtureExpenses(): seq<LineItem> { [LineItem("COGS", ["5000"])] }

  function FixtureAssets(): seq<SubSection> { [SubSection("Current Assets", [LineItem("Cash", ["1000"])])] }

  function FixtureLiabilities(): seq<SubSection> { [SubSection("Current Liabilities", [LineItem("Payables", ["2000"])])] }

  function FixtureEquity(): seq<SubSection> { [SubSection(RetainedEarnings, [LineItem(RetainedEarnings, ["3000"])])] }

  function FixtureMapping(): Mapping
  {
    Mapping(Some(IncomeMap(Some(FixtureRevenue()), Some(FixtureExpenses()))),
            Some(BalanceMap(Some(FixtureAssets()), Some(FixtureLiabilities()), Some(FixtureEquity()))),
            0)
  }

  /** The fixture's lookups succeed and the account closed is 3000. */
  lemma FixtureLookups()
    ensures ReadOpening(FixtureMapping())
         == Ok(Opening(FixtureRevenue(), FixtureExpenses(), FixtureMapping().balanceSheet.value, FixtureEquity(), ["3000"]))
  {
    var equity := FixtureEquity();
    assert FindSubSection(RetainedEarnings, equity) == Some(equity[0]);
    assert AccountsOf(equity[0].items) == ["3000"] by {
      assert equity[0].items[..0] == [];
    }
  }

  /** The fixture's Net Income: revenue 1000 less expenses 400. */
  lemma FixtureNetIncome()
    ensures NetIncome(FixtureRows(), FixtureRevenue(), FixtureExpenses()) == 600
  {
    var rows := FixtureRows();
    FixtureAccountSum(rows, 0);
    FixtureAccountSum(rows, 1);
    assert FixtureRevenue()[..0] == [] && FixtureExpenses()[..0] == [];
  }

  /** The fixture's five account numbers are distinct. */
  lemma FixtureAccountsDistinct()
    ensures forall i, j :: 0 <= i < j < |FixtureRows()| ==> FixtureRows()[i].account != FixtureRows()[j].account
  {
    assert "4000" != "5000" && "4000" != "1000" && "4000" != "2000" && "4000" != "3000";
    assert "5000" != "1000" && "5000" != "2000" && "5000" != "3000";
    assert "1000" != "2000" && "1000" != "3000" && "2000" != "3000";
  }

  /** On a table with the fixture's accounts, an account's sum is its one row's balance. */
  lemma FixtureAccountSum(t: seq<Entry>, k: nat)
    requires |t| == |FixtureRows()| && k < |t|
    requires forall i :: 0 <= i < |t| ==> t[i].account == FixtureRows()[i].account
    ensures AccountSum(t, [t[k].account]) == t[k].balance
  {
    FixtureAccountsDistinct();
    AccountSumUnique(t, [t[k].account], k);
  }

  /**
    On a table with the fixture's accounts, a section made of one
    sub-section with one line item listing row `k`'s account sums to that
    row's balance.
  */
  lemma FixtureSectionSum(t: seq<Entry>, subs: seq<SubSection>, k: nat)
    requires |t| == |FixtureRows()| && k < |t|
    requires forall i :: 0 <= i < |t| ==> t[i].account == FixtureRows()[i].account
    requires |subs| == 1 && |subs[0].items| == 1 && subs[0].items[0].accounts == [t[k].account]
    ensures SectionSum(t, Flat(subs)) == t[k].balance
  {
    assert subs[..0] == [];
    assert Flat(subs) == subs[0].items;
    assert subs[0].items[..0] == [];
    FixtureAccountSum(t, k);
  }

  /** The fixture table after closing 600 into account 3000. */
  function FixtureClosedRows(): seq<Entry>
  {
    [Entry("4000", -1000), Entry("5000", 400), Entry("1000", 1000), Entry("2000", -400), Entry("3000", -600)]
  }

  lemma FixtureClosed()
    ensures Closed(FixtureRows(), ["3000"], 600) == FixtureClosedRows()
  {
  }

  /** The fixture's balance-sheet section sums after closing. */
  lemma FixtureClosedSums()
    ensures SectionSum(FixtureClosedRows(), Flat(FixtureAssets())) == 1000
    ensures SectionSum(FixtureClosedRows(), Flat(FixtureLiabilities())) == -400
    ensures SectionSum(FixtureClosedRows(), Flat(FixtureEquity())) == -600
  {
    var closed := FixtureClosedRows();
    FixtureSectionSum(closed, FixtureAssets(), 2);
    FixtureSectionSum(closed, FixtureLiabilities(), 3);
    FixtureSectionSum(closed, FixtureEquity(), 4);
  }

  /** The fixture's liability and equity sums with nothing closed. */
  lemma FixtureOpenSums()
    ensures SectionSum(FixtureRows(), Flat(FixtureLiabilities())) == -400
    ensures SectionSum(FixtureRows(), Flat(FixtureEquity())) == 0
  {
    var rows := FixtureRows();
    FixtureSectionSum(rows, FixtureLiabilities(), 3);
    FixtureSectionSum(rows, FixtureEquity(), 4);
  }

  /**
    On the fixture, Net Income is 600 and the closing entry moves account
    3000 from 0 to -600; the built balance sheet shows Total Assets and
    Total Liabilities and Equity both at 1000.
  */
  lemma FixtureOutcome()
    ensures var rows, m := FixtureRows(), FixtureMapping();
      var bs := FinancialStatements(rows, m).value[1].rows;
      var na := |SectionRows(TableAfter(rows, m), FixtureAssets(), false)|;
      NetIncome(rows, FixtureRevenue(), FixtureExpenses()) == 600 &&
      TableAfter(rows, m)[4] == Entry("3000", -600) &&
      na < |bs| && bs[na] == FinalTotalRow("Total Assets", 1000) &&
      bs[|bs| - 1] == FinalTotalRow("Total Liabilities and Equity", 1000)
  {
    var rows, m := FixtureRows(), FixtureMapping();
    FixtureLookups();
    FixtureNetIncome();
    FixtureClosed();
    assert TableAfter(rows, m) == FixtureClosedRows();
    assert AllKeysPresent(m);
    BuiltRows(rows, m);
    FixtureClosedSums();
    BalanceSheetFinalAmounts(FixtureClosedRows(), FixtureAssets(), FixtureLiabilities(), FixtureEquity());
  }

  /** The as-written lookup on the fixture yields the line-item name, not account 3000. */
  lemma FixtureAsWrittenLookup()
    ensures ClosingAccountsAsWritten(FixtureEquity()) == Ok([RetainedEarnings])
  {
    var equity := FixtureEquity();
    assert FindSubSection(RetainedEarnings, equity) == Some(equity[0]);
    assert Names(equity[0].items) == [RetainedEarnings];
  }

  /** No fixture account number is the line-item name "Retained Earnings". */
  lemma FixtureNameMatchesNothing()
    ensures Closed(FixtureRows(), [RetainedEarnings], 600) == FixtureRows()
  {
    var rows := FixtureRows();
    assert forall i :: 0 <= i < |rows| ==> |rows[i].account| == 4;
    ClosedNoMatch(rows, [RetainedEarnings], 600);
  }

  /**
    The as-written lookup on the fixture: the accounts matched are the
    line-item name "Retained Earnings", which no row carries, so the table
    is left as it was and liabilities and equity come to 400 against
    assets of 1000.
  */
  lemma FixtureAsWritten()
    ensures var rows := FixtureRows();
      var asWritten := Closed(rows, ClosingAccountsAsWritten(FixtureEquity()).value, 600);
      ClosingAccountsAsWritten(FixtureEquity()) == Ok([RetainedEarnings]) &&
      asWritten == rows &&
      -SectionSum(asWritten, Flat(FixtureLiabilities())) - SectionSum(asWritten, Flat(FixtureEquity())) == 400
  {
    FixtureAsWrittenLookup();
    FixtureNameMatchesNothing();
    FixtureOpenSums();
  }
}

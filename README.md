# Financial statement builder

A Dafny model of `build_financial_statements` in statements.py. The function takes a trial balance and a classification mapping and builds three statements.

- **Trial balance.** A table of `(account_number, balance)` rows. `balance` is debit minus credit.
- **Classification mapping.**
  - "Income Statement" holds the sections "Revenue" and "Expenses". Each maps line-item names to lists of account numbers.
  - "Balance Sheet" holds "Assets", "Liabilities" and "Equity". Each maps sub-section names to such line-item dictionaries.
- **Income Statement.**
  - It sums each line item's accounts and shows revenue negated.
  - It emits section headers, line rows, Total Revenue and Total Expenses.
  - Net Income is minus the revenue sum minus the expense sum.
- **Closing entry.** The build subtracts Net Income, in place in the caller's table, from the balance of every retained-earnings row.
- **Balance Sheet.**
  - It is built from the closed table.
  - Assets come first, then Liabilities, then Equity.
  - Each sub-section has a header, its line items and a "Total <sub-section>" row.
  - Liabilities and equity are shown negated.
  - The two final totals are "Total Assets" and "Total Liabilities and Equity".
- **Cash Flow Statement.** A one-row placeholder.

Modules:

- `Wrappers`: `Option` and `Result`.
- `Ledger`:
  - the table rows, line items and sub-sections;
  - the account sum `isin(accounts)['balance'].sum()` and the section sum;
  - the counting argument: a section sum counts each balance once per line item that lists its account.
- `Closing`: the closing entry. It is a method over an `array` that updates rows in place, specified by the function `Closed`.
- `Report`: the statement row (`Line Item`, `Amount`, `is_header`, `is_total`, `is_final_total`), the line-item rows, and sums over displayed rows.
- `IncomeStatement`: `get_section_sum` as an accumulator loop, and the income-statement rows built by appends.
- `BalanceSheet`: `process_bs_section` as nested loops that append rows and accumulate totals, and the assembly of the balance sheet.
- `Statements`: the whole build.
  - the empty-input guard;
  - every mapping lookup, each a possible KeyError;
  - the in-place closing;
  - the result;
  - the balancing identity;
  - a worked example.

Money is `int` in minor currency units. A missing mapping key is a `Result` error carrying the key path, raised in the order the source performs the lookups.

## Model

| member | source | states |
|---|---|---|
| Ledger.AccountSum | statements.py:29 | sums the balances of the rows whose account is listed: 0 when no row's account is listed, the whole table total when every row's is |
| Ledger.AccountSumUnique | statements.py:29 | when exactly one row has a listed account, the line-item sum is that row's balance |
| Ledger.AccountsOf | statements.py:58 | an account is among the accounts of a run of line items exactly when one of those line items lists it |
| Ledger.FindSubSection | statements.py:58 | key lookup of a sub-section: the one found has the name asked for; nothing is found exactly when no sub-section has that name |
| Ledger.SectionSum | statements.py:26-30 | the section sum, over line items in mapping order; an empty trial balance gives 0 for every section |
| Ledger.SectionSumAppend | statements.py:26-30 | the section sum of two runs of line items is the sum of their section sums |
| Ledger.SectionSumIsWeighted | statements.py:26-30 | a section sum counts every balance once per line item listing its account, so an account listed twice is counted twice |
| Ledger.WeightedOnce | statements.py:26-30 | if every account is listed exactly once, the weighted sum is the table total |
| Ledger.WeightedUpdate | statements.py:60 | changing one row's balance by d moves the weighted sum by d per listing of its account |
| Ledger.ListedOccurs | statements.py:58 | an account listed by some line item is counted at least once |
| Ledger.FlatOccurs | statements.py:66-69 | a line item of one sub-section is counted in the flattened section |
| Closing.Closed | statements.py:60 | the table after the closing entry has the same number of rows as before, and a Net Income of 0 leaves it unchanged |
| Closing.CloseRetainedEarnings | statements.py:60 | the table afterwards is `Closed` of the table before: every retained-earnings row has lost Net Income and every other row is unchanged |
| Closing.ClosedRows | statements.py:60 | the row count and every account are unchanged; matching rows lose Net Income and other rows keep their balance |
| Closing.ClosedTotal | statements.py:60 | the table total drops by Net Income times the number of matching rows |
| Closing.ClosedSingle | statements.py:60 | with one matching row, closing is an update of that row alone |
| Closing.ClosedNoMatch | statements.py:58-60 | an account list that matches no row leaves the table unchanged |
| Closing.ClosedTwice | statements.py:60 | closing twice equals closing once with the two amounts added |
| Closing.ClosedAccountSum | statements.py:60 | closing does not change the sum over accounts that are not closed |
| Closing.ClosedSectionSum | statements.py:60 | closing does not change a section sum whose line items list no closed account |
| Report.LineRow | statements.py:43-49 | a line-item row always has an amount and is neither a header nor a total of either kind; an item none of whose accounts appears in the table shows 0 |
| Report.LineRowsSum | statements.py:43-49 | the displayed line rows sum to the section sum in presentation sign, and none of them is a total |
| Report.BlockSums | statements.py:67-75 | a header, the lines and a total row sum to the lines plus the total, and the header shows nothing |
| IncomeStatement.NetIncome | statements.py:37-39 | Net Income is minus the weighted revenue sum minus the weighted expense sum, counting each balance once per line item that lists it |
| IncomeStatement.IncomeRows | statements.py:42-52 | the income statement has 5 + #revenue + #expenses rows, and the last one is the final total "Net Income" showing `NetIncome` |
| IncomeStatement.AppendLineRows | statements.py:43-49 | the loop appends exactly the line-item rows of the section, in mapping order, to the rows so far |
| IncomeStatement.GetSectionSum | statements.py:26-30 | the accumulated total is the section sum, which is also the sum of each balance weighted by the number of line items listing its account |
| IncomeStatement.BuildIncomeStatement | statements.py:32-54 | produces the income-statement rows; returns Net Income = −Σrevenue − Σexpenses; the last row shows Net Income |
| IncomeStatement.IncomeLayout | statements.py:42-52 | rows in order: Revenue header, one row per revenue item, Total Revenue, Expenses header, one row per expense item, Total Expenses, Net Income; that is 5 + #revenue + #expenses rows. Items summing to zero still get a row |
| IncomeStatement.IncomeFlags | statements.py:42-52 | exactly the two headers have no amount and are headers; only the last row, Net Income, is a final total |
| IncomeStatement.RevenueLayout | statements.py:42-45 | the statement opens with the Revenue header, then one row per revenue item showing its negated account sum, then "Total Revenue" showing minus the revenue sum |
| IncomeStatement.ExpenseLayout | statements.py:47-50 | after the revenue block come the Expenses header, one row per expense item showing its account sum, and "Total Expenses" showing the expense sum |
| IncomeStatement.RevenueTotal | statements.py:37-45 | "Total Revenue" equals the sum of the displayed revenue line amounts, which is minus the revenue sum |
| IncomeStatement.ExpenseTotal | statements.py:48-50 | "Total Expenses" equals the sum of the displayed expense line amounts, which is the expense sum |
| IncomeStatement.IncomeTotals | statements.py:37-50 | Total Revenue is the sum of the displayed revenue lines; Total Expenses is the sum of the displayed expense lines; Net Income is Total Revenue − Total Expenses = −Σrevenue − Σexpenses |
| BalanceSheet.ProcessBsSection | statements.py:64-77 | appends the section's rows to the rows so far; returns the section total, which is the presentation-signed sum over all its line items |
| BalanceSheet.BuildBalanceSheet | statements.py:62-86 | the balance-sheet rows: assets, Total Assets, liabilities, equity, Total Liabilities and Equity |
| BalanceSheet.SubSectionRows | statements.py:66-75 | a sub-section has #items + 2 rows: its name as a header first and "Total <sub-section>", flagged as a total, last |
| BalanceSheet.SectionRows | statements.py:64-77 | a section produces no rows exactly when it has no sub-sections |
| BalanceSheet.BalanceSheetRows | statements.py:79-86 | the row right after the asset rows is "Total Assets", and the last row is the final total "Total Liabilities and Equity" |
| BalanceSheet.SubSectionTotal | statements.py:66-75 | a sub-section is a header, one row per item, and "Total <sub-section>"; that total equals the sum of its displayed line amounts |
| BalanceSheet.SectionTotals | statements.py:64-77 | the section total is both the sum of its sub-section totals and the sum of its displayed line rows |
| BalanceSheet.SectionTotalRows | statements.py:64-77 | the "Total <sub-section>" rows of a section add up to the presentation-signed sum over all its line items |
| BalanceSheet.SectionLineRows | statements.py:64-77 | the displayed line-item rows of a section add up to the presentation-signed sum over all its line items |
| BalanceSheet.SectionNoFinalTotal | statements.py:67-75 | no sub-section row is a final total |
| BalanceSheet.BalanceSheetOrder | statements.py:79-86 | the asset rows come first, then one row, then the liability rows, then the equity rows, then one last row |
| BalanceSheet.BalanceSheetTotals | statements.py:79-86 | "Total Assets" sits right after the asset rows and equals the sum of the asset sub-section totals. "Total Liabilities and Equity" is the last row and equals the liabilities total plus the equity total. Both are totals |
| BalanceSheet.BalanceSheetFinalAmounts | statements.py:79-86 | the two final-total rows carry the asset sum and the negated liability-plus-equity sum of the table they are built from |
| BalanceSheet.BalanceSheetFinalTotals | statements.py:79-86 | "Total Assets" and "Total Liabilities and Equity" are the only final totals |
| Statements.ClosingAccounts | statements.py:58 | the closing accounts are those listed by the line items of the Equity sub-section "Retained Earnings"; it is an error on that key path exactly when no such sub-section exists |
| Statements.RetainedEarningsSection | statements.py:58 | when the closing accounts are found, they come from the first Equity sub-section named "Retained Earnings", which is part of Equity |
| Statements.ClosingAccountsAsWritten | statements.py:58 | the lookup as written matches the line-item names of that sub-section, i.e. the keys of its dictionary |
| Statements.Names | statements.py:58 | the keys of a line-item dictionary: a string is among them exactly when some line item has that name |
| Statements.EmptyMapping | statements.py:16 | an empty mapping has no "Income Statement" key, so its first lookup would fail on that key |
| Statements.ReadOpening | statements.py:32-58 | succeeds exactly when every key read before the closing entry is present; otherwise the error names the first missing key in lookup order |
| Statements.CashFlowRows | statements.py:91-94 | the cash-flow placeholder is one row with no amount that is not a total |
| Statements.TableAfter | statements.py:58-60 | the caller's table after the build keeps its row count, and is unchanged when a key read before the closing entry is missing |
| Statements.TableAfterOpened | statements.py:58-60 | once the lookups before the closing entry succeed, the table after the build is the table closed with Net Income |
| Statements.FinancialStatements | statements.py:4-97 | the build fails only on a non-empty table with a non-empty mapping; a non-empty result has three statements, the third being the cash-flow placeholder |
| Statements.BuildFinancialStatements | statements.py:4-97 | the result is `FinancialStatements` of the table as given; the caller's table is left as `TableAfter`, closed in place |
| Statements.Outcome | statements.py:16-94 | an empty table or mapping gives no statements and leaves the table alone. Otherwise the build fails exactly when a key it reads is missing, and on success returns "Income Statement", "Balance Sheet" and "Cash Flow Statement" in that order, the last being one row with no amount |
| Statements.BuiltRows | statements.py:54-94 | the income statement is built from the table before closing, the balance sheet from the table after closing, and the cash flow from its placeholder row |
| Statements.NetIncomeCarried | statements.py:39-60 | the income statement's last row shows Net Income, and the table is closed with exactly that amount |
| Statements.ClosingEffect | statements.py:58-60 | after a build, rows keep their order and accounts; retained-earnings rows lose Net Income and all other rows keep their balances |
| Statements.ClosingKeepsNetIncome | statements.py:37-60 | if no closed account is listed under Revenue or Expenses, Net Income computed on the closed table is unchanged |
| Statements.ClosedAgain | statements.py:60 | closing an already closed table again with the same Net Income is closing once with twice that amount |
| Statements.SecondBuildClosesAgain | statements.py:60 | if no retained-earnings account is listed under Revenue or Expenses, a second build on the same table closes Net Income into retained earnings a second time |
| Statements.ClosingBalances | statements.py:58-86 | assume the table sums to 0, every account is listed exactly once across all sections, and exactly one row is a retained-earnings account listed under Equity. Then after closing, the asset sum equals minus the liability sum minus the equity sum |
| Statements.ClosedTableBalances | statements.py:58-86 | the same identity for the closing accounts an opening reads from the mapping: after closing, the asset sum equals minus the liability sum minus the equity sum |
| Statements.SheetBalances | statements.py:79-86 | if a table's sections balance, the balance sheet built from it shows equal "Total Assets" and "Total Liabilities and Equity" |
| Statements.StatementsBalance | statements.py:79-86 | under the hypotheses of `ClosingBalances`, the built balance sheet shows the same amount for Total Assets and for Total Liabilities and Equity |
| Statements.AsWrittenClosesNothing | statements.py:58-60 | with the lookup as written, a table with no account number equal to a line-item name is left unchanged |
| Statements.FixtureOutcome | statements.py:32-86 | on the worked example: Net Income 600, account 3000 closed to −600, and Total Assets = Total Liabilities and Equity = 1000 |
| Statements.FixtureAsWritten | statements.py:58-60 | on the same example, the lookup as written yields ["Retained Earnings"], closes nothing, and liabilities plus equity come to 400 |

## Findings

| source | as written | input that shows it | evidently intended | confidence | as-written member | corrected member |
|---|---|---|---|---|---|---|
| statements.py:58-60 | `mapping['Balance Sheet']['Equity']['Retained Earnings']` is a sub-section: a dictionary from line-item names to account lists, the shape statements.py:66-69 require. `Series.isin` on a dictionary tests membership among its keys, so the table's account numbers are compared with line-item names | trial balance 4000:−1000, 5000:400, 1000:1000, 2000:−400, 3000:0. Equity → "Retained Earnings" → {"Retained Earnings": ["3000"]}. Net Income is 600 but no row matches, so Total Liabilities and Equity is 400 against Total Assets of 1000 | subtract Net Income from the accounts listed by that sub-section's line items, making the balance sheet balance | high that the keys are matched; not executed | Statements.FixtureAsWritten | Statements.StatementsBalance |

The model builds from `Statements.ClosingAccounts`, the corrected lookup. `Statements.ClosingAccountsAsWritten` and `Statements.AsWrittenClosesNothing` capture the lookup as written.

## Left out

- Floating point: pandas sums floats. Amounts here are integers in minor currency units, and rounding is not modelled.
- DataFrames:
  - Each statement is a sequence of `Row` values, and the result dictionary is a sequence of named statements in insertion order.
  - A flag the source leaves out of a row's record is `false` here. pandas would fill it with NaN when the frame is built.
- Mapping shape:
  - Sections are sequences of line items or sub-sections, and a lookup by name takes the first match.
  - Duplicate keys, which a dictionary cannot hold, are therefore possible in the model but change nothing in the theorems.
  - Values of the wrong type are not modelled, for example an Equity "Retained Earnings" entry that is a flat account list. statements.py:66-69 would fail on such an entry when iterating it as a dictionary.
- Ordering of errors: `Statements.BuildFinancialStatements` checks that Assets and Liabilities are present before it builds any balance-sheet row. The source raises between appends, and the partial rows are discarded with the exception. Either way the table has already been closed, which `TableAfter` states.
- The success message printed at statements.py:96 is not modelled.
- loader.py, mapping.py, formatter.py, pdf_export.py, ui.py and main.py are not part of this model. They cover file loading, rendering and the user interface.
- Copy versus mutation: statements.py:60 updates the caller's table, not a copy of it. The model follows the code. `Statements.BuildFinancialStatements` modifies its array argument, and `Statements.SecondBuildClosesAgain` shows the consequence.
- Worked example: the example table opens retained earnings at 0 so that the table sums to zero, as the balancing hypotheses require.

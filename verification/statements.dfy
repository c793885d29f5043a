/** The trial balance, balance sheet, income statement and cash-flow
    statement (reports/report_generators.py). */
module Statements {
  import opened Common
  import opened Coa
  import opened Journal
  import opened Balances

  // ---------------------------------------------------------------------
  // Trial balance
  // ---------------------------------------------------------------------

  /** A balance split into a debit column and a credit column: both are
      non-negative, at most one is non-zero, and their difference is the
      balance. */
  function Columns(b: int): (r: (int, int))
    ensures r.0 >= 0 && r.1 >= 0
    ensures r.0 == 0 || r.1 == 0
    ensures r.0 - r.1 == b
  {
    (if b > 0 then b else 0, if -b > 0 then -b else 0)
  }

  datatype TrialRow = TrialRow(code: string, name: string, typeName: string, debit: int, credit: int)

  datatype TrialBalance = TrialBalance(
    asOf: Date,
    rows: seq<TrialRow>,
    totalDebits: int,
    totalCredits: int,
    balanced: bool)

  function RowDebit(r: TrialRow): int { r.debit }
  function RowCredit(r: TrialRow): int { r.credit }

  /** The accounts a trial balance lists: the active ones, in chart order. */
  function ActiveIds(chart: Chart): (r: seq<nat>)
    ensures forall a: nat :: a in r <==> a < |chart| && chart[a].isActive
    ensures Distinct(r) && OnChart(chart, r)
  {
    IndicesWhere(chart, (x: Account) => x.isActive, |chart|)
  }

  /** Credit-normal types as the trial balance reads them: LI, EQ and RE. */
  predicate TrialFlipped(code: string)
  {
    code == "LI" || code == "EQ" || code == "RE"
  }

  /** The balance one trial-balance row splits: debits minus credits of the
      posted lines on or before asOf, negated for LI, EQ and RE when
      flipCredits holds (as the generator does). */
  function TrialAmount(chart: Chart, ledger: Ledger, asOf: Date, a: nat, flipCredits: bool): int
    requires a < |chart|
  {
    var raw := RawBalance(ledger, BalanceWindow(Some(asOf), None), a);
    if flipCredits && TrialFlipped(chart[a].accountType.code) then -raw else raw
  }

  function TrialRowOf(chart: Chart, ledger: Ledger, asOf: Date, a: nat, flipCredits: bool): TrialRow
    requires a < |chart|
  {
    var cols := Columns(TrialAmount(chart, ledger, asOf, a, flipCredits));
    TrialRow(chart[a].code, chart[a].name, chart[a].accountType.name, cols.0, cols.1)
  }

  function TrialRows(chart: Chart, ledger: Ledger, asOf: Date, accounts: seq<nat>, flipCredits: bool): seq<TrialRow>
    requires OnChart(chart, accounts)
  {
    seq(|accounts|, k requires 0 <= k < |accounts| => TrialRowOf(chart, ledger, asOf, accounts[k], flipCredits))
  }

  /** A trial balance over the active accounts with column totals, balanced
      when the totals agree. */
  function TrialBalanceWith(chart: Chart, ledger: Ledger, asOf: Date, flipCredits: bool): (r: TrialBalance)
    ensures |r.rows| == |ActiveIds(chart)|
    ensures r.totalDebits == Sum(r.rows, RowDebit) && r.totalCredits == Sum(r.rows, RowCredit)
    ensures r.balanced <==> r.totalDebits == r.totalCredits
  {
    var rows := TrialRows(chart, ledger, asOf, ActiveIds(chart), flipCredits);
    var debits := Sum(rows, RowDebit);
    var credits := Sum(rows, RowCredit);
    TrialBalance(asOf, rows, debits, credits, debits == credits)
  }

  /** The trial balance as the generator computes it: one row per active
      account, in chart order, whose debit minus credit is the account's
      debits minus credits up to asOf, negated for LI, EQ and RE before the
      column split. */
  function TrialBalanceOf(chart: Chart, ledger: Ledger, asOf: Date): (r: TrialBalance)
    ensures r.asOf == asOf && |r.rows| == |ActiveIds(chart)|
    ensures forall k :: 0 <= k < |r.rows| ==>
      var a := ActiveIds(chart)[k];
      var raw := RawBalance(ledger, BalanceWindow(Some(asOf), None), a);
      var t := if TrialFlipped(chart[a].accountType.code) then -raw else raw;
      r.rows[k] == TrialRow(chart[a].code, chart[a].name, chart[a].accountType.name, Columns(t).0, Columns(t).1)
      && r.rows[k].debit == (if t > 0 then t else 0) && r.rows[k].credit == (if t < 0 then -t else 0)
      && r.rows[k].debit - r.rows[k].credit == t
    ensures r.totalDebits == Sum(r.rows, RowDebit) && r.totalCredits == Sum(r.rows, RowCredit)
    ensures r.balanced <==> r.totalDebits == r.totalCredits
  {
    TrialBalanceWith(chart, ledger, asOf, true)
  }

  /** The trial balance with raw debit-minus-credit balances split into the
      columns, so a credit balance lands in the credit column. */
  function CorrectedTrialBalanceOf(chart: Chart, ledger: Ledger, asOf: Date): TrialBalance
  {
    TrialBalanceWith(chart, ledger, asOf, false)
  }

  /** generate_trial_balance: one row per active account, in chart order,
      with running totals of both columns. flipCredits selects the sign
      handling (true as the generator is written). */
  method GenerateTrialBalance(chart: Chart, ledger: Ledger, asOf: Date, flipCredits: bool) returns (r: TrialBalance)
    ensures r == TrialBalanceWith(chart, ledger, asOf, flipCredits)
  {
    var accounts := ActiveIds(chart);
    var rows: seq<TrialRow> := [];
    var totalDebits, totalCredits := 0, 0;
    var k := 0;
    while k < |accounts|
      invariant 0 <= k <= |accounts|
      invariant rows == TrialRows(chart, ledger, asOf, accounts[..k], flipCredits)
      invariant totalDebits == Sum(rows, RowDebit) && totalCredits == Sum(rows, RowCredit)
    {
      var a := accounts[k];
      var row := ComputeTrialRow(chart, ledger, asOf, a, flipCredits);
      TrialRowsSnoc(chart, ledger, asOf, accounts, k, flipCredits);
      SumSnoc(rows, row, RowDebit);
      SumSnoc(rows, row, RowCredit);
      rows := rows + [row];
      totalDebits := totalDebits + row.debit;
      totalCredits := totalCredits + row.credit;
      k := k + 1;
    }
    assert accounts[..k] == accounts;
    r := TrialBalance(asOf, rows, totalDebits, totalCredits, totalDebits == totalCredits);
  }

  /** One account's row: its raw balance up to asOf, negated for LI, EQ and
      RE when flipCredits holds, split into the two columns. */
  method ComputeTrialRow(chart: Chart, ledger: Ledger, asOf: Date, a: nat, flipCredits: bool) returns (row: TrialRow)
    requires a < |chart|
    ensures row == TrialRowOf(chart, ledger, asOf, a, flipCredits)
  {
    var w := BalanceWindow(Some(asOf), None);
    var balance := DebitSum(ledger, w, a) - CreditSum(ledger, w, a);
    if flipCredits && (chart[a].accountType.code == "LI" || chart[a].accountType.code == "EQ" || chart[a].accountType.code == "RE") {
      balance := -balance;
    }
    var debit := if balance > 0 then balance else 0;
    var credit := if -balance > 0 then -balance else 0;
    row := TrialRow(chart[a].code, chart[a].name, chart[a].accountType.name, debit, credit);
  }

  lemma TrialRowsSnoc(chart: Chart, ledger: Ledger, asOf: Date, accounts: seq<nat>, k: nat, flipCredits: bool)
    requires OnChart(chart, accounts) && k < |accounts|
    ensures TrialRows(chart, ledger, asOf, accounts[..k + 1], flipCredits)
         == TrialRows(chart, ledger, asOf, accounts[..k], flipCredits) + [TrialRowOf(chart, ledger, asOf, accounts[k], flipCredits)]
  {
  }

  lemma {:induction false} TrialRowsNet(chart: Chart, ledger: Ledger, asOf: Date, accounts: seq<nat>)
    requires OnChart(chart, accounts)
    ensures Sum(TrialRows(chart, ledger, asOf, accounts, false), RowDebit)
          - Sum(TrialRows(chart, ledger, asOf, accounts, false), RowCredit)
         == Sum(accounts, AccountNet(ledger, BalanceWindow(Some(asOf), None)))
  {
    if accounts != [] {
      var rows := TrialRows(chart, ledger, asOf, accounts, false);
      TrialRowsNet(chart, ledger, asOf, accounts[1..]);
      assert rows[1..] == TrialRows(chart, ledger, asOf, accounts[1..], false);
      RawBalanceIsNet(ledger, BalanceWindow(Some(asOf), None), accounts[0]);
    }
  }

  /** The corrected trial balance always balances when every entry balances
      and every posted line up to asOf is on an active account. */
  lemma CorrectedTrialBalanceBalances(chart: Chart, ledger: Ledger, asOf: Date)
    requires LedgerBalanced(ledger)
    requires forall l :: l in CountedLines(ledger, BalanceWindow(Some(asOf), None)) ==> l.account < |chart| && chart[l.account].isActive
    ensures CorrectedTrialBalanceOf(chart, ledger, asOf).balanced
  {
    var w := BalanceWindow(Some(asOf), None);
    var ids := ActiveIds(chart);
    TrialRowsNet(chart, ledger, asOf, ids);
    SumOverAccounts(ledger, w, ids);
    FilterAll(CountedLines(ledger, w), OnAccounts(ids));
    CountedLinesNetZero(ledger, w);
  }

  /** A ledger with one posted sale of 100 cents: debit Cash, credit Sales. */
  function SaleChart(): Chart
  {
    [Account("101", "Cash", AccountType("AS", "Asset"), true, None),
     Account("401", "Sales", AccountType("RE", "Revenue"), true, None)]
  }

  function SaleLedger(): Ledger
  {
    Ledger(map[0 := Entry("JE-1", 20240115, "Sale", "posted", 0)],
           [Line(0, 0, 0, 100, 0, None), Line(1, 0, 1, 0, 100, None)])
  }

  lemma SaleLedgerBalanced()
    ensures LedgerBalanced(SaleLedger())
  {
    var l0 := Line(0, 0, 0, 100, 0, None);
    var l1 := Line(1, 0, 1, 0, 100, None);
    FilterPair(l0, l1, (l: Line) => l.entry == 0);
    assert EntryLines(SaleLedger().lines, 0) == [l0, l1];
    SumPair(l0, l1, (l: Line) => l.debit);
    SumPair(l0, l1, (l: Line) => l.credit);
  }

  lemma SaleCounted()
    ensures CountedLines(SaleLedger(), BalanceWindow(Some(20241231), None))
         == [Line(0, 0, 0, 100, 0, None), Line(1, 0, 1, 0, 100, None)]
  {
    var ledger := SaleLedger();
    var l0 := Line(0, 0, 0, 100, 0, None);
    var l1 := Line(1, 0, 1, 0, 100, None);
    var w := BalanceWindow(Some(20241231), None);
    assert EntryCounted(ledger, w, 0);
    FilterPair(l0, l1, IsCounted(ledger, w));
  }

  lemma SaleBalances()
    ensures RawBalance(SaleLedger(), BalanceWindow(Some(20241231), None), 0) == 100
    ensures RawBalance(SaleLedger(), BalanceWindow(Some(20241231), None), 1) == -100
  {
    var ledger := SaleLedger();
    var l0 := Line(0, 0, 0, 100, 0, None);
    var l1 := Line(1, 0, 1, 0, 100, None);
    var w := BalanceWindow(Some(20241231), None);
    SaleCounted();
    FilterPair(l0, l1, OnAccount(0));
    FilterPair(l0, l1, OnAccount(1));
    assert AccountLines(ledger, w, 0) == [l0];
    assert AccountLines(ledger, w, 1) == [l1];
    SumOne(l0, LineDebit);
    SumOne(l0, LineCredit);
    SumOne(l1, LineDebit);
    SumOne(l1, LineCredit);
  }

  lemma SaleLedgerFacts()
    ensures LedgerBalanced(SaleLedger())
    ensures ActiveIds(SaleChart()) == [0, 1]
    ensures RawBalance(SaleLedger(), BalanceWindow(Some(20241231), None), 0) == 100
    ensures RawBalance(SaleLedger(), BalanceWindow(Some(20241231), None), 1) == -100
  {
    SaleLedgerBalanced();
    ActiveIdsPair(SaleChart());
    SaleBalances();
  }

  /** Both rows of the sale ledger's trial balance, with or without the flip. */
  lemma SaleRowsOf(flip: bool)
    ensures TrialRowOf(SaleChart(), SaleLedger(), 20241231, 0, flip) == TrialRow("101", "Cash", "Asset", 100, 0)
    ensures TrialRowOf(SaleChart(), SaleLedger(), 20241231, 1, flip)
         == if flip then TrialRow("401", "Sales", "Revenue", 100, 0) else TrialRow("401", "Sales", "Revenue", 0, 100)
  {
    SaleBalances();
  }

  /** The sale ledger's trial balance, with or without the flip: the revenue
      row's 100 lands in the debit column under the flip and in the credit
      column without it. */
  lemma SaleTrialBalance(flip: bool)
    ensures var tb := TrialBalanceWith(SaleChart(), SaleLedger(), 20241231, flip);
      tb.rows == [TrialRow("101", "Cash", "Asset", 100, 0),
                  if flip then TrialRow("401", "Sales", "Revenue", 100, 0) else TrialRow("401", "Sales", "Revenue", 0, 100)]
      && tb.totalDebits == (if flip then 200 else 100) && tb.totalCredits == (if flip then 0 else 100)
  {
    var chart, ledger := SaleChart(), SaleLedger();
    SaleLedgerFacts();
    SaleRowsOf(flip);
    var tb := TrialBalanceWith(chart, ledger, 20241231, flip);
    assert tb.rows == TrialRows(chart, ledger, 20241231, [0, 1], flip);
    SumPair(tb.rows[0], tb.rows[1], RowDebit);
    SumPair(tb.rows[0], tb.rows[1], RowCredit);
  }

  /** The generator as written reports this sound ledger as out of balance:
      the revenue credit lands in the debit column. */
  lemma TrialBalanceFlipCounterexample()
    ensures LedgerBalanced(SaleLedger())
    ensures var tb := TrialBalanceOf(SaleChart(), SaleLedger(), 20241231);
      |tb.rows| == 2 && tb.rows[1].debit == 100 && tb.rows[1].credit == 0
      && tb.totalDebits == 200 && tb.totalCredits == 0 && !tb.balanced
  {
    SaleLedgerBalanced();
    SaleTrialBalance(true);
  }

  /** The corrected trial balance of the same ledger puts the revenue in the
      credit column and balances. */
  lemma CorrectedTrialBalanceExample()
    ensures var tb := CorrectedTrialBalanceOf(SaleChart(), SaleLedger(), 20241231);
      |tb.rows| == 2 && tb.rows[1].debit == 0 && tb.rows[1].credit == 100
      && tb.totalDebits == 100 && tb.totalCredits == 100 && tb.balanced
  {
    SaleTrialBalance(false);
  }

  lemma FilterPair<T>(a: T, b: T, p: T -> bool)
    ensures Filter([a, b], p) == (if p(a) then [a] else []) + (if p(b) then [b] else [])
  {
    assert [a, b][1..] == [b];
    assert [b][1..] == [];
  }

  lemma SumPair<T>(a: T, b: T, f: T -> int)
    ensures Sum([a, b], f) == f(a) + f(b)
  {
    assert [a, b][1..] == [b];
    SumOne(b, f);
  }

  lemma SumOne<T>(a: T, f: T -> int)
    ensures Sum([a], f) == f(a)
  {
    assert [a][1..] == [];
  }

  lemma ActiveIdsPair(chart: Chart)
    requires |chart| == 2 && chart[0].isActive && chart[1].isActive
    ensures ActiveIds(chart) == [0, 1]
  {
    var p := (x: Account) => x.isActive;
    assert IndicesWhere(chart, p, 0) == [];
    assert IndicesWhere(chart, p, 1) == [0];
    assert IndicesWhere(chart, p, 2) == [0, 1];
  }

  // ---------------------------------------------------------------------
  // Income statement and balance sheet
  // ---------------------------------------------------------------------

  datatype IncomeStatement = IncomeStatement(
    from: Option<Date>,
    to: Date,
    revenue: seq<BalanceRow>,
    expenses: seq<BalanceRow>,
    totalRevenue: int,
    totalExpenses: int,
    netIncome: int)

  /** generate_income_statement: RE and EX balances over the posted lines
      dated from `from` (when given) to `to`; net income is revenue minus
      expenses. */
  function IncomeStatementOf(chart: Chart, ledger: Ledger, from: Option<Date>, to: Date): (r: IncomeStatement)
    ensures r.totalRevenue == Sum(r.revenue, RowBalance) && r.totalExpenses == Sum(r.expenses, RowBalance)
    ensures r.netIncome == r.totalRevenue - r.totalExpenses
  {
    var w := BalanceWindow(Some(to), from);
    var revenue := BalanceRows(chart, ledger, w, TypeIds(chart, "RE"));
    var expenses := BalanceRows(chart, ledger, w, TypeIds(chart, "EX"));
    var totalRevenue := Sum(revenue, RowBalance);
    var totalExpenses := Sum(expenses, RowBalance);
    IncomeStatement(from, to, revenue, expenses, totalRevenue, totalExpenses, totalRevenue - totalExpenses)
  }

  /** Net income is the credit-minus-debit net of the posted revenue and
      expense lines of the period. */
  lemma NetIncomeFromLines(chart: Chart, ledger: Ledger, from: Option<Date>, to: Date)
    ensures IncomeStatementOf(chart, ledger, from, to).netIncome
         == - Sum(Filter(CountedLines(ledger, BalanceWindow(Some(to), from)), OfTypes(chart, {"RE"})), Net)
            - Sum(Filter(CountedLines(ledger, BalanceWindow(Some(to), from)), OfTypes(chart, {"EX"})), Net)
  {
    TypeTotal(chart, ledger, BalanceWindow(Some(to), from), "RE");
    TypeTotal(chart, ledger, BalanceWindow(Some(to), from), "EX");
  }

  /** Net income over a period is the sum of the net incomes of the two
      sub-periods on either side of any split day. */
  lemma NetIncomeAdditive(chart: Chart, ledger: Ledger, from: Option<Date>, mid: Date, to: Date)
    requires from.Some? ==> from.value <= mid
    requires mid <= to + 1
    ensures IncomeStatementOf(chart, ledger, from, to).netIncome
         == IncomeStatementOf(chart, ledger, from, mid - 1).netIncome
          + IncomeStatementOf(chart, ledger, Some(mid), to).netIncome
  {
    var w := BalanceWindow(Some(to), from);
    var w1 := BalanceWindow(Some(mid - 1), from);
    var w2 := BalanceWindow(Some(to), Some(mid));
    NetIncomeFromLines(chart, ledger, from, to);
    NetIncomeFromLines(chart, ledger, from, mid - 1);
    NetIncomeFromLines(chart, ledger, Some(mid), to);
    WindowSplit(ledger, w, w1, w2, OfTypes(chart, {"RE"}));
    WindowSplit(ledger, w, w1, w2, OfTypes(chart, {"EX"}));
  }

  datatype BalanceSheet = BalanceSheet(
    asOf: Date,
    assets: seq<BalanceRow>,
    liabilities: seq<BalanceRow>,
    equity: seq<BalanceRow>,
    totalAssets: int,
    totalLiabilities: int,
    totalEquity: int,
    balanced: bool)

  /** generate_balance_sheet: AS, LI and EQ balances of the posted lines on
      or before asOf, their totals, and whether assets equal liabilities
      plus equity (exact, since amounts are whole cents). */
  function BalanceSheetOf(chart: Chart, ledger: Ledger, asOf: Date): (r: BalanceSheet)
    ensures r.totalAssets == Sum(r.assets, RowBalance)
    ensures r.totalLiabilities == Sum(r.liabilities, RowBalance)
    ensures r.totalEquity == Sum(r.equity, RowBalance)
    ensures r.balanced <==> r.totalAssets == r.totalLiabilities + r.totalEquity
  {
    var w := BalanceWindow(Some(asOf), None);
    var assets := BalanceRows(chart, ledger, w, TypeIds(chart, "AS"));
    var liabilities := BalanceRows(chart, ledger, w, TypeIds(chart, "LI"));
    var equity := BalanceRows(chart, ledger, w, TypeIds(chart, "EQ"));
    var ta := Sum(assets, RowBalance);
    var tl := Sum(liabilities, RowBalance);
    var te := Sum(equity, RowBalance);
    BalanceSheet(asOf, assets, liabilities, equity, ta, tl, te, ta == tl + te)
  }

  /** Every account has one of the five type codes. */
  predicate ChartTyped(chart: Chart)
  {
    forall i :: 0 <= i < |chart| ==> chart[i].accountType.code in {"AS", "LI", "EQ", "RE", "EX"}
  }

  /** Every line is posted to an account of the chart. */
  predicate LinesOnChart(chart: Chart, ledger: Ledger)
  {
    forall l :: l in ledger.lines ==> l.account < |chart|
  }

  /** Lines on accounts of two disjoint sets of types split into the two sets. */
  lemma TypeSplit(chart: Chart, c: seq<Line>, a: set<string>, b: set<string>)
    requires a !! b
    ensures Sum(Filter(c, OfTypes(chart, a + b)), Net) == Sum(Filter(c, OfTypes(chart, a)), Net) + Sum(Filter(c, OfTypes(chart, b)), Net)
  {
    SumSplit(c, OfTypes(chart, a + b), OfTypes(chart, a), OfTypes(chart, b), Net);
  }

  /** The counted lines split by the five account types. */
  lemma FiveWaySplit(chart: Chart, c: seq<Line>)
    ensures Sum(Filter(c, OfTypes(chart, {"AS", "LI", "EQ", "RE", "EX"})), Net)
         == Sum(Filter(c, OfTypes(chart, {"AS"})), Net) + Sum(Filter(c, OfTypes(chart, {"LI"})), Net)
          + Sum(Filter(c, OfTypes(chart, {"EQ"})), Net) + Sum(Filter(c, OfTypes(chart, {"RE"})), Net)
          + Sum(Filter(c, OfTypes(chart, {"EX"})), Net)
  {
    assert {"AS"} + {"LI", "EQ", "RE", "EX"} == {"AS", "LI", "EQ", "RE", "EX"};
    assert {"LI"} + {"EQ", "RE", "EX"} == {"LI", "EQ", "RE", "EX"};
    assert {"EQ"} + {"RE", "EX"} == {"EQ", "RE", "EX"};
    assert {"RE"} + {"EX"} == {"RE", "EX"};
    TypeSplit(chart, c, {"AS"}, {"LI", "EQ", "RE", "EX"});
    TypeSplit(chart, c, {"LI"}, {"EQ", "RE", "EX"});
    TypeSplit(chart, c, {"EQ"}, {"RE", "EX"});
    TypeSplit(chart, c, {"RE"}, {"EX"});
  }

  /** In a ledger of balanced entries whose accounts all have one of the five
      types, the posted lines up to any day net to zero across the types. */
  lemma TypesNetZero(chart: Chart, ledger: Ledger, w: Window)
    requires LedgerBalanced(ledger) && ChartTyped(chart) && LinesOnChart(chart, ledger)
    ensures var c := CountedLines(ledger, w);
      Sum(Filter(c, OfTypes(chart, {"AS"})), Net) + Sum(Filter(c, OfTypes(chart, {"LI"})), Net)
      + Sum(Filter(c, OfTypes(chart, {"EQ"})), Net) + Sum(Filter(c, OfTypes(chart, {"RE"})), Net)
      + Sum(Filter(c, OfTypes(chart, {"EX"})), Net) == 0
  {
    var c := CountedLines(ledger, w);
    CountedLinesNetZero(ledger, w);
    FilterAll(c, OfTypes(chart, {"AS", "LI", "EQ", "RE", "EX"}));
    FiveWaySplit(chart, c);
  }

  /** In a ledger of balanced entries, assets minus liabilities and equity is
      the cumulative net income up to the same day. */
  lemma BalanceSheetGap(chart: Chart, ledger: Ledger, asOf: Date)
    requires LedgerBalanced(ledger) && ChartTyped(chart) && LinesOnChart(chart, ledger)
    ensures var bs := BalanceSheetOf(chart, ledger, asOf);
      bs.totalAssets - (bs.totalLiabilities + bs.totalEquity) == IncomeStatementOf(chart, ledger, None, asOf).netIncome
  {
    var w := BalanceWindow(Some(asOf), None);
    TypeTotal(chart, ledger, w, "AS");
    TypeTotal(chart, ledger, w, "LI");
    TypeTotal(chart, ledger, w, "EQ");
    NetIncomeFromLines(chart, ledger, None, asOf);
    TypesNetZero(chart, ledger, w);
  }

  /** The balance sheet balances exactly when revenue and expenses to date
      cancel. */
  lemma BalanceSheetBalancedIff(chart: Chart, ledger: Ledger, asOf: Date)
    requires LedgerBalanced(ledger) && ChartTyped(chart) && LinesOnChart(chart, ledger)
    ensures BalanceSheetOf(chart, ledger, asOf).balanced <==> IncomeStatementOf(chart, ledger, None, asOf).netIncome == 0
  {
    var bs := BalanceSheetOf(chart, ledger, asOf);
    var net := IncomeStatementOf(chart, ledger, None, asOf).netIncome;
    BalanceSheetGap(chart, ledger, asOf);
    assert bs.totalAssets - (bs.totalLiabilities + bs.totalEquity) == net;
    assert bs.balanced <==> bs.totalAssets == bs.totalLiabilities + bs.totalEquity;
  }

  // ---------------------------------------------------------------------
  // Cash flow
  // ---------------------------------------------------------------------

  /** The date the opening queries of the cash flow and the general ledger
      fall back to when no from date is given (1900-01-01). */
  const OpeningFallback: Date := 19000101

  /** The window of an opening balance: posted lines strictly before from,
      or before 1900-01-01 when from is not given. */
  function OpeningWindow(from: Option<Date>): (w: Window)
    ensures forall d :: InWindow(w, d) <==> d < from.GetOr(OpeningFallback)
  {
    Window(None, Before(from.GetOr(OpeningFallback)))
  }

  /** Cash accounts: every account (active or not) whose code starts with "101". */
  function CashIds(chart: Chart): (r: seq<nat>)
    ensures forall a: nat :: a in r <==> a < |chart| && "101" <= chart[a].code
    ensures Distinct(r) && OnChart(chart, r)
  {
    IndicesWhere(chart, (x: Account) => "101" <= x.code, |chart|)
  }

  datatype CashFlow = CashFlow(
    from: Option<Date>,
    to: Date,
    operating: seq<BalanceRow>,
    operatingTotal: int,
    investing: seq<BalanceRow>,
    investingTotal: int,
    financing: seq<BalanceRow>,
    financingTotal: int,
    beginningCash: int,
    endingCash: int)

  /** generate_cash_flow: beginning cash is the raw debit-minus-credit
      balance of the cash accounts' posted lines before the period; the
      three activity sections are empty with zero totals, and ending cash is
      beginning cash plus the three totals. */
  function CashFlowOf(chart: Chart, ledger: Ledger, from: Option<Date>, to: Date): (r: CashFlow)
    ensures r.operating == [] && r.investing == [] && r.financing == []
    ensures r.endingCash == r.beginningCash + r.operatingTotal + r.investingTotal + r.financingTotal
  {
    var beginning := Sum(CashIds(chart), AccountNet(ledger, OpeningWindow(from)));
    CashFlow(from, to, [], 0, [], 0, [], 0, beginning, beginning + 0 + 0 + 0)
  }

  /** generate_cash_flow: beginning cash accumulated over the cash accounts,
      the three (empty) activity sections, and ending cash. */
  method GenerateCashFlow(chart: Chart, ledger: Ledger, from: Option<Date>, to: Date) returns (r: CashFlow)
    ensures r == CashFlowOf(chart, ledger, from, to)
  {
    var operatingTotal, investingTotal, financingTotal := 0, 0, 0;
    var beginningCash := AccumulateNets(ledger, OpeningWindow(from), CashIds(chart));
    var endingCash := beginningCash + operatingTotal + investingTotal + financingTotal;
    r := CashFlow(from, to, [], operatingTotal, [], investingTotal, [], financingTotal, beginningCash, endingCash);
  }

  /** The generator's loop over the cash accounts, adding each account's
      debit sum minus credit sum over the window. */
  method AccumulateNets(ledger: Ledger, w: Window, accounts: seq<nat>) returns (total: int)
    ensures total == Sum(accounts, AccountNet(ledger, w))
  {
    total := 0;
    var k := 0;
    while k < |accounts|
      invariant 0 <= k <= |accounts|
      invariant total == Sum(accounts[..k], AccountNet(ledger, w))
    {
      var a := accounts[k];
      var debitSum := DebitSum(ledger, w, a);
      var creditSum := CreditSum(ledger, w, a);
      AccountNetPrefix(ledger, w, accounts, k);
      total := total + (debitSum - creditSum);
      k := k + 1;
    }
    assert accounts[..k] == accounts;
  }

  /** One more account adds its debit sum minus its credit sum to the sum of
      account nets. */
  lemma AccountNetPrefix(ledger: Ledger, w: Window, accounts: seq<nat>, k: nat)
    requires k < |accounts|
    ensures Sum(accounts[..k + 1], AccountNet(ledger, w))
         == Sum(accounts[..k], AccountNet(ledger, w)) + (DebitSum(ledger, w, accounts[k]) - CreditSum(ledger, w, accounts[k]))
  {
    RawBalanceIsNet(ledger, w, accounts[k]);
    assert accounts[..k + 1] == accounts[..k] + [accounts[k]];
    SumSnoc(accounts[..k], accounts[k], AccountNet(ledger, w));
  }

  /** Beginning cash is the net of every posted line on a cash account dated
      before the period (before 1900-01-01 without a from date), and ending
      cash equals it. */
  lemma BeginningCashFromLines(chart: Chart, ledger: Ledger, from: Option<Date>, to: Date)
    ensures CashFlowOf(chart, ledger, from, to).beginningCash
         == Sum(Filter(CountedLines(ledger, OpeningWindow(from)), OnAccounts(CashIds(chart))), Net)
    ensures CashFlowOf(chart, ledger, from, to).endingCash == CashFlowOf(chart, ledger, from, to).beginningCash
  {
    SumOverAccounts(ledger, OpeningWindow(from), CashIds(chart));
  }
}

/** The general-ledger report: per account, an opening balance, the period's
    lines in (entry date, entry id) order with a running balance, and an
    ending balance (generate_general_ledger in reports/report_generators.py). */
module GeneralLedger {
  import opened Common
  import opened Coa
  import opened Journal
  import opened Balances
  import opened Statements

  // ---------------------------------------------------------------------
  // Ordering the period's lines
  // ---------------------------------------------------------------------

  /** The date of a line's entry (0 for a line whose entry is missing, which
      a counted line never is). */
  function EntryDate(ledger: Ledger, l: Line): Date
  {
    if l.entry in ledger.entries then ledger.entries[l.entry].date else 0
  }

  /** Line a sorts no later than line b: by entry date, then by entry id. */
  predicate KeyLe(ledger: Ledger, a: Line, b: Line)
  {
    EntryDate(ledger, a) < EntryDate(ledger, b)
    || (EntryDate(ledger, a) == EntryDate(ledger, b) && a.entry <= b.entry)
  }

  predicate SortedByEntry(ledger: Ledger, s: seq<Line>)
  {
    forall i, j :: 0 <= i < j < |s| ==> KeyLe(ledger, s[i], s[j])
  }

  /** Inserts x before the first element it sorts no later than. */
  function Insert(ledger: Ledger, x: Line, s: seq<Line>): (r: seq<Line>)
    ensures multiset(r) == multiset(s) + multiset{x}
    ensures |r| == |s| + 1
  {
    if s == [] || KeyLe(ledger, x, s[0]) then [x] + s
    else
      assert s == [s[0]] + s[1..];
      [s[0]] + Insert(ledger, x, s[1..])
  }

  /** The lines ordered by (entry date, entry id); lines of one entry keep
      their table order. */
  function SortLines(ledger: Ledger, s: seq<Line>): (r: seq<Line>)
    ensures multiset(r) == multiset(s)
    ensures |r| == |s|
  {
    if s == [] then []
    else
      assert s == [s[0]] + s[1..];
      Insert(ledger, s[0], SortLines(ledger, s[1..]))
  }

  lemma {:induction false} InsertSorted(ledger: Ledger, x: Line, s: seq<Line>)
    requires SortedByEntry(ledger, s)
    ensures SortedByEntry(ledger, Insert(ledger, x, s))
  {
    if s != [] && !KeyLe(ledger, x, s[0]) {
      InsertSorted(ledger, x, s[1..]);
      var r := Insert(ledger, x, s);
      var t := Insert(ledger, x, s[1..]);
      assert r == [s[0]] + t;
      forall k | 0 <= k < |t|
        ensures KeyLe(ledger, s[0], t[k])
      {
        assert t[k] in multiset(t);
        if t[k] != x {
          assert t[k] in multiset(s[1..]);
          var m :| 0 <= m < |s[1..]| && s[1..][m] == t[k];
          assert s[m + 1] == t[k];
        }
      }
    }
  }

  /** The sorted lines are in (entry date, entry id) order and are a
      permutation of the lines given. */
  lemma {:induction false} SortLinesSorted(ledger: Ledger, s: seq<Line>)
    ensures SortedByEntry(ledger, SortLines(ledger, s))
    ensures multiset(SortLines(ledger, s)) == multiset(s)
  {
    if s != [] {
      SortLinesSorted(ledger, s[1..]);
      InsertSorted(ledger, s[0], SortLines(ledger, s[1..]));
    }
  }

  lemma {:induction false} InsertNet(ledger: Ledger, x: Line, s: seq<Line>)
    ensures Sum(Insert(ledger, x, s), Net) == Net(x) + Sum(s, Net)
  {
    if s != [] && !KeyLe(ledger, x, s[0]) {
      InsertNet(ledger, x, s[1..]);
      assert Insert(ledger, x, s)[1..] == Insert(ledger, x, s[1..]);
    }
  }

  /** Reordering the lines does not change their net. */
  lemma {:induction false} SortKeepsNet(ledger: Ledger, s: seq<Line>)
    ensures Sum(SortLines(ledger, s), Net) == Sum(s, Net)
  {
    if s != [] {
      SortKeepsNet(ledger, s[1..]);
      InsertNet(ledger, s[0], SortLines(ledger, s[1..]));
    }
  }

  // ---------------------------------------------------------------------
  // Running balance
  // ---------------------------------------------------------------------

  datatype Transaction = Transaction(
    date: Date,
    entryNumber: string,
    description: string,
    reference: Option<string>,
    debit: int,
    credit: int,
    balance: int)

  function TransactionOf(ledger: Ledger, l: Line, balance: int): Transaction
  {
    var e := if l.entry in ledger.entries then ledger.entries[l.entry] else Entry("", 0, "", "", 0);
    Transaction(e.date, e.entryNumber, e.description, l.reference, l.debit, l.credit, balance)
  }

  /** One transaction per line, in order, each carrying the opening balance
      plus the net of every line up to and including its own. */
  function Transactions(ledger: Ledger, opening: int, lines: seq<Line>): (r: seq<Transaction>)
    ensures |r| == |lines|
  {
    seq(|lines|, k requires 0 <= k < |lines| => TransactionOf(ledger, lines[k], opening + Sum(lines[..k + 1], Net)))
  }

  /** Each transaction's balance is the previous one (the opening balance
      for the first) plus its line's debit minus its credit. */
  lemma TransactionsRun(ledger: Ledger, opening: int, lines: seq<Line>, k: nat)
    requires k < |lines|
    ensures var txs := Transactions(ledger, opening, lines);
      txs[k].balance == (if k == 0 then opening else txs[k - 1].balance) + lines[k].debit - lines[k].credit
  {
    assert lines[..k + 1] == lines[..k] + [lines[k]];
    SumSnoc(lines[..k], lines[k], Net);
    if k == 0 {
      assert lines[..k] == [];
    }
  }

  lemma TransactionsSnoc(ledger: Ledger, opening: int, lines: seq<Line>, k: nat)
    requires k < |lines|
    ensures Transactions(ledger, opening, lines[..k + 1])
         == Transactions(ledger, opening, lines[..k]) + [TransactionOf(ledger, lines[k], opening + Sum(lines[..k + 1], Net))]
  {
    var a := Transactions(ledger, opening, lines[..k + 1]);
    var b := Transactions(ledger, opening, lines[..k]);
    forall j | 0 <= j < k
      ensures a[j] == b[j]
    {
      assert lines[..k + 1][..j + 1] == lines[..j + 1] == lines[..k][..j + 1];
    }
    assert lines[..k + 1][..k + 1] == lines[..k + 1];
  }

  /** The posting loop of generate_general_ledger: starting from the opening
      balance, each line adds its debit and subtracts its credit, and a
      transaction with the new balance is appended; the final balance is the
      last transaction's balance, or the opening balance when there are no
      lines. */
  method PostTransactions(ledger: Ledger, lines: seq<Line>, opening: int) returns (txs: seq<Transaction>, balance: int)
    ensures txs == Transactions(ledger, opening, lines)
    ensures balance == opening + Sum(lines, Net)
    ensures balance == if lines == [] then opening else txs[|txs| - 1].balance
  {
    txs, balance := [], opening;
    var k := 0;
    while k < |lines|
      invariant 0 <= k <= |lines|
      invariant balance == opening + Sum(lines[..k], Net)
      invariant txs == Transactions(ledger, opening, lines[..k])
    {
      var line := lines[k];
      assert lines[..k + 1] == lines[..k] + [line];
      SumSnoc(lines[..k], line, Net);
      TransactionsSnoc(ledger, opening, lines, k);
      balance := balance + (line.debit - line.credit);
      txs := txs + [TransactionOf(ledger, line, balance)];
      k := k + 1;
    }
    assert lines[..k] == lines;
    if lines == [] {
      assert lines[..0] == [];
    }
  }

  // ---------------------------------------------------------------------
  // Per-account ledgers and the report
  // ---------------------------------------------------------------------

  datatype AccountLedger = AccountLedger(
    code: string,
    name: string,
    typeName: string,
    opening: int,
    transactions: seq<Transaction>,
    ending: int)

  /** The period of the report: posted lines from `from` (when given) to `to`. */
  function Period(from: Option<Date>, to: Date): Window
  {
    BalanceWindow(Some(to), from)
  }

  /** The account's period lines, in (entry date, entry id) order. */
  function PeriodLines(ledger: Ledger, from: Option<Date>, to: Date, a: nat): seq<Line>
  {
    SortLines(ledger, AccountLines(ledger, Period(from, to), a))
  }

  /** The unflipped opening balance: debits minus credits of the posted
      lines dated before from (before 1900-01-01 when from is absent). */
  function Opening(ledger: Ledger, from: Option<Date>, a: nat): int
  {
    DebitSum(ledger, OpeningWindow(from), a) - CreditSum(ledger, OpeningWindow(from), a)
  }

  function AccountLedgerOf(chart: Chart, ledger: Ledger, from: Option<Date>, to: Date, a: nat): (r: AccountLedger)
    requires a < |chart|
    ensures r.code == chart[a].code && r.name == chart[a].name && r.typeName == chart[a].accountType.name
    ensures r.opening == DebitSum(ledger, OpeningWindow(from), a) - CreditSum(ledger, OpeningWindow(from), a)
    ensures r.transactions == Transactions(ledger, r.opening, PeriodLines(ledger, from, to, a))
    ensures r.ending == r.opening + Sum(PeriodLines(ledger, from, to, a), Net)
  {
    var opening := Opening(ledger, from, a);
    var lines := PeriodLines(ledger, from, to, a);
    AccountLedger(chart[a].code, chart[a].name, chart[a].accountType.name, opening,
                  Transactions(ledger, opening, lines), opening + Sum(lines, Net))
  }

  lemma AccountLedgerParts(chart: Chart, ledger: Ledger, from: Option<Date>, to: Date, a: nat, opening: int, txs: seq<Transaction>, balance: int)
    requires a < |chart|
    requires opening == Opening(ledger, from, a)
    requires txs == Transactions(ledger, opening, PeriodLines(ledger, from, to, a))
    requires balance == opening + Sum(PeriodLines(ledger, from, to, a), Net)
    ensures AccountLedger(chart[a].code, chart[a].name, chart[a].accountType.name, opening, txs, balance)
         == AccountLedgerOf(chart, ledger, from, to, a)
  {
  }

  /** The accounts reported: the one named by accountId (none when there is
      no such account), or else every active account in chart order. */
  function ReportedAccounts(chart: Chart, accountId: Option<nat>): (r: seq<nat>)
    ensures OnChart(chart, r)
    ensures accountId.None? ==> r == ActiveIds(chart)
    ensures accountId.Some? ==> (r == if accountId.value < |chart| then [accountId.value] else [])
  {
    match accountId
    case Some(a) => if a < |chart| then [a] else []
    case None => ActiveIds(chart)
  }

  /** The reported accounts' codes, in order. */
  function Codes(chart: Chart, accounts: seq<nat>): seq<string>
    requires OnChart(chart, accounts)
  {
    seq(|accounts|, k requires 0 <= k < |accounts| => chart[accounts[k]].code)
  }

  /** The reported accounts' ledgers, in order. */
  function Ledgers(chart: Chart, ledger: Ledger, from: Option<Date>, to: Date, accounts: seq<nat>): seq<AccountLedger>
    requires OnChart(chart, accounts)
  {
    seq(|accounts|, k requires 0 <= k < |accounts| => AccountLedgerOf(chart, ledger, from, to, accounts[k]))
  }

  /** The report's mapping from account code to account ledger, filled in
      account order (a later account with the same code replaces an earlier). */
  function LedgerMap(chart: Chart, ledger: Ledger, from: Option<Date>, to: Date, accounts: seq<nat>): map<string, AccountLedger>
    requires OnChart(chart, accounts)
  {
    Keyed(Codes(chart, accounts), Ledgers(chart, ledger, from, to, accounts))
  }

  /** Account codes are unique in the chart. */
  predicate CodesUnique(chart: Chart)
  {
    forall i, j :: 0 <= i < j < |chart| ==> chart[i].code != chart[j].code
  }

  /** One more account sets its own code to its ledger. */
  lemma LedgerMapSnoc(chart: Chart, ledger: Ledger, from: Option<Date>, to: Date, accounts: seq<nat>, k: nat)
    requires OnChart(chart, accounts) && k < |accounts|
    ensures LedgerMap(chart, ledger, from, to, accounts[..k + 1])
         == LedgerMap(chart, ledger, from, to, accounts[..k])[chart[accounts[k]].code := AccountLedgerOf(chart, ledger, from, to, accounts[k])]
  {
    var codes, ledgers := Codes(chart, accounts), Ledgers(chart, ledger, from, to, accounts);
    assert Codes(chart, accounts[..k + 1]) == codes[..k + 1];
    assert Codes(chart, accounts[..k]) == codes[..k];
    assert Ledgers(chart, ledger, from, to, accounts[..k + 1]) == ledgers[..k + 1];
    assert Ledgers(chart, ledger, from, to, accounts[..k]) == ledgers[..k];
    KeyedSnoc(codes, ledgers, k);
  }

  /** With unique codes, every reported account is found under its own code. */
  lemma LedgerMapLookup(chart: Chart, ledger: Ledger, from: Option<Date>, to: Date, accounts: seq<nat>, k: nat)
    requires OnChart(chart, accounts) && CodesUnique(chart) && k < |accounts|
    ensures chart[accounts[k]].code in LedgerMap(chart, ledger, from, to, accounts)
    ensures LedgerMap(chart, ledger, from, to, accounts)[chart[accounts[k]].code] == AccountLedgerOf(chart, ledger, from, to, accounts[k])
  {
    var codes, ledgers := Codes(chart, accounts), Ledgers(chart, ledger, from, to, accounts);
    forall i, j | 0 <= i < |codes| && 0 <= j < |codes| && codes[i] == codes[j]
      ensures ledgers[i] == ledgers[j]
    {
      SameCodeSameAccount(chart, accounts[i], accounts[j]);
    }
    KeyedLookup(codes, ledgers, k);
  }

  lemma SameCodeSameAccount(chart: Chart, i: nat, j: nat)
    requires CodesUnique(chart) && i < |chart| && j < |chart| && chart[i].code == chart[j].code
    ensures i == j
  {
    if i < j {
    } else if j < i {
    }
  }

  /** The map's keys are exactly the codes of the given accounts. */
  lemma LedgerMapKeys(chart: Chart, ledger: Ledger, from: Option<Date>, to: Date, accounts: seq<nat>)
    requires OnChart(chart, accounts)
    ensures forall c :: c in LedgerMap(chart, ledger, from, to, accounts) <==>
      exists k :: 0 <= k < |accounts| && chart[accounts[k]].code == c
  {
    var codes := Codes(chart, accounts);
    KeyedKeys(codes, Ledgers(chart, ledger, from, to, accounts));
    forall c ensures c in codes <==> exists k :: 0 <= k < |accounts| && chart[accounts[k]].code == c
    {
      if exists k :: 0 <= k < |accounts| && chart[accounts[k]].code == c {
        var k :| 0 <= k < |accounts| && chart[accounts[k]].code == c;
        assert codes[k] == c;
      }
    }
  }

  /** The map holds exactly the reported accounts' codes and, with unique
      codes, each reported account's ledger under its own code. */
  lemma LedgerMapContents(chart: Chart, ledger: Ledger, from: Option<Date>, to: Date, accounts: seq<nat>)
    requires OnChart(chart, accounts)
    ensures forall c :: c in LedgerMap(chart, ledger, from, to, accounts) <==>
      exists k :: 0 <= k < |accounts| && chart[accounts[k]].code == c
    ensures CodesUnique(chart) ==> forall k :: 0 <= k < |accounts| ==>
      chart[accounts[k]].code in LedgerMap(chart, ledger, from, to, accounts) &&
      LedgerMap(chart, ledger, from, to, accounts)[chart[accounts[k]].code] == AccountLedgerOf(chart, ledger, from, to, accounts[k])
  {
    LedgerMapKeys(chart, ledger, from, to, accounts);
    if CodesUnique(chart) {
      forall k | 0 <= k < |accounts|
        ensures chart[accounts[k]].code in LedgerMap(chart, ledger, from, to, accounts)
        ensures LedgerMap(chart, ledger, from, to, accounts)[chart[accounts[k]].code] == AccountLedgerOf(chart, ledger, from, to, accounts[k])
      {
        LedgerMapLookup(chart, ledger, from, to, accounts, k);
      }
    }
  }

  datatype GeneralLedgerReport = GeneralLedgerReport(from: Option<Date>, to: Date, accounts: map<string, AccountLedger>)

  /** The general ledger report for the period: keyed by the codes of the
      reported accounts and nothing else, and, when codes are unique, each
      reported account's ledger under its code. */
  function GeneralLedgerOf(chart: Chart, ledger: Ledger, from: Option<Date>, to: Date, accountId: Option<nat>): (r: GeneralLedgerReport)
    ensures r.from == from && r.to == to
    ensures var accounts := ReportedAccounts(chart, accountId);
      forall c :: c in r.accounts <==> exists k :: 0 <= k < |accounts| && chart[accounts[k]].code == c
    ensures var accounts := ReportedAccounts(chart, accountId);
      CodesUnique(chart) ==> forall k :: 0 <= k < |accounts| ==>
        chart[accounts[k]].code in r.accounts &&
        r.accounts[chart[accounts[k]].code] == AccountLedgerOf(chart, ledger, from, to, accounts[k])
  {
    LedgerMapContents(chart, ledger, from, to, ReportedAccounts(chart, accountId));
    GeneralLedgerReport(from, to, LedgerMap(chart, ledger, from, to, ReportedAccounts(chart, accountId)))
  }

  /** generate_general_ledger: for each reported account, the opening
      balance, the posting loop over the period's ordered lines, and one map
      entry under the account's code. */
  method GenerateGeneralLedger(chart: Chart, ledger: Ledger, from: Option<Date>, to: Date, accountId: Option<nat>)
    returns (r: GeneralLedgerReport)
    ensures r == GeneralLedgerOf(chart, ledger, from, to, accountId)
  {
    var accounts := ReportedAccounts(chart, accountId);
    var result: map<string, AccountLedger> := map[];
    var k := 0;
    while k < |accounts|
      invariant 0 <= k <= |accounts|
      invariant result == LedgerMap(chart, ledger, from, to, accounts[..k])
    {
      var a := accounts[k];
      var accountLedger := PostAccount(chart, ledger, from, to, a);
      LedgerMapSnoc(chart, ledger, from, to, accounts, k);
      result := result[chart[a].code := accountLedger];
      k := k + 1;
    }
    assert accounts[..k] == accounts;
    r := GeneralLedgerReport(from, to, result);
  }

  /** One account's ledger: the opening balance from the lines before the
      period, then the posting loop over the period's ordered lines. */
  method PostAccount(chart: Chart, ledger: Ledger, from: Option<Date>, to: Date, a: nat) returns (r: AccountLedger)
    requires a < |chart|
    ensures r == AccountLedgerOf(chart, ledger, from, to, a)
  {
    var openingDebit := DebitSum(ledger, OpeningWindow(from), a);
    var openingCredit := CreditSum(ledger, OpeningWindow(from), a);
    var opening := openingDebit - openingCredit;
    var lines := PeriodLines(ledger, from, to, a);
    var txs, balance := PostTransactions(ledger, lines, opening);
    AccountLedgerParts(chart, ledger, from, to, a, opening, txs, balance);
    r := AccountLedger(chart[a].code, chart[a].name, chart[a].accountType.name, opening, txs, balance);
  }

  /** With from <= to + 1 on the integer dates, an account's ending
      balance is its raw debit-minus-credit balance of every posted line up
      to `to`: opening balance and period lines together cover that span
      exactly once. */
  lemma EndingReconciles(chart: Chart, ledger: Ledger, from: Date, to: Date, a: nat)
    requires a < |chart| && from <= to + 1
    ensures AccountLedgerOf(chart, ledger, Some(from), to, a).ending == RawBalance(ledger, BalanceWindow(Some(to), None), a)
  {
    var w := BalanceWindow(Some(to), None);
    var before := OpeningWindow(Some(from));
    var period := Period(Some(from), to);
    SortKeepsNet(ledger, AccountLines(ledger, period, a));
    RawBalanceIsNet(ledger, before, a);
    RawBalanceIsNet(ledger, w, a);
    OpeningAndPeriodCover(from, to);
    WindowSplit(ledger, w, before, period, OnAccount(a));
  }

  /** Before `from`, and from `from` to `to`, together cover every day up to
      `to` once, when from <= to + 1 on the integer dates. */
  lemma OpeningAndPeriodCover(from: Date, to: Date)
    requires from <= to + 1
    ensures forall d :: InWindow(BalanceWindow(Some(to), None), d)
                        <==> InWindow(OpeningWindow(Some(from)), d) || InWindow(Period(Some(from), to), d)
    ensures forall d :: !(InWindow(OpeningWindow(Some(from)), d) && InWindow(Period(Some(from), to), d))
  {
  }

  /** Without a from date the opening balance covers the lines before
      1900-01-01 and the period covers every line up to `to`, so the ending
      balance counts the pre-1900 lines twice; it is the raw balance up to
      `to` exactly when those early lines net to zero. */
  lemma EndingWithoutFrom(chart: Chart, ledger: Ledger, to: Date, a: nat)
    requires a < |chart|
    ensures AccountLedgerOf(chart, ledger, None, to, a).ending
         == RawBalance(ledger, BalanceWindow(Some(to), None), a) + RawBalance(ledger, OpeningWindow(None), a)
  {
    SortKeepsNet(ledger, AccountLines(ledger, Period(None, to), a));
    RawBalanceIsNet(ledger, OpeningWindow(None), a);
    RawBalanceIsNet(ledger, BalanceWindow(Some(to), None), a);
  }
}

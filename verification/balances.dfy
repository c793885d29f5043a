/** Aggregation of posted journal lines over date windows, and the per-account
    balance rows that every report is built from (calculate_account_balances
    in reports/report_generators.py). */
module Balances {
  import opened Common
  import opened Coa
  import opened Journal

  /** Upper end of a date window: none, inclusive (lte) or strict (lt). */
  datatype Upper = NoUpper | OnOrBefore(last: Date) | Before(limit: Date)

  /** The entry dates a query admits: on or after `from` when it is given,
      and within `upper`. */
  datatype Window = Window(from: Option<Date>, upper: Upper)

  predicate InWindow(w: Window, d: Date)
  {
    && (w.from.Some? ==> w.from.value <= d)
    && (match w.upper
        case NoUpper => true
        case OnOrBefore(last) => d <= last
        case Before(limit) => d < limit)
  }

  /** The window of calculate_account_balances: on or before asOf when it is
      given, and on or after from when it is given. */
  function BalanceWindow(asOf: Option<Date>, from: Option<Date>): (w: Window)
    ensures forall d :: InWindow(w, d) <==> (asOf.Some? ==> d <= asOf.value) && (from.Some? ==> from.value <= d)
  {
    Window(from, if asOf.Some? then OnOrBefore(asOf.value) else NoUpper)
  }

  /** The lines of entry id take part in a report over w: the entry exists,
      its status is "posted", and its date lies in w. */
  predicate EntryCounted(ledger: Ledger, w: Window, id: nat)
  {
    id in ledger.entries && ledger.entries[id].status == "posted" && InWindow(w, ledger.entries[id].date)
  }

  function IsCounted(ledger: Ledger, w: Window): Line -> bool
  {
    (l: Line) => EntryCounted(ledger, w, l.entry)
  }

  function OnAccount(a: nat): Line -> bool
  {
    (l: Line) => l.account == a
  }

  /** All lines of posted entries dated in w, in table order. */
  function CountedLines(ledger: Ledger, w: Window): (r: seq<Line>)
    ensures forall l :: l in r <==> l in ledger.lines && EntryCounted(ledger, w, l.entry)
  {
    Filter(ledger.lines, IsCounted(ledger, w))
  }

  /** The lines one account's balance is computed from. */
  function AccountLines(ledger: Ledger, w: Window, a: nat): (r: seq<Line>)
    ensures forall l :: l in r <==> l in ledger.lines && l.account == a && EntryCounted(ledger, w, l.entry)
  {
    Filter(CountedLines(ledger, w), OnAccount(a))
  }

  function LineDebit(l: Line): int { l.debit }
  function LineCredit(l: Line): int { l.credit }

  /** A line's raw effect: debit minus credit. */
  function Net(l: Line): int { l.debit - l.credit }

  /** The debit aggregate of one account's counted lines (0 when there are none). */
  function DebitSum(ledger: Ledger, w: Window, a: nat): int
  {
    Sum(AccountLines(ledger, w, a), LineDebit)
  }

  /** The credit aggregate of one account's counted lines (0 when there are none). */
  function CreditSum(ledger: Ledger, w: Window, a: nat): int
  {
    Sum(AccountLines(ledger, w, a), LineCredit)
  }

  /** Raw balance of an account: total debits minus total credits. */
  function RawBalance(ledger: Ledger, w: Window, a: nat): int
  {
    DebitSum(ledger, w, a) - CreditSum(ledger, w, a)
  }

  /** AS and EX accounts grow with debits; every other type grows with credits. */
  predicate DebitNormal(code: string)
  {
    code == "AS" || code == "EX"
  }

  /** x as seen from an account type: unchanged for debit-normal types,
      negated for the others. */
  function Signed(code: string, x: int): int
  {
    if DebitNormal(code) then x else -x
  }

  /** The balance calculate_account_balances reports for an account. */
  function Balance(chart: Chart, ledger: Ledger, w: Window, a: nat): int
    requires a < |chart|
  {
    if DebitNormal(chart[a].accountType.code) then DebitSum(ledger, w, a) - CreditSum(ledger, w, a)
    else CreditSum(ledger, w, a) - DebitSum(ledger, w, a)
  }

  /** The row produced for one account. */
  datatype BalanceRow = BalanceRow(id: nat, code: string, name: string, balance: int)

  function RowBalance(r: BalanceRow): int { r.balance }

  predicate OnChart(chart: Chart, accounts: seq<nat>)
  {
    forall k :: 0 <= k < |accounts| ==> accounts[k] < |chart|
  }

  function RowOf(chart: Chart, ledger: Ledger, w: Window, a: nat): BalanceRow
    requires a < |chart|
  {
    BalanceRow(a, chart[a].code, chart[a].name, Balance(chart, ledger, w, a))
  }

  /** One row per account, in the order the accounts are given. */
  function BalanceRows(chart: Chart, ledger: Ledger, w: Window, accounts: seq<nat>): seq<BalanceRow>
    requires OnChart(chart, accounts)
  {
    seq(|accounts|, k requires 0 <= k < |accounts| => RowOf(chart, ledger, w, accounts[k]))
  }

  /** calculate_account_balances: one row per account, in order, holding the
      account's id, code and name and its balance over the posted lines dated
      within the window, signed by the account's normal side. */
  method CalculateAccountBalances(chart: Chart, ledger: Ledger, accounts: seq<nat>, asOf: Option<Date>, from: Option<Date>)
    returns (rows: seq<BalanceRow>)
    requires OnChart(chart, accounts)
    ensures rows == BalanceRows(chart, ledger, BalanceWindow(asOf, from), accounts)
    ensures |rows| == |accounts|
    ensures forall k :: 0 <= k < |rows| ==>
      && rows[k].id == accounts[k]
      && rows[k].code == chart[accounts[k]].code
      && rows[k].balance == Signed(chart[accounts[k]].accountType.code, Sum(AccountLines(ledger, BalanceWindow(asOf, from), accounts[k]), Net))
  {
    var w := BalanceWindow(asOf, from);
    rows := [];
    var k := 0;
    while k < |accounts|
      invariant 0 <= k <= |accounts|
      invariant rows == BalanceRows(chart, ledger, w, accounts[..k])
    {
      var a := accounts[k];
      var debitSum := DebitSum(ledger, w, a);
      var creditSum := CreditSum(ledger, w, a);
      var balance;
      if chart[a].accountType.code == "AS" || chart[a].accountType.code == "EX" {
        balance := debitSum - creditSum;
      } else {
        balance := creditSum - debitSum;
      }
      rows := rows + [BalanceRow(a, chart[a].code, chart[a].name, balance)];
      k := k + 1;
    }
    assert accounts[..k] == accounts;
    forall j | 0 <= j < |rows|
      ensures rows[j].balance == Signed(chart[accounts[j]].accountType.code, Sum(AccountLines(ledger, w, accounts[j]), Net))
    {
      RawBalanceIsNet(ledger, w, accounts[j]);
    }
  }

  /** An account's raw balance is the sum of its counted lines' net effects. */
  lemma RawBalanceIsNet(ledger: Ledger, w: Window, a: nat)
    ensures RawBalance(ledger, w, a) == Sum(AccountLines(ledger, w, a), Net)
  {
    SumDifference(AccountLines(ledger, w, a), LineDebit, LineCredit, Net);
  }

  /** A reported balance is the raw balance read from the account's normal side. */
  lemma BalanceIsSigned(chart: Chart, ledger: Ledger, w: Window, a: nat)
    requires a < |chart|
    ensures Balance(chart, ledger, w, a) == Signed(chart[a].accountType.code, Sum(AccountLines(ledger, w, a), Net))
  {
    RawBalanceIsNet(ledger, w, a);
  }

  // ---------------------------------------------------------------------
  // Whole entries net to zero
  // ---------------------------------------------------------------------

  function CountedAmong(ledger: Ledger, w: Window, ids: set<nat>): Line -> bool
  {
    (l: Line) => EntryCounted(ledger, w, l.entry) && l.entry in ids
  }

  function CountedOf(ledger: Ledger, w: Window, id: nat): Line -> bool
  {
    (l: Line) => EntryCounted(ledger, w, l.entry) && l.entry == id
  }

  /** One balanced entry contributes nothing to the net of a window: either
      all its lines count or none does. */
  lemma EntryNetZero(ledger: Ledger, w: Window, id: nat)
    requires LedgerBalanced(ledger)
    ensures Sum(Filter(ledger.lines, CountedOf(ledger, w, id)), Net) == 0
  {
    if EntryCounted(ledger, w, id) {
      FilterSame(ledger.lines, CountedOf(ledger, w, id), (l: Line) => l.entry == id);
      assert Filter(ledger.lines, CountedOf(ledger, w, id)) == EntryLines(ledger.lines, id);
      SumDifference(EntryLines(ledger.lines, id), (l: Line) => l.debit, (l: Line) => l.credit, Net);
    } else {
      FilterNone(ledger.lines, CountedOf(ledger, w, id));
    }
  }

  lemma {:induction false} CountedAmongNetZero(ledger: Ledger, w: Window, ids: set<nat>)
    requires LedgerBalanced(ledger)
    ensures Sum(Filter(ledger.lines, CountedAmong(ledger, w, ids)), Net) == 0
    decreases ids
  {
    if ids == {} {
      FilterNone(ledger.lines, CountedAmong(ledger, w, ids));
    } else {
      var id :| id in ids;
      var rest := ids - {id};
      CountedAmongNetZero(ledger, w, rest);
      EntryNetZero(ledger, w, id);
      SumSplit(ledger.lines, CountedAmong(ledger, w, ids), CountedAmong(ledger, w, rest), CountedOf(ledger, w, id), Net);
    }
  }

  /** When every entry balances, the posted lines of any date window net to
      zero: a window takes or leaves entries whole. */
  lemma CountedLinesNetZero(ledger: Ledger, w: Window)
    requires LedgerBalanced(ledger)
    ensures Sum(CountedLines(ledger, w), Net) == 0
  {
    CountedAmongNetZero(ledger, w, ledger.entries.Keys);
    FilterSame(ledger.lines, CountedAmong(ledger, w, ledger.entries.Keys), IsCounted(ledger, w));
  }

  // ---------------------------------------------------------------------
  // Sums over sets of accounts
  // ---------------------------------------------------------------------

  function AccountNet(ledger: Ledger, w: Window): nat -> int
  {
    (a: nat) => Sum(AccountLines(ledger, w, a), Net)
  }

  function OnAccounts(accounts: seq<nat>): Line -> bool
  {
    (l: Line) => l.account in accounts
  }

  predicate Distinct(accounts: seq<nat>)
  {
    forall i, j :: 0 <= i < j < |accounts| ==> accounts[i] != accounts[j]
  }

  /** Summing the accounts' nets over distinct accounts is summing the net of
      every counted line posted to any of them. */
  lemma {:induction false} SumOverAccounts(ledger: Ledger, w: Window, accounts: seq<nat>)
    requires Distinct(accounts)
    ensures Sum(accounts, AccountNet(ledger, w)) == Sum(Filter(CountedLines(ledger, w), OnAccounts(accounts)), Net)
  {
    var c := CountedLines(ledger, w);
    if accounts == [] {
      FilterNone(c, OnAccounts(accounts));
    } else {
      SumOverAccounts(ledger, w, accounts[1..]);
      SumSplit(c, OnAccounts(accounts), OnAccount(accounts[0]), OnAccounts(accounts[1..]), Net);
    }
  }

  /** The lines on accounts of the given type codes. */
  function OfTypes(chart: Chart, codes: set<string>): Line -> bool
  {
    (l: Line) => l.account < |chart| && chart[l.account].accountType.code in codes
  }

  /** The accounts whose type code is `code`, in chart order. */
  function TypeIds(chart: Chart, code: string): (r: seq<nat>)
    ensures forall a: nat :: a in r <==> a < |chart| && chart[a].accountType.code == code
    ensures Distinct(r) && OnChart(chart, r)
  {
    IndicesWhere(chart, (x: Account) => x.accountType.code == code, |chart|)
  }

  lemma {:induction false} RowsTotal(chart: Chart, ledger: Ledger, w: Window, accounts: seq<nat>, code: string)
    requires OnChart(chart, accounts)
    requires forall k :: 0 <= k < |accounts| ==> chart[accounts[k]].accountType.code == code
    ensures Sum(BalanceRows(chart, ledger, w, accounts), RowBalance) == Signed(code, Sum(accounts, AccountNet(ledger, w)))
  {
    if accounts != [] {
      RowsTotal(chart, ledger, w, accounts[1..], code);
      assert BalanceRows(chart, ledger, w, accounts)[1..] == BalanceRows(chart, ledger, w, accounts[1..]);
      RawBalanceIsNet(ledger, w, accounts[0]);
    }
  }

  /** The total of a type's balance rows is the net of every counted line on
      an account of that type, read from the type's normal side. */
  lemma TypeTotal(chart: Chart, ledger: Ledger, w: Window, code: string)
    ensures Sum(BalanceRows(chart, ledger, w, TypeIds(chart, code)), RowBalance)
         == Signed(code, Sum(Filter(CountedLines(ledger, w), OfTypes(chart, {code})), Net))
  {
    var ids := TypeIds(chart, code);
    RowsTotal(chart, ledger, w, ids, code);
    SumOverAccounts(ledger, w, ids);
    FilterSame(CountedLines(ledger, w), OnAccounts(ids), OfTypes(chart, {code}));
  }

  /** Splitting a window into two disjoint windows splits every sum of counted lines. */
  lemma WindowSplit(ledger: Ledger, w: Window, w1: Window, w2: Window, q: Line -> bool)
    requires forall d :: InWindow(w, d) <==> InWindow(w1, d) || InWindow(w2, d)
    requires forall d :: !(InWindow(w1, d) && InWindow(w2, d))
    ensures Sum(Filter(CountedLines(ledger, w), q), Net)
         == Sum(Filter(CountedLines(ledger, w1), q), Net) + Sum(Filter(CountedLines(ledger, w2), q), Net)
  {
    var both := (l: Line) => EntryCounted(ledger, w, l.entry) && q(l);
    var both1 := (l: Line) => EntryCounted(ledger, w1, l.entry) && q(l);
    var both2 := (l: Line) => EntryCounted(ledger, w2, l.entry) && q(l);
    FilterFilter(ledger.lines, IsCounted(ledger, w), q, both);
    FilterFilter(ledger.lines, IsCounted(ledger, w1), q, both1);
    FilterFilter(ledger.lines, IsCounted(ledger, w2), q, both2);
    SumSplit(ledger.lines, both, both1, both2, Net);
  }
}

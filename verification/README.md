# A verified model of the AMRS general-ledger engine

This project models the core of the AMRS double-entry accounting back end in
Dafny. It covers:

- the chart of accounts and its parent hierarchy;
- journal entries with their debit and credit lines, and the rule that an
  entry is only accepted when it balances;
- the report engine that turns posted lines into a trial balance, balance
  sheet, income statement, general ledger and cash-flow statement;
- the life cycle of a saved report: generation, failure and regeneration;
- who may see which saved reports and templates.

Amounts are whole cents (`int`), since the source stores them as decimals
with two places. Dates are integers whose order is the calendar order
(yyyymmdd, so 1900-01-01 is `19000101`).

## Modules

- `common.dfy` (module `Common`) holds `Option` and `Result`, plus finite
  `Sum` and `Filter` over sequences and the algebra the proofs use: sums over
  appended sequences, filters of filters, and a sum split by two disjoint
  predicates.
- `coa.dfy` (module `Coa`) holds the chart of accounts as an arena. An
  account's id is its index and its parent is an optional index.
  - `full_name` and `level` walk the parent chain with fuel equal to the
    size of the chart. A pigeonhole lemma shows that any chain reaching a
    root fits in that bound.
  - `ValidateParent` is the serializer's loop over the candidate parent's
    ancestors. It is proved to reject exactly self-parenting and cycles.
  - The re-parenting lemmas show that the check is what keeps the hierarchy
    acyclic.
- `journal.dfy` (module `Journal`) holds entries, lines, the entry
  serializer's `validate`, and the class `JournalStore`.
  - `JournalStore` holds the entry and line tables, updated in place by
    `Create`, `Update` and `Delete`.
  - Its invariant is that every stored entry has lines and balances, entry
    numbers are unique, and every line belongs to an existing entry.
- `balances.dfy` (module `Balances`) holds date windows, which lines a
  report counts (posted entries dated inside the window), and
  `calculate_account_balances` with the normal-side sign convention.
  - It also proves the fact every statement rests on: in a ledger of
    balanced entries, the counted lines of any window net to zero.
- `statements.dfy` (module `Statements`) holds the trial balance, balance
  sheet, income statement and cash flow, each as a specification function.
  The generator loops become methods proved equal to those functions.
- `general_ledger.dfy` (module `GeneralLedger`) holds the general ledger:
  - the period's lines sorted by (entry date, entry id);
  - the running-balance loop;
  - the map from account code to account ledger;
  - a reconciliation of the ending balance with the raw balance.
- `reports.dfy` (module `Reports`) holds report types and statuses, the
  generation task's dispatch and status changes, the regenerate action, and
  the visibility and permission rules. The class `ReportStore` holds the
  templates, the saved reports and the queue of dispatched report ids.

## Model

| member | source | states |
|---|---|---|
| Coa.Label | coa/models.py:12-13 | the shared string form of types and accounts: the code, " - ", the name |
| Coa.TypeLabel | coa/models.py:12-13 | an account type prints as its code, " - ", its name |
| Coa.AccountLabel | coa/models.py:37-38 | an account prints as its code, " - ", its name |
| Coa.FullName | coa/models.py:40-45 | an account's full name ends with its own name |
| Coa.HierarchyRecurrence | coa/models.py:40-52 | a root's full name is its name and its level is 1; a child's full name is the parent's full name + " > " + its name, and its level is the parent's level + 1 |
| Coa.Level | coa/models.py:47-52 | level is the length of the ancestor chain, so 1 <= level <= number of accounts |
| Coa.Reparent | coa/models.py:24 | assigning a parent changes that account's parent link and nothing else: the account keeps its code, name, type and active flag, and every other account is unchanged |
| Coa.ValidateParent | coa/serializers.py:25-40 | accepted data comes back unchanged; self-parenting of an existing account is rejected exactly when the parent is the account itself; a circular hierarchy is rejected exactly when the account is on the candidate parent's ancestor chain; creation and an absent parent are never rejected |
| Coa.ReparentKeepsAcyclicIff | coa/serializers.py:29-38 | in an acyclic chart, giving x the parent p keeps it acyclic if and only if x is not on p's ancestor chain, i.e. exactly when the check accepts |
| Coa.ClearParentKeepsAcyclic | coa/serializers.py:27 | removing a parent never creates a cycle |
| Coa.Children | coa/serializers.py:52-55 | the children are exactly the accounts whose parent is the given account, in id order |
| Journal.Validate | journal/serializers.py:34-48 | accepted iff there is at least one line and total debits equal total credits exactly; absent or empty lines give the empty-entry error; accepted data is returned unchanged |
| Journal.ZeroLinesKeepValidation | journal/serializers.py:41-46 | appending lines submitted with explicit zero amounts (debit 0, credit 0) never changes whether an entry validates |
| Journal.TotalDebit | journal/serializers.py:28-29 | an entry's total debit is the sum, over all stored lines, of each line's debit when it belongs to the entry and 0 otherwise: lines of other entries never count |
| Journal.TotalCredit | journal/serializers.py:31-32 | an entry's total credit is the sum, over all stored lines, of each line's credit when it belongs to the entry and 0 otherwise: lines of other entries never count |
| Journal.PatchEntry | journal/serializers.py:65-71 | every header field the update supplies replaces the stored one, every field it leaves out keeps its value, and the creator never changes |
| Journal.HeaderOnlyDataRejected | journal/serializers.py:38-40 | data without a lines key is always rejected as empty |
| Journal.NewLines | journal/serializers.py:60-61 | one stored line per input line, in input order, each linked to the entry with consecutive ids and the input's account, amounts and reference |
| Journal.NewLinesTotals | journal/serializers.py:28-32 | the created lines' debit and credit totals are those of the inputs |
| Journal.CreateKeepsInvariant | journal/serializers.py:50-63 | creating a validated entry under a fresh number keeps every entry balanced, numbers unique and lines linked, and the new entry's totals are the inputs' totals |
| Journal.PatchKeepsNumbersUnique | journal/models.py:8 | patching a header under a number no other entry uses keeps entry numbers unique |
| Journal.UpdateHeaderKeepsInvariant | journal/serializers.py:66-73 | a header-only update keeps the store invariant |
| Journal.ReplacedLines | journal/serializers.py:73-79 | after replacing an entry's lines, its lines are exactly the new ones with the inputs' totals, and every other entry's lines are unchanged |
| Journal.ReplaceLinesKeepsInvariant | journal/serializers.py:65-79 | replacing an entry's lines by validated ones keeps the store invariant |
| Journal.OtherLinesKeepEntries | journal/models.py:18 | deleting one entry's lines leaves every other entry's lines as they were |
| Journal.DeleteKeepsInvariant | journal/models.py:18 | deleting an entry with its lines keeps the store invariant |
| Journal.CascadeAccountDelete | journal/models.py:19 | as written, deleting an account leaves exactly the lines not posted to it |
| Journal.AccountCascadeCounterexample | journal/models.py:19 | as written, a store that satisfies the invariant, holding one balanced entry, is left with an entry of debit 100 and credit 0 once its credit account is deleted |
| Journal.ProtectedAccountDelete | journal/models.py:19 | corrected: an account delete is refused exactly when some line is posted to the account |
| Journal.ProtectedDeleteKeepsInvariant | journal/models.py:19 | corrected: an account delete that goes through keeps the store invariant, every entry's totals, and a balanced ledger |
| Journal.JournalStore.Snapshot | journal/serializers.py:28-48 | the tables as a ledger; a valid store is a ledger in which every entry's debits equal its credits |
| Journal.JournalStore.InsertLines | journal/serializers.py:60-61 | the loop appends exactly the entry's new lines and advances the line ids |
| Journal.JournalStore.Create | journal/serializers.py:50-63 | a taken number writes nothing; otherwise one new entry stamped with the user plus exactly its input lines, totals equal to the inputs', and the invariant kept |
| Journal.JournalStore.Update | journal/serializers.py:65-81 | succeeds exactly when the entry exists and no other entry has the supplied number; the header fields supplied are replaced; with lines, the entry's lines become exactly the supplied ones and other entries' lines are untouched; without lines, the lines stay; a missing entry or a taken number changes nothing |
| Journal.JournalStore.Delete | journal/models.py:18 | deleting an entry deletes exactly its lines (cascade) and keeps the invariant |
| Balances.BalanceWindow | reports/report_generators.py:325-329 | a date is admitted iff it is on or before as_of_date when given and on or after from_date when given |
| Balances.CountedLines | reports/report_generators.py:323 | the counted lines are exactly the lines of existing posted entries dated in the window |
| Balances.AccountLines | reports/report_generators.py:323-332 | an account's lines are exactly its lines among the counted ones |
| Balances.CalculateAccountBalances | reports/report_generators.py:316-348 | one row per account, in order, with id, code, name and the net of its counted lines read from its normal side: debits minus credits for AS and EX, credits minus debits otherwise |
| Balances.RawBalanceIsNet | reports/report_generators.py:331-332 | debit sum minus credit sum is the sum of the lines' debit-minus-credit |
| Balances.BalanceIsSigned | reports/report_generators.py:334-339 | the reported balance is the raw net for AS/EX and its negation for every other type |
| Balances.CountedLinesNetZero | journal/serializers.py:42-46 | when every entry balances, the counted lines of any window net to zero, because a window takes or leaves whole entries |
| Balances.SumOverAccounts | reports/report_generators.py:320-346 | summing per-account nets over distinct accounts equals the net of every counted line on any of them |
| Balances.TypeTotal | reports/report_generators.py:58-70 | a type's bucket total is the net of all counted lines on accounts of that type, read from the type's normal side |
| Balances.WindowSplit | reports/report_generators.py:323-329 | splitting a window into two disjoint windows splits every sum of counted lines |
| Statements.Columns | reports/report_generators.py:152-153 | both columns are non-negative, at most one is non-zero, and debit minus credit is the balance |
| Statements.ActiveIds | reports/report_generators.py:122 | the trial balance lists exactly the active accounts, each once |
| Statements.TrialBalanceOf | reports/report_generators.py:115-165 | as written: one row per active account in chart order, with its code, name and type name; with t the account's posted debits minus credits up to as_of_date, negated for LI, EQ and RE, the row's debit is max(t, 0) and its credit max(-t, 0); totals are the column sums; balanced iff they agree |
| Statements.TrialBalanceWith | reports/report_generators.py:125-165 | one row per active account; the totals are the column sums; balanced iff they agree exactly |
| Statements.GenerateTrialBalance | reports/report_generators.py:115-165 | the accumulation loop yields exactly the specified trial balance, with or without the sign flip |
| Statements.ComputeTrialRow | reports/report_generators.py:130-153 | one row holds the account's code, name and type name and the columns of its debit-minus-credit balance up to as_of_date, negated for LI, EQ and RE when the flip is on |
| Statements.TrialBalanceFlipCounterexample | reports/report_generators.py:144-146 | as written, a balanced one-sale ledger has its revenue credit in the debit column: debits 200, credits 0, not balanced |
| Statements.CorrectedTrialBalanceBalances | reports/report_generators.py:142-164 | with raw balances split into columns, the trial balance balances for every ledger of balanced entries whose posted lines are on active accounts |
| Statements.CorrectedTrialBalanceExample | reports/report_generators.py:142-157 | the corrected trial balance of the one-sale ledger puts the revenue in the credit column and balances |
| Statements.IncomeStatementOf | reports/report_generators.py:84-112 | totals are the sums of the revenue and expense rows; net income is revenue minus expenses |
| Statements.NetIncomeFromLines | reports/report_generators.py:96-102 | net income is minus the net of the period's revenue and expense lines |
| Statements.NetIncomeAdditive | reports/report_generators.py:96-102 | the net income of a period is the sum of the net incomes of the two sub-periods on either side of any split day |
| Statements.BalanceSheetOf | reports/report_generators.py:51-81 | each total is the sum of its bucket's balances; balanced iff assets equal liabilities plus equity exactly |
| Statements.BalanceSheetGap | reports/report_generators.py:68-80 | in a ledger of balanced entries, assets minus liabilities and equity is the net income to date |
| Statements.BalanceSheetBalancedIff | reports/report_generators.py:80 | in a ledger of balanced entries, the balance sheet balances iff net income to date is zero |
| Statements.OpeningWindow | reports/report_generators.py:271 | an opening window admits dates strictly before from_date, or before 1900-01-01 when it is absent |
| Statements.CashIds | reports/report_generators.py:252 | the cash accounts are exactly those whose code starts with "101", active or not |
| Statements.CashFlowOf | reports/report_generators.py:241-297 | the three activity sections are empty, and ending cash is beginning cash plus the three totals |
| Statements.GenerateCashFlow | reports/report_generators.py:241-297 | the generator yields exactly the specified cash-flow statement |
| Statements.AccumulateNets | reports/report_generators.py:266-284 | the loop's total is the sum, over the given accounts, of each one's debit sum minus credit sum in the window |
| Statements.BeginningCashFromLines | reports/report_generators.py:266-284 | beginning cash is the raw net of every posted cash-account line before the period, and ending cash equals it |
| GeneralLedger.SortLines | reports/report_generators.py:208 | the ordering keeps every line and adds none |
| GeneralLedger.SortLinesSorted | reports/report_generators.py:208 | the lines come out in (entry date, entry id) order and are a permutation of the period's lines |
| GeneralLedger.SortKeepsNet | reports/report_generators.py:208-214 | ordering the lines does not change their net |
| GeneralLedger.TransactionsRun | reports/report_generators.py:211-223 | each transaction's balance is the previous balance (the opening balance for the first) plus its debit minus its credit |
| GeneralLedger.PostTransactions | reports/report_generators.py:210-231 | the loop yields one transaction per line with the running balance; the ending balance is the last running balance, or the opening balance when there are no lines |
| GeneralLedger.AccountLedgerOf | reports/report_generators.py:192-232 | an account's ledger carries its code, name and type name; the opening balance is the unflipped debits minus credits of the posted lines before from_date (before 1900-01-01 when absent); the transactions run from it over the ordered period lines, and the ending balance is the opening balance plus their net |
| GeneralLedger.ReportedAccounts | reports/report_generators.py:184-188 | with an account id, only that account (none if it does not exist, active or not); otherwise every active account |
| GeneralLedger.LedgerMapContents | reports/report_generators.py:190-232 | the map's keys are exactly the reported accounts' codes; with unique codes each code holds its own account's ledger |
| GeneralLedger.GeneralLedgerOf | reports/report_generators.py:168-238 | the report carries the period; it is keyed by exactly the reported accounts' codes, and with unique codes each code maps to that account's ledger |
| GeneralLedger.LedgerMapLookup | reports/report_generators.py:190-232 | with unique codes, each reported account's ledger is found under its own code |
| GeneralLedger.PostAccount | reports/report_generators.py:190-232 | one account's computed ledger is exactly its specified ledger: unflipped opening balance, running transactions, ending balance |
| GeneralLedger.GenerateGeneralLedger | reports/report_generators.py:168-238 | the loop over accounts yields exactly the specified report |
| GeneralLedger.EndingReconciles | reports/report_generators.py:193-231 | with a from date satisfying from <= to + 1 on the integer dates, an account's ending balance equals its raw balance of all posted lines up to to_date |
| GeneralLedger.EndingWithoutFrom | reports/report_generators.py:195-214 | without a from date, the ending balance is the raw balance up to to_date plus the raw balance before 1900-01-01 |
| Reports.ParseKind | reports/models.py:9-16 | a stored report-type value reads back as the type that stores it |
| Reports.KindCodeRoundTrip | reports/models.py:9-16 | each of the six report types reads back from its stored value, so the values are distinct |
| Reports.Route | reports/report_generators.py:24-35 | the five named types route to their own generators; any other value routes to the custom generator |
| Reports.StatusCode | reports/models.py:35-39 | a status is stored as one of generating, completed, failed |
| Reports.CustomReportOf | reports/report_generators.py:300-313 | the custom generator echoes configuration and parameters with type "custom" and the fixed message |
| Reports.Generate | reports/report_generators.py:20-35 | the result is exactly the routed generator's result, each generator as written (the trial balance with the LI, EQ and RE flip), never empty; absent dates default to today and from_date and account_id pass through |
| Reports.NewTemplate | reports/serializers.py:11-20 | a new template takes the request's name, type, description and configuration (an empty description and an empty configuration object when left out, the model defaults), is never a system template, and is owned by the requesting user |
| Reports.NewSavedReport | reports/models.py:43-47 | a new saved report is generating, with empty result and error, owned by its creator |
| Reports.AfterGeneration | reports/report_generators.py:37-47 | success: completed with the result; failure: failed with the message and the earlier result kept; template, parameters and owner unchanged |
| Reports.ResetForRegeneration | reports/views.py:74-78 | regenerate resets to generating with an empty result and an empty error, nothing else changed |
| Reports.RegenerateThenComplete | reports/views.py:74-83 | regenerating and then completing leaves no stale error message |
| Reports.RegenerateThenFail | reports/views.py:74-91 | regenerating and then failing leaves no stale result and exactly the new message |
| Reports.VisibleReports | reports/views.py:57-67 | admins and accountants see every saved report; anyone else, with any other role or none, sees exactly their own |
| Reports.VisibleTemplates | reports/views.py:24-31 | a user sees exactly the system templates and their own |
| Reports.TemplatePermissions | reports/views.py:33-43 | list and retrieve need authentication only; every other action needs the accountant or admin role; whoever may change may read |
| Reports.ReportStore.GenerateReport | reports/report_generators.py:10-48 | a missing report changes nothing; a generator failure marks the report failed with the message and re-raises; otherwise it is completed with the routed generator's result |
| Reports.ReportStore.Regenerate | reports/views.py:69-91 | an unauthenticated request is refused and changes nothing; a report the user cannot see is not found; otherwise it is reset, then either queued with "Report generation started" (still generating) or marked failed with the dispatch message and a 500 reply |

## Left out

- Database queries, Celery dispatch and the REST plumbing are not modelled as such. Queries become filters over the in-memory ledger. Dispatch is an input that may fail: `dispatchFault` in `Regenerate`, and `fault` for an exception raised by a generator in `GenerateReport`.
- The current date used when a date parameter is absent is passed in as `today`.
- `Reports.Params`: only the four keys the generators read are kept (as_of_date, from_date, to_date, account_id). The custom generator echoes the whole parameter mapping, so any other keys it would echo are not modelled.
- `Reports.ReportStore.Regenerate`: an unauthenticated request is refused with 401. The source's status is 401 or 403 depending on the configured authentication classes, which are not part of this model.
- The store invariant of `Journal.JournalStore` is proved over the entry operations (create, update, delete). Account deletion is modelled only on the line table, by `Journal.CascadeAccountDelete` and `Journal.ProtectedAccountDelete` (see Findings). The chart itself never loses an account in this model. Deleting an account that has children is refused in the source by the parent link's protection.
- Parameters are modelled as present or absent. A key present with a JSON null, or with an empty string, is not modelled. Such a value reaches the generators as a falsy value in the source.
- Account and entry ids are arena indices and map keys starting at 0. The source's `if account_id:` test treats id 0 as absent, and database ids start at 1, so absence is modelled with `None`.
- Accounts are taken in chart order, which stands for the table's ordering by code.
- Lines of one entry that share a date keep their table order in the general ledger. The database leaves their order unspecified.
- The floating tolerance `< 0.001` becomes exact equality, which is the same thing for whole cents.
- `Coa.ValidateParent`: when an existing account is given a different parent, requires that parent's chain to reach a root. The source's loop also stops, with the circular-hierarchy error, when its walk reaches the account itself, even on a chart that already holds a cycle through the account. The model excludes that input, which an acyclic chart never holds (`Coa.ReparentKeepsAcyclicIff`). The source's loop fails to terminate only when the walk enters a cycle that does not contain the account. Creation and self-parenting return before the loop and carry no such requirement.
- `Journal.Validate`: a submitted line without a debit or a credit key makes the serializer's sums at journal/serializers.py:42-43 raise a KeyError rather than a validation error, as the serializer gives those fields no default (the 0 default applies only when a line row is created). `Journal.LineInput` always carries both amounts, so that failure is not modelled.
- `Journal.JournalStore.Create` and `Journal.JournalStore.Update`: require data that `Journal.Validate` accepts, as the serializer runs `validate` first. The header-only update path is modelled too, although `Journal.HeaderOnlyDataRejected` shows that validation never lets it through.
- `Journal.JournalStore.Update`: a missing entry and a taken entry number are modelled as errors that change nothing. In the source they are a 404 and a 400 validation error: `entry_number` is unique (journal/models.py:8), so the serializer's unique validator, which leaves out the entry being updated, rejects a taken number before `validate` runs.
- `Reports.ReportStore.GenerateReport`: the JSON encoding of the result is not modelled. The generators' amounts are decimals in the source, and `result_data` is a JSON field with the default encoder (reports/models.py:44), which refuses decimals. Read that way, the save at reports/report_generators.py:40 raises, the save in the exception handler at line 47 raises again because the result is still set, and the report stays generating. The model holds amounts as whole cents and gives the completed and failed transitions the handler evidently intends.
- The unbound `report` variable when the lookup in `generate_report` fails is modelled as `Reports.ReportStore.GenerateReport` returning an error and changing nothing.
- The missing `models` import in the template view is not modelled; the intended visibility predicate is.
- The contents of the custom report are only those the placeholder returns. Template configuration is opaque JSON text.
- The cash-flow activity categorisation is not modelled: the source hard-codes all three category totals to zero.
- Concurrency between postings and report reads, authentication tokens, invoices, audit logging, admin and URL configuration are not part of this model.

## Findings

The trial balance's own `balanced` flag (reports/report_generators.py:164) compares the two column totals, so it is meant to hold for any ledger of balanced entries. The sign flip at lines 144-146 defeats it: when every account carries its normal balance, the flip turns each credit-normal balance into a debit, so the credit column stays empty and `balanced` is false as soon as any balance is non-zero. `Reports.Generate` dispatches to the generator as written (`Statements.TrialBalanceOf`). The corrected split, `Statements.CorrectedTrialBalanceOf`, exists as the corrected half of this finding.

The balance sheet, trial balance and income statement proofs assume every stored entry balances. Entry operations keep that, but the cascade on a line's account link (journal/models.py:19) breaks it as soon as an account holding lines is deleted. The model records that as written and proves that refusing such a delete keeps every entry balanced.

| source | as written | input that shows it | evidently intended | confidence | as-written member | corrected member |
|---|---|---|---|---|---|---|
| journal/models.py:19 | a line's account link cascades, so deleting an account (any authenticated user may, coa/views.py:23-29) deletes every line posted to it, whichever entry holds them | one posted entry JE-1: account 0 debit 100, account 1 credit 100; deleting account 1 leaves JE-1 with debit 100 and credit 0 | refuse to delete an account while any line refers to it, so every stored entry stays balanced | not executed | Journal.AccountCascadeCounterexample | Journal.ProtectedDeleteKeepsInvariant |
| reports/report_generators.py:144-146 | LI, EQ and RE balances are negated before being split into the debit and credit columns, so a normal credit balance lands in the debit column | one posted entry: Cash (AS) debit 100, Sales (RE) credit 100, trial balance as of 2024-12-31 gives debits 200, credits 0, balanced false | split the raw debit-minus-credit balance, so credit balances go to the credit column and totals agree (`Statements.CorrectedTrialBalanceOf`) | not executed | Statements.TrialBalanceFlipCounterexample | Statements.CorrectedTrialBalanceBalances |

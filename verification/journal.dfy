/** Journal entries and their lines, the entry serializer's balance check,
    and the entry store that creates, replaces and deletes lines
    (journal/models.py, journal/serializers.py). */
module Journal {
  import opened Common

  /** A journal entry's header. Only entries whose status is "posted" are
      counted by the reports; the status is otherwise a free string. */
  datatype Entry = Entry(
    entryNumber: string,
    date: Date,
    description: string,
    status: string,
    createdBy: nat)

  /** A stored line: amounts in cents, linked to exactly one entry by id. */
  datatype Line = Line(
    id: nat,
    entry: nat,
    account: nat,
    debit: int,
    credit: int,
    reference: Option<string>)

  /** A line as submitted with an entry (before it has an id or an entry). */
  datatype LineInput = LineInput(account: nat, debit: int, credit: int, reference: Option<string>)

  /** A line submitted with explicit zero amounts: debit 0 and credit 0. */
  function ZeroLineInput(account: nat, reference: Option<string>): LineInput
  {
    LineInput(account, 0, 0, reference)
  }

  /** Submitted entry data; None marks a field the request leaves out. */
  datatype EntryData = EntryData(
    entryNumber: Option<string>,
    date: Option<Date>,
    description: Option<string>,
    status: Option<string>,
    lines: Option<seq<LineInput>>)

  datatype EntryError = EmptyEntry | UnbalancedEntry | DuplicateEntryNumber | NoSuchEntry

  function InputDebits(ls: seq<LineInput>): int { Sum(ls, (l: LineInput) => l.debit) }
  function InputCredits(ls: seq<LineInput>): int { Sum(ls, (l: LineInput) => l.credit) }

  /** The entry serializer's validate: at least one line, and total debits
      exactly equal to total credits; accepted data comes back unchanged.
      Absent lines count as no lines. */
  function Validate(data: EntryData): (r: Result<EntryData, EntryError>)
    ensures r.Ok? ==> r.value == data
    ensures r.Ok? <==> data.lines.Some? && data.lines.value != []
                       && InputDebits(data.lines.value) == InputCredits(data.lines.value)
    ensures r == Err(EmptyEntry) <==> data.lines.None? || data.lines.value == []
    ensures r.Err? ==> r.error == EmptyEntry || r.error == UnbalancedEntry
  {
    var lines := data.lines.GetOr([]);
    if lines == [] then Err(EmptyEntry)
    else if InputDebits(lines) != InputCredits(lines) then Err(UnbalancedEntry)
    else Ok(data)
  }

  /** Appending lines with explicit zero amounts never changes whether an
      entry validates. */
  lemma {:induction false} ZeroLinesKeepValidation(data: EntryData, extra: seq<nat>)
    requires data.lines.Some? && data.lines.value != []
    ensures var padded := data.(lines := Some(data.lines.value + seq(|extra|, k requires 0 <= k < |extra| => ZeroLineInput(extra[k], None))));
      Validate(padded).Ok? <==> Validate(data).Ok?
  {
    var ls := data.lines.value;
    var pad := seq(|extra|, k requires 0 <= k < |extra| => ZeroLineInput(extra[k], None));
    SumAppend(ls, pad, (l: LineInput) => l.debit);
    SumAppend(ls, pad, (l: LineInput) => l.credit);
    ZerosSumToZero(pad);
  }

  lemma {:induction false} ZerosSumToZero(pad: seq<LineInput>)
    requires forall k :: 0 <= k < |pad| ==> pad[k].debit == 0 && pad[k].credit == 0
    ensures InputDebits(pad) == 0 && InputCredits(pad) == 0
  {
    if pad != [] {
      ZerosSumToZero(pad[1..]);
    }
  }

  /** Entry with data of a header-only update (no lines key) is always
      rejected by Validate, so the update path that keeps the lines can only
      be reached by callers that bypass the serializer's validation. */
  lemma HeaderOnlyDataRejected(data: EntryData)
    requires data.lines.None?
    ensures Validate(data) == Err(EmptyEntry)
  {
  }

  // ---------------------------------------------------------------------
  // Lines of an entry and their totals
  // ---------------------------------------------------------------------

  function EntryLines(lines: seq<Line>, id: nat): seq<Line>
  {
    Filter(lines, (l: Line) => l.entry == id)
  }

  function OtherLines(lines: seq<Line>, id: nat): seq<Line>
  {
    Filter(lines, (l: Line) => l.entry != id)
  }

  /** A line's debit when it belongs to entry id, 0 otherwise. */
  function DebitIn(id: nat): Line -> int { (l: Line) => if l.entry == id then l.debit else 0 }

  /** A line's credit when it belongs to entry id, 0 otherwise. */
  function CreditIn(id: nat): Line -> int { (l: Line) => if l.entry == id then l.credit else 0 }

  /** The serializer's total_debit: the sum of the entry's line debits, so
      every stored line contributes its debit to its own entry and nothing
      to any other. */
  function TotalDebit(lines: seq<Line>, id: nat): (r: int)
    ensures r == Sum(lines, DebitIn(id))
  {
    SumFilter(lines, (l: Line) => l.entry == id, (l: Line) => l.debit, DebitIn(id));
    Sum(EntryLines(lines, id), (l: Line) => l.debit)
  }

  /** The serializer's total_credit: the sum of the entry's line credits, so
      every stored line contributes its credit to its own entry and nothing
      to any other. */
  function TotalCredit(lines: seq<Line>, id: nat): (r: int)
    ensures r == Sum(lines, CreditIn(id))
  {
    SumFilter(lines, (l: Line) => l.entry == id, (l: Line) => l.credit, CreditIn(id));
    Sum(EntryLines(lines, id), (l: Line) => l.credit)
  }

  /** An entry passes the serializer's check as stored: it has lines and they balance. */
  predicate Accepted(lines: seq<Line>, id: nat)
  {
    EntryLines(lines, id) != [] && TotalDebit(lines, id) == TotalCredit(lines, id)
  }

  /** The stored lines made from inputs, numbered from firstId, all linked to entry. */
  function NewLines(entry: nat, firstId: nat, inputs: seq<LineInput>): (r: seq<Line>)
    ensures |r| == |inputs|
    ensures forall k :: 0 <= k < |r| ==>
      r[k] == Line(firstId + k, entry, inputs[k].account, inputs[k].debit, inputs[k].credit, inputs[k].reference)
  {
    seq(|inputs|, k requires 0 <= k < |inputs| =>
      Line(firstId + k, entry, inputs[k].account, inputs[k].debit, inputs[k].credit, inputs[k].reference))
  }

  lemma {:induction false} NewLinesTotals(entry: nat, firstId: nat, inputs: seq<LineInput>)
    ensures Sum(NewLines(entry, firstId, inputs), (l: Line) => l.debit) == InputDebits(inputs)
    ensures Sum(NewLines(entry, firstId, inputs), (l: Line) => l.credit) == InputCredits(inputs)
    decreases |inputs|
  {
    if inputs != [] {
      NewLinesTotals(entry, firstId + 1, inputs[1..]);
      assert NewLines(entry, firstId, inputs)[1..] == NewLines(entry, firstId + 1, inputs[1..]);
    }
  }

  lemma NewLinesSnoc(entry: nat, firstId: nat, inputs: seq<LineInput>, k: nat)
    requires k < |inputs|
    ensures NewLines(entry, firstId, inputs[..k + 1])
         == NewLines(entry, firstId, inputs[..k])
            + [Line(firstId + k, entry, inputs[k].account, inputs[k].debit, inputs[k].credit, inputs[k].reference)]
  {
  }

  /** Adding lines of other entries leaves an entry's lines as they were. */
  lemma EntryLinesAppendOther(lines: seq<Line>, extra: seq<Line>, id: nat)
    requires forall l :: l in extra ==> l.entry != id
    ensures EntryLines(lines + extra, id) == EntryLines(lines, id)
  {
    FilterAppend(lines, extra, (l: Line) => l.entry == id);
    FilterNone(extra, (l: Line) => l.entry == id);
  }

  /** Lines added for an entry that had none are exactly its lines afterwards. */
  lemma EntryLinesAppendOwn(lines: seq<Line>, extra: seq<Line>, id: nat)
    requires forall l :: l in lines ==> l.entry != id
    requires forall l :: l in extra ==> l.entry == id
    ensures EntryLines(lines + extra, id) == extra
  {
    FilterAppend(lines, extra, (l: Line) => l.entry == id);
    FilterNone(lines, (l: Line) => l.entry == id);
    FilterAll(extra, (l: Line) => l.entry == id);
  }

  /** Removing one entry's lines leaves every other entry's lines unchanged. */
  lemma OtherLinesKeepEntries(lines: seq<Line>, id: nat, other: nat)
    requires other != id
    ensures EntryLines(OtherLines(lines, id), other) == EntryLines(lines, other)
  {
    FilterFilter(lines, (l: Line) => l.entry != id, (l: Line) => l.entry == other, (l: Line) => l.entry == other);
  }

  /** The ledger as the reports read it: entry headers by id, and all lines. */
  datatype Ledger = Ledger(entries: map<nat, Entry>, lines: seq<Line>)

  /** Every entry of the ledger balances: its debits equal its credits. */
  predicate LedgerBalanced(ledger: Ledger)
  {
    forall id :: id in ledger.entries ==> TotalDebit(ledger.lines, id) == TotalCredit(ledger.lines, id)
  }

  /** The header an entry gets when created: description defaults to empty. */
  function NewEntry(data: EntryData, user: nat): Entry
    requires data.entryNumber.Some? && data.date.Some? && data.status.Some?
  {
    Entry(data.entryNumber.value, data.date.value, data.description.GetOr(""), data.status.value, user)
  }

  /** The header after an update: every field the data supplies is
      replaced, every field it leaves out keeps its old value, and the
      creator never changes. */
  function PatchEntry(e: Entry, data: EntryData): (r: Entry)
    ensures r.entryNumber == (if data.entryNumber.Some? then data.entryNumber.value else e.entryNumber)
    ensures r.date == (if data.date.Some? then data.date.value else e.date)
    ensures r.description == (if data.description.Some? then data.description.value else e.description)
    ensures r.status == (if data.status.Some? then data.status.value else e.status)
    ensures r.createdBy == e.createdBy
  {
    Entry(data.entryNumber.GetOr(e.entryNumber), data.date.GetOr(e.date),
          data.description.GetOr(e.description), data.status.GetOr(e.status), e.createdBy)
  }

  /** Some entry other than except already uses entry number n. */
  predicate NumberTaken(entries: map<nat, Entry>, n: string, except: Option<nat>)
  {
    exists id :: id in entries && Some(id) != except && entries[id].entryNumber == n
  }

  predicate IdsBelow(entries: map<nat, Entry>, nextEntryId: nat)
  {
    forall id :: id in entries ==> id < nextEntryId
  }

  predicate LinesLinked(entries: map<nat, Entry>, lines: seq<Line>, nextLineId: nat)
  {
    forall l :: l in lines ==> l.entry in entries && l.id < nextLineId
  }

  predicate NumbersUnique(entries: map<nat, Entry>)
  {
    forall a, b :: a in entries && b in entries && a != b ==> entries[a].entryNumber != entries[b].entryNumber
  }

  predicate AllAccepted(entries: map<nat, Entry>, lines: seq<Line>)
  {
    forall id :: id in entries ==> Accepted(lines, id)
  }

  /** What the entry and line tables always satisfy: ids are below the next
      ones handed out, every line's entry exists, entry numbers are unique,
      and every stored entry has lines that balance. */
  predicate StoreInvariant(entries: map<nat, Entry>, lines: seq<Line>, nextEntryId: nat, nextLineId: nat)
  {
    && IdsBelow(entries, nextEntryId)
    && LinesLinked(entries, lines, nextLineId)
    && NumbersUnique(entries)
    && AllAccepted(entries, lines)
  }

  /** Creating a validated entry under a fresh number keeps the invariant, and
      the new entry's totals are those of the submitted lines. */
  lemma CreateKeepsInvariant(entries: map<nat, Entry>, lines: seq<Line>, ne: nat, nl: nat, data: EntryData, user: nat)
    requires StoreInvariant(entries, lines, ne, nl)
    requires data.entryNumber.Some? && data.date.Some? && data.status.Some?
    requires Validate(data).Ok?
    requires !NumberTaken(entries, data.entryNumber.value, None)
    ensures var added := NewLines(ne, nl, data.lines.value);
      && StoreInvariant(entries[ne := NewEntry(data, user)], lines + added, ne + 1, nl + |added|)
      && TotalDebit(lines + added, ne) == InputDebits(data.lines.value)
      && TotalCredit(lines + added, ne) == InputCredits(data.lines.value)
  {
    var added := NewLines(ne, nl, data.lines.value);
    var entries' := entries[ne := NewEntry(data, user)];
    assert forall l :: l in lines ==> l.entry != ne;
    EntryLinesAppendOwn(lines, added, ne);
    NewLinesTotals(ne, nl, data.lines.value);
    forall other | other in entries' && other != ne
      ensures Accepted(lines + added, other)
    {
      EntryLinesAppendOther(lines, added, other);
    }
    NewNumberKeepsUnique(entries, ne, NewEntry(data, user));
    AppendedLinesLinked(entries, lines, nl, ne, added, entries');
  }

  /** Adding an entry under a number no stored entry uses keeps numbers unique. */
  lemma NewNumberKeepsUnique(entries: map<nat, Entry>, ne: nat, e: Entry)
    requires NumbersUnique(entries) && !NumberTaken(entries, e.entryNumber, None)
    ensures NumbersUnique(entries[ne := e])
  {
    var entries' := entries[ne := e];
    forall a, b | a in entries' && b in entries' && a != b
      ensures entries'[a].entryNumber != entries'[b].entryNumber
    {
      if a == ne {
        assert !(b in entries && Some(b) != None && entries[b].entryNumber == e.entryNumber);
      } else if b == ne {
        assert !(a in entries && Some(a) != None && entries[a].entryNumber == e.entryNumber);
      }
    }
  }

  lemma AppendedLinesLinked(entries: map<nat, Entry>, lines: seq<Line>, nl: nat, id: nat, added: seq<Line>, entries': map<nat, Entry>)
    requires LinesLinked(entries, lines, nl)
    requires entries.Keys <= entries'.Keys && id in entries'
    requires forall k :: 0 <= k < |added| ==> added[k].entry == id && added[k].id == nl + k
    ensures LinesLinked(entries', lines + added, nl + |added|)
  {
    forall l | l in lines + added
      ensures l.entry in entries' && l.id < nl + |added|
    {
      if l !in lines {
        var k :| 0 <= k < |added| && added[k] == l;
      }
    }
  }

  /** Patching a header under a number no other entry uses keeps numbers unique. */
  lemma PatchKeepsNumbersUnique(entries: map<nat, Entry>, id: nat, data: EntryData)
    requires id in entries && NumbersUnique(entries)
    requires data.entryNumber.Some? ==> !NumberTaken(entries, data.entryNumber.value, Some(id))
    ensures NumbersUnique(entries[id := PatchEntry(entries[id], data)])
  {
    var entries' := entries[id := PatchEntry(entries[id], data)];
    forall a, b | a in entries' && b in entries' && a != b
      ensures entries'[a].entryNumber != entries'[b].entryNumber
    {
      if a == id && data.entryNumber.Some? {
        assert !(b in entries && Some(b) != Some(id) && entries[b].entryNumber == data.entryNumber.value);
      } else if b == id && data.entryNumber.Some? {
        assert !(a in entries && Some(a) != Some(id) && entries[a].entryNumber == data.entryNumber.value);
      }
    }
  }

  /** A header-only update keeps the invariant. */
  lemma UpdateHeaderKeepsInvariant(entries: map<nat, Entry>, lines: seq<Line>, ne: nat, nl: nat, id: nat, data: EntryData)
    requires StoreInvariant(entries, lines, ne, nl)
    requires id in entries
    requires data.entryNumber.Some? ==> !NumberTaken(entries, data.entryNumber.value, Some(id))
    ensures StoreInvariant(entries[id := PatchEntry(entries[id], data)], lines, ne, nl)
  {
    PatchKeepsNumbersUnique(entries, id, data);
  }

  /** Replacing one entry's lines: the entry's lines become exactly the new
      ones and every other entry keeps its lines. */
  lemma ReplacedLines(lines: seq<Line>, nl: nat, id: nat, inputs: seq<LineInput>)
    ensures var lines' := OtherLines(lines, id) + NewLines(id, nl, inputs);
      && EntryLines(lines', id) == NewLines(id, nl, inputs)
      && TotalDebit(lines', id) == InputDebits(inputs)
      && TotalCredit(lines', id) == InputCredits(inputs)
      && forall other :: other != id ==> EntryLines(lines', other) == EntryLines(lines, other)
  {
    var kept := OtherLines(lines, id);
    var added := NewLines(id, nl, inputs);
    var lines' := kept + added;
    assert forall l :: l in kept ==> l.entry != id;
    EntryLinesAppendOwn(kept, added, id);
    NewLinesTotals(id, nl, inputs);
    forall other | other != id
      ensures EntryLines(lines', other) == EntryLines(lines, other)
    {
      OtherLinesKeepEntries(lines, id, other);
      EntryLinesAppendOther(kept, added, other);
    }
  }

  /** Replacing an entry's lines by validated ones keeps the invariant. */
  lemma ReplaceLinesKeepsInvariant(entries: map<nat, Entry>, lines: seq<Line>, ne: nat, nl: nat, id: nat, data: EntryData)
    requires StoreInvariant(entries, lines, ne, nl)
    requires id in entries
    requires Validate(data).Ok?
    requires data.entryNumber.Some? ==> !NumberTaken(entries, data.entryNumber.value, Some(id))
    ensures StoreInvariant(entries[id := PatchEntry(entries[id], data)],
                           OtherLines(lines, id) + NewLines(id, nl, data.lines.value), ne, nl + |data.lines.value|)
  {
    PatchKeepsNumbersUnique(entries, id, data);
    var entries' := entries[id := PatchEntry(entries[id], data)];
    var kept := OtherLines(lines, id);
    var added := NewLines(id, nl, data.lines.value);
    var lines' := kept + added;
    ReplacedLines(lines, nl, id, data.lines.value);
    assert LinesLinked(entries', kept, nl) by {
      assert forall l :: l in kept ==> l in lines;
    }
    AppendedLinesLinked(entries', kept, nl, id, added, entries');
    forall x | x in entries'
      ensures Accepted(lines', x)
    {
      if x != id {
        assert Accepted(lines, x);
      }
    }
  }

  /** Deleting an entry together with its lines keeps the invariant. */
  lemma DeleteKeepsInvariant(entries: map<nat, Entry>, lines: seq<Line>, ne: nat, nl: nat, id: nat)
    requires StoreInvariant(entries, lines, ne, nl)
    ensures StoreInvariant(entries - {id}, OtherLines(lines, id), ne, nl)
  {
    forall other | other in entries - {id}
      ensures Accepted(OtherLines(lines, id), other)
    {
      OtherLinesKeepEntries(lines, id, other);
    }
    assert forall l :: l in OtherLines(lines, id) ==> l in lines && l.entry != id;
  }

  // ---------------------------------------------------------------------
  // Deleting an account
  // ---------------------------------------------------------------------

  /** The line table after account a is deleted, as the line's account
      foreign key is written (on_delete CASCADE): every line posted to a
      goes with it, whichever entry holds it. */
  function CascadeAccountDelete(lines: seq<Line>, a: nat): (r: seq<Line>)
    ensures forall l :: l in r <==> l in lines && l.account != a
  {
    Filter(lines, (l: Line) => l.account != a)
  }

  datatype AccountDeleteError = AccountInUse

  /** Deleting account a with the delete refused while any line refers to
      it (on_delete PROTECT): refused exactly when a line is posted to a,
      and otherwise the cascade of CascadeAccountDelete. */
  function ProtectedAccountDelete(lines: seq<Line>, a: nat): (r: Result<seq<Line>, AccountDeleteError>)
    ensures r.Ok? <==> forall l :: l in lines ==> l.account != a
    ensures r.Ok? ==> r.value == CascadeAccountDelete(lines, a)
  {
    if exists l :: l in lines && l.account == a then Err(AccountInUse) else Ok(CascadeAccountDelete(lines, a))
  }

  /** An account delete that the protected rule lets through removes no
      line, so the store invariant and every entry's totals are kept. */
  lemma ProtectedDeleteKeepsInvariant(entries: map<nat, Entry>, lines: seq<Line>, ne: nat, nl: nat, a: nat)
    requires StoreInvariant(entries, lines, ne, nl) && ProtectedAccountDelete(lines, a).Ok?
    ensures var after := ProtectedAccountDelete(lines, a).value;
      && StoreInvariant(entries, after, ne, nl)
      && LedgerBalanced(Ledger(entries, after))
      && forall id :: TotalDebit(after, id) == TotalDebit(lines, id) && TotalCredit(after, id) == TotalCredit(lines, id)
  {
    FilterAll(lines, (l: Line) => l.account != a);
  }

  /** One posted entry: debit 100 on account 0, credit 100 on account 1. */
  function PairEntries(): map<nat, Entry>
  {
    map[0 := Entry("JE-1", 20240101, "", "posted", 0)]
  }

  function PairLines(): seq<Line>
  {
    [Line(0, 0, 0, 100, 0, None), Line(1, 0, 1, 0, 100, None)]
  }

  /** As written, deleting account 1 takes the entry's credit line with it:
      a store that satisfies the invariant is left with an entry of debit
      100 and credit 0. */
  lemma AccountCascadeCounterexample()
    ensures StoreInvariant(PairEntries(), PairLines(), 1, 2)
    ensures CascadeAccountDelete(PairLines(), 1) == [Line(0, 0, 0, 100, 0, None)]
    ensures TotalDebit(CascadeAccountDelete(PairLines(), 1), 0) == 100
    ensures TotalCredit(CascadeAccountDelete(PairLines(), 1), 0) == 0
    ensures !LedgerBalanced(Ledger(PairEntries(), CascadeAccountDelete(PairLines(), 1)))
  {
    var lines := PairLines();
    var l0, l1 := lines[0], lines[1];
    assert lines[1..] == [l1] && [l1][1..] == [];
    assert EntryLines(lines, 0) == lines;
    assert TotalDebit(lines, 0) == 100 && TotalCredit(lines, 0) == 100;
    assert CascadeAccountDelete(lines, 1) == [l0];
    assert [l0][1..] == [];
    assert EntryLines([l0], 0) == [l0];
  }

  /** The journal entry and journal line tables. */
  class JournalStore {
    var entries: map<nat, Entry>
    var lines: seq<Line>
    var nextEntryId: nat
    var nextLineId: nat

    ghost predicate Valid()
      reads this
    {
      StoreInvariant(entries, lines, nextEntryId, nextLineId)
    }

    constructor ()
      ensures Valid() && entries == map[] && lines == []
    {
      entries, lines := map[], [];
      nextEntryId, nextLineId := 0, 0;
    }

    /** The tables as the reports read them; a valid store is a balanced ledger. */
    function Snapshot(): (r: Ledger)
      reads this
      ensures r.entries == entries && r.lines == lines
      ensures Valid() ==> LedgerBalanced(r)
    {
      Ledger(entries, lines)
    }

    /** Appends one stored line per input, in input order, linked to entry. */
    method InsertLines(entry: nat, inputs: seq<LineInput>)
      modifies this`lines, this`nextLineId
      ensures lines == old(lines) + NewLines(entry, old(nextLineId), inputs)
      ensures nextLineId == old(nextLineId) + |inputs|
    {
      ghost var first := nextLineId;
      var k := 0;
      while k < |inputs|
        invariant 0 <= k <= |inputs|
        invariant nextLineId == first + k
        invariant lines == old(lines) + NewLines(entry, first, inputs[..k])
      {
        var input := inputs[k];
        lines := lines + [Line(nextLineId, entry, input.account, input.debit, input.credit, input.reference)];
        NewLinesSnoc(entry, first, inputs, k);
        nextLineId := nextLineId + 1;
        k := k + 1;
      }
      assert inputs[..k] == inputs;
    }

    /** The serializer's create, after validation: one new entry stamped with
        the requesting user, and exactly one line per input line. A taken
        entry number is refused by the serializer's unique validator on the
        entry number, before validation, and nothing is written. */
    method Create(data: EntryData, user: nat) returns (r: Result<nat, EntryError>)
      requires Valid()
      requires data.entryNumber.Some? && data.date.Some? && data.status.Some?
      requires Validate(data).Ok?
      modifies this
      ensures Valid()
      ensures r.Err? <==> NumberTaken(old(entries), data.entryNumber.value, None)
      ensures r.Err? ==> (r.error == DuplicateEntryNumber && entries == old(entries) && lines == old(lines))
      ensures r.Ok? ==>
                && r.value !in old(entries)
                && entries == old(entries)[r.value := NewEntry(data, user)]
                && lines == old(lines) + NewLines(r.value, old(nextLineId), data.lines.value)
                && entries[r.value].createdBy == user
                && TotalDebit(lines, r.value) == InputDebits(data.lines.value)
                && TotalCredit(lines, r.value) == InputCredits(data.lines.value)
    {
      var number := data.entryNumber.value;
      if exists id :: id in entries && entries[id].entryNumber == number {
        return Err(DuplicateEntryNumber);
      }
      CreateKeepsInvariant(entries, lines, nextEntryId, nextLineId, data, user);
      var id := nextEntryId;
      entries := entries[id := NewEntry(data, user)];
      nextEntryId := nextEntryId + 1;
      InsertLines(id, data.lines.value);
      r := Ok(id);
    }

    /** The serializer's update: the supplied header fields are replaced; if
        lines are supplied, every existing line of the entry is deleted and
        exactly the supplied lines are inserted, while the lines of other
        entries are untouched; without lines the entry's lines stay as they
        were. A missing entry or a taken entry number changes nothing. */
    method Update(id: nat, data: EntryData) returns (r: Result<(), EntryError>)
      requires Valid()
      requires data.lines.Some? ==> Validate(data).Ok?
      modifies this
      ensures Valid()
      ensures r.Ok? <==> id in old(entries) && !(data.entryNumber.Some? && NumberTaken(old(entries), data.entryNumber.value, Some(id)))
      ensures id !in old(entries) ==> r == Err(NoSuchEntry)
      ensures id in old(entries) && data.entryNumber.Some? ==>
                (r == Err(DuplicateEntryNumber) <==> NumberTaken(old(entries), data.entryNumber.value, Some(id)))
      ensures r.Err? ==> (entries == old(entries) && lines == old(lines))
      ensures r.Ok? ==> (id in old(entries) && entries == old(entries)[id := PatchEntry(old(entries)[id], data)])
      ensures r.Ok? && data.lines.None? ==> lines == old(lines)
      ensures r.Ok? && data.lines.Some? ==>
                && lines == OtherLines(old(lines), id) + NewLines(id, old(nextLineId), data.lines.value)
                && TotalDebit(lines, id) == InputDebits(data.lines.value)
                && TotalCredit(lines, id) == InputCredits(data.lines.value)
      ensures r.Ok? ==> forall other :: other != id ==> EntryLines(lines, other) == EntryLines(old(lines), other)
    {
      if id !in entries {
        return Err(NoSuchEntry);
      }
      if data.entryNumber.Some? {
        var number := data.entryNumber.value;
        if exists other :: other in entries && other != id && entries[other].entryNumber == number {
          return Err(DuplicateEntryNumber);
        }
      }
      if data.lines.Some? {
        ReplaceEntry(id, data);
      } else {
        UpdateHeaderKeepsInvariant(entries, lines, nextEntryId, nextLineId, id, data);
        entries := entries[id := PatchEntry(entries[id], data)];
      }
      r := Ok(());
    }

    /** The update with lines, once the entry and its number are checked: the
        header is patched, the entry's old lines are deleted and the supplied
        ones inserted. */
    method ReplaceEntry(id: nat, data: EntryData)
      requires Valid() && id in entries
      requires data.lines.Some? && Validate(data).Ok?
      requires data.entryNumber.Some? ==> !NumberTaken(entries, data.entryNumber.value, Some(id))
      modifies this
      ensures Valid()
      ensures entries == old(entries)[id := PatchEntry(old(entries)[id], data)]
      ensures lines == OtherLines(old(lines), id) + NewLines(id, old(nextLineId), data.lines.value)
      ensures TotalDebit(lines, id) == InputDebits(data.lines.value)
      ensures TotalCredit(lines, id) == InputCredits(data.lines.value)
      ensures forall other :: other != id ==> EntryLines(lines, other) == EntryLines(old(lines), other)
    {
      ReplaceLinesKeepsInvariant(entries, lines, nextEntryId, nextLineId, id, data);
      ReplacedLines(lines, nextLineId, id, data.lines.value);
      entries := entries[id := PatchEntry(entries[id], data)];
      lines := OtherLines(lines, id);
      InsertLines(id, data.lines.value);
    }

    /** Deleting an entry deletes its lines with it (the cascade on the line's entry link). */
    method Delete(id: nat) returns (r: Result<(), EntryError>)
      requires Valid()
      modifies this
      ensures Valid()
      ensures r.Err? <==> id !in old(entries)
      ensures r.Err? ==> (entries == old(entries) && lines == old(lines))
      ensures r.Ok? ==> (entries == old(entries) - {id} && lines == OtherLines(old(lines), id))
    {
      if id !in entries {
        return Err(NoSuchEntry);
      }
      DeleteKeepsInvariant(entries, lines, nextEntryId, nextLineId, id);
      entries := entries - {id};
      lines := OtherLines(lines, id);
      r := Ok(());
    }
  }
}

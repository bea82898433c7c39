/** Drafts and their validation, in every run of the subledger. */
module LedgerDrafts {
  import opened Results
  import opened Sums
  import opened Ledger
  import opened LedgerInvariant
  import opened LedgerTheorems

  /** At least two entries of one currency, with positive amounts on the debit or the credit side, and as much debited
      as credited. Accounts play no part. */
  ghost predicate Draftable(entries: seq<Entry>) {
    && |entries| >= 2
    && (forall i :: 0 <= i < |entries| ==>
          var e := entries[i];
          (e.direction == Debit || e.direction == Credit) && e.amount > 0 && e.currency == entries[0].currency)
    && SumSeq(entries, (e: Entry) => if e.direction == Debit then e.amount else 0)
       == SumSeq(entries, (e: Entry) => if e.direction == Credit then e.amount else 0)
  }

  lemma DraftableIsBalanced(entries: seq<Entry>)
    ensures Draftable(entries) <==> Balanced(entries) && AllWellFormed(entries)
  {
    SidesAreEqual(entries);
    if Draftable(entries) {
      assert AllWellFormed(entries);
      EqualSidesArePositive(entries);
    } else if AllWellFormed(entries) && |entries| >= 2 {
      assert forall i :: 0 <= i < |entries| ==> WellFormed(entries[i]);
    }
  }

  /** A draft is stored if and only if its id is new and its entries balance; it moves no account. */
  lemma DraftedExactlyWhen(b: Books, id: Id, entries: seq<Entry>)
    ensures CreateDraft(b, id, entries).Ok? <==> id !in b.journals && Draftable(entries)
    ensures
      var r := CreateDraft(b, id, entries);
      r.Ok? ==>
        && r.value.accounts == b.accounts && r.value.funds == b.funds && r.value.holds == b.holds
        && r.value.journals == b.journals[id := Journal(Draft, None)]
        && |r.value.rows| == |b.rows| + |entries| && b.rows <= r.value.rows
        && (forall i :: 0 <= i < |entries| ==> r.value.rows[|b.rows| + i] == Row(id, entries[i]))
  {
    DraftableIsBalanced(entries);
  }

  // ----- drafts stay balanced -----

  ghost predicate DraftBalances(b: Books, id: Id)
    requires id in b.journals
  {
    b.journals[id].state != Posted ==> Balanced(EntriesOf(b.rows, id))
  }

  /** The entries of every journal that is not posted balance. */
  ghost predicate DraftsBalance(b: Books) {
    && (forall i :: 0 <= i < |b.rows| ==> b.rows[i].journal in b.journals)
    && (forall id :: id in b.journals ==> DraftBalances(b, id))
  }

  lemma {:induction false} OthersReadBack(rows: seq<Row>, id: Id, entries: seq<Entry>, other: Id)
    requires other != id
    ensures EntriesOf(rows + RowsOf(id, entries), other) == EntriesOf(rows, other)
    decreases |entries|
  {
    if entries == [] {
      assert rows + RowsOf(id, entries) == rows;
    } else {
      var n := |entries| - 1;
      var before := rows + RowsOf(id, entries[..n]);
      OthersReadBack(rows, id, entries[..n], other);
      assert rows + RowsOf(id, entries) == before + [Row(id, entries[n])];
      assert (before + [Row(id, entries[n])])[..|before|] == before;
    }
  }

  /** A new journal brings its own rows and leaves those of the others. */
  lemma AddedJournalBalances(b: Books, t: Books, id: Id, j: Journal, entries: seq<Entry>)
    requires DraftsBalance(b) && id !in b.journals && Balanced(entries)
    requires t.journals == b.journals[id := j] && t.rows == b.rows + RowsOf(id, entries)
    ensures DraftsBalance(t)
  {
    forall other | other in t.journals
      ensures DraftBalances(t, other)
    {
      if other == id {
        EntriesReadBack(b.rows, id, entries);
      } else {
        assert DraftBalances(b, other);
        OthersReadBack(b.rows, id, entries, other);
      }
    }
  }

  lemma PostingBalances(b: Books, id: Id, entries: seq<Entry>, reverses: Option<Id>)
    requires DraftsBalance(b) && PostJournal(b, id, entries, reverses).Ok?
    ensures DraftsBalance(PostJournal(b, id, entries, reverses).value)
  {
    AddedJournalBalances(b, PostJournal(b, id, entries, reverses).value, id, Journal(Posted, reverses), entries);
  }

  lemma {:induction false} GroupsBalance(b: Books, id: Id, currencies: seq<Currency>, entries: seq<Entry>,
                                         clearing: map<Currency, Id>)
    requires DraftsBalance(b) && PostGroups(b, id, currencies, entries, clearing).Ok?
    ensures DraftsBalance(PostGroups(b, id, currencies, entries, clearing).value)
    decreases |currencies|
  {
    if currencies != [] {
      var c := currencies[0];
      PostingBalances(b, id + ":" + c, Group(entries, c), None);
      GroupsBalance(PostJournal(b, id + ":" + c, Group(entries, c), None).value, id, currencies[1..], entries,
                    clearing);
    }
  }

  lemma ValidatingBalances(b: Books, id: Id)
    requires DraftsBalance(b) && ValidateJournal(b, id).Ok?
    ensures DraftsBalance(ValidateJournal(b, id).value)
  {
    var t := ValidateJournal(b, id).value;
    forall other | other in t.journals
      ensures DraftBalances(t, other)
    {
      assert DraftBalances(b, other);
    }
  }

  lemma OtherOperationsBalance(b: Books, op: Op)
    requires DraftsBalance(b) && !TouchesJournals(op)
    ensures DraftsBalance(Apply(b, op))
  {
    var t := Apply(b, op);
    assert t.rows == b.rows && t.journals == b.journals;
    forall id | id in t.journals
      ensures DraftBalances(t, id)
    {
      assert DraftBalances(b, id);
    }
  }

  lemma OperationBalances(b: Books, op: Op)
    requires DraftsBalance(b)
    ensures DraftsBalance(Apply(b, op))
  {
    if !TouchesJournals(op) {
      OtherOperationsBalance(b, op);
    } else if Attempt(b, op).Ok? {
      match op
      case Post(id, entries) => PostingBalances(b, id, entries, None);
      case PostMulti(id, entries, clearing) => GroupsBalance(b, id, Currencies(entries), entries, clearing);
      case MakeDraft(id, entries) =>
        AddedJournalBalances(b, Attempt(b, op).value, id, Journal(Draft, None), entries);
      case Validate(id) => ValidatingBalances(b, id);
      case Reverse(id, reversal, readback, justified) => PostingBalances(b, reversal, FlipAll(readback), Some(id));
      case _ =>
    }
  }

  lemma {:induction false} RunBalances(ops: seq<Op>)
    ensures DraftsBalance(Run(EMPTY, ops))
    decreases |ops|
  {
    if ops != [] {
      RunBalances(ops[..|ops| - 1]);
      OperationBalances(Run(EMPTY, ops[..|ops| - 1]), ops[|ops| - 1]);
    }
  }

  /** In every run a journal passes validation if and only if it exists and is not posted: the entries of a draft are
      those it was made with, so the check of their balance never fails. */
  lemma {:induction false} ValidatedExactlyWhen(ops: seq<Op>, id: Id)
    ensures
      var b := Run(EMPTY, ops);
      && (ValidateJournal(b, id).Ok? <==> id in b.journals && b.journals[id].state in {Draft, Validated})
      && (ValidateJournal(b, id).Ok? ==>
            ValidateJournal(b, id).value == b.(journals := b.journals[id := b.journals[id].(state := Validated)]))
  {
    RunBalances(ops);
    var b := Run(EMPTY, ops);
    if id in b.journals {
      assert DraftBalances(b, id);
    }
  }
}

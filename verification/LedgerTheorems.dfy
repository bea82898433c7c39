/** The main results about the subledger, over every run of its operations. */
module LedgerTheorems {
  import opened Results
  import opened Sums
  import opened Ledger
  import opened LedgerInvariant
  import opened LedgerAgreement

  /** Every stored balance is the opening balance plus what posted journals moved minus what reservations
      consumed, and every reserved amount is the sum of what is still held, after any run. */
  lemma {:induction false} BalancesAgreeWithJournals(ops: seq<Op>, id: Id)
    requires id in Run(EMPTY, ops).accounts
    ensures
      var b := Run(EMPTY, ops);
      var a := b.accounts[id];
      && a.balance == a.opening + PostedMovement(b, id) - Total(b.funds, FundOn(id, Consumed))
      && a.reserved == Total(b.funds, FundOn(id, Reserved)) + Total(b.holds, HoldOn(id))
      && a.balance >= 0 && a.reserved >= 0
  {
    EmptyBooksHold();
    RunKeepsInv(EMPTY, ops);
    var b := Run(EMPTY, ops);
    assert Agrees(b, id);
    TotalBounds(b.funds, FundOn(id, Reserved));
    TotalBounds(b.holds, HoldOn(id));
  }

  // ----- the trial balance nets to zero -----

  /** Per account of a currency, what the first `n` rows moved, counted with the sign of its type. */
  ghost function SignedMovements(b: Books, c: Currency, n: nat): map<Id, int>
    requires n <= |b.rows|
  {
    map id | id in b.accounts && b.accounts[id].currency == c ::
      Signed(b.accounts[id].kind, SumSeq(b.rows[..n], PostedRow(b.journals, MoveOn(id, b.accounts[id].kind))))
  }

  /** A posted row of the currency moves its own account, and no row moves any other. */
  lemma RowMovesItsAccount(b: Books, c: Currency, n: nat, id: Id)
    requires n < |b.rows| && id in b.accounts && b.accounts[id].currency == c
    ensures
      var r := b.rows[n];
      SignedMovements(b, c, n + 1)[id] == SignedMovements(b, c, n)[id]
        + if r.entry.account == id && IsPosted(b.journals, r.journal)
          then Signed(b.accounts[id].kind, MoveOn(id, b.accounts[id].kind)(r.entry)) else 0
  {
    var w := PostedRow(b.journals, MoveOn(id, b.accounts[id].kind));
    SumUpToNext(b.rows, n, w);
  }

  lemma RowMovesOneAccount(b: Books, c: Currency, n: nat)
    requires RowsAttached(b) && n < |b.rows|
    ensures
      var before, after, r := SignedMovements(b, c, n), SignedMovements(b, c, n + 1), b.rows[n];
      var x := r.entry.account;
      if IsPosted(b.journals, r.journal) && r.entry.currency == c
      then x in before && after == before[x := before[x] + SidesIn(c)(r.entry)]
      else after == before
  {
    var before, after, r := SignedMovements(b, c, n), SignedMovements(b, c, n + 1), b.rows[n];
    assert r.journal in b.journals;
    forall id | id in after
      ensures after[id] == before[id] + if r.entry.account == id && IsPosted(b.journals, r.journal)
                                        then SidesIn(c)(r.entry) else 0
    {
      RowMovesItsAccount(b, c, n, id);
    }
  }

  lemma RowMovesTotal(b: Books, c: Currency, n: nat)
    requires RowsAttached(b) && n < |b.rows|
    ensures Total(SignedMovements(b, c, n + 1), Itself())
            == Total(SignedMovements(b, c, n), Itself()) + PostedRow(b.journals, SidesIn(c))(b.rows[n])
  {
    RowMovesOneAccount(b, c, n);
    var before, r := SignedMovements(b, c, n), b.rows[n];
    if IsPosted(b.journals, r.journal) && r.entry.currency == c {
      TotalUpdate(before, Itself(), r.entry.account, before[r.entry.account] + SidesIn(c)(r.entry));
    }
  }

  /** Summing over accounts or over rows is the same. */
  lemma {:induction false} ExchangeOfSums(b: Books, c: Currency, n: nat)
    requires RowsAttached(b) && n <= |b.rows|
    ensures Total(SignedMovements(b, c, n), Itself()) == SumSeq(b.rows[..n], PostedRow(b.journals, SidesIn(c)))
    decreases n
  {
    if n == 0 {
      NoFunds(SignedMovements(b, c, n), Itself());
    } else {
      ExchangeOfSums(b, c, n - 1);
      RowMovesTotal(b, c, n - 1);
      SumUpToNext(b.rows, n - 1, PostedRow(b.journals, SidesIn(c)));
    }
  }

  /** After any run, the recomputed balances of a currency cancel out: assets, expenses and suspense against
      liabilities, equity, income and contra. */
  lemma {:induction false} TrialBalanceNetsToZero(ops: seq<Op>, c: Currency)
    ensures
      var b := Run(EMPTY, ops);
      Total(SignedMovements(b, c, |b.rows|), Itself()) == 0
  {
    EmptyBooksHold();
    RunKeepsInv(EMPTY, ops);
    var b := Run(EMPTY, ops);
    ExchangeOfSums(b, c, |b.rows|);
    assert b.rows[..|b.rows|] == b.rows;
  }

  // ----- reversal -----

  lemma {:induction false} FlipNegates(entries: seq<Entry>, id: Id, kind: AccountType)
    requires forall i :: 0 <= i < |entries| ==> entries[i].direction != OtherDirection
    ensures Movement(FlipAll(entries), id, kind) == -Movement(entries, id, kind)
    decreases |entries|
  {
    if entries != [] {
      var n := |entries| - 1;
      FlipNegates(entries[..n], id, kind);
      assert FlipAll(entries)[..n] == FlipAll(entries[..n]);
    }
  }

  lemma {:induction false} NoEntriesOf(rows: seq<Row>, id: Id)
    requires forall i :: 0 <= i < |rows| ==> rows[i].journal != id
    ensures EntriesOf(rows, id) == []
    decreases |rows|
  {
    if rows != [] {
      NoEntriesOf(rows[..|rows| - 1], id);
    }
  }

  lemma EntriesOfAppended(rows: seq<Row>, id: Id, e: Entry)
    ensures EntriesOf(rows + [Row(id, e)], id) == EntriesOf(rows, id) + [e]
  {
    assert (rows + [Row(id, e)])[..|rows|] == rows;
  }

  /** The rows of a fresh journal read back as its entries. */
  lemma {:induction false} EntriesReadBack(rows: seq<Row>, id: Id, entries: seq<Entry>)
    requires forall i :: 0 <= i < |rows| ==> rows[i].journal != id
    ensures EntriesOf(rows + RowsOf(id, entries), id) == entries
    decreases |entries|
  {
    if entries == [] {
      assert rows + RowsOf(id, entries) == rows;
      NoEntriesOf(rows, id);
    } else {
      var n := |entries| - 1;
      EntriesReadBack(rows, id, entries[..n]);
      assert rows + RowsOf(id, entries) == rows + RowsOf(id, entries[..n]) + [Row(id, entries[n])];
      EntriesOfAppended(rows + RowsOf(id, entries[..n]), id, entries[n]);
    }
  }

  lemma {:induction false} FlippedSides(entries: seq<Entry>)
    requires forall i :: 0 <= i < |entries| ==> entries[i].direction != OtherDirection
    ensures SumSeq(FlipAll(entries), Side(Debit)) == SumSeq(entries, Side(Credit))
    ensures SumSeq(FlipAll(entries), Side(Credit)) == SumSeq(entries, Side(Debit))
    decreases |entries|
  {
    if entries != [] {
      var n := |entries| - 1;
      FlippedSides(entries[..n]);
      assert FlipAll(entries)[..n] == FlipAll(entries[..n]);
    }
  }

  /** The movements that come back after entry `k` of the readback leave its account's original balance covered. */
  ghost predicate LaterEntriesCover(b: Books, readback: seq<Entry>, k: nat)
    requires k < |readback| && readback[k].account in b.accounts
  {
    var a := readback[k].account;
    b.accounts[a].balance + Movement(readback[k + 1..], a, b.accounts[a].kind) >= 0
  }

  lemma ReadbackEntryFits(b: Books, t: Books, entries: seq<Entry>, e: Entry)
    requires AllFit(b.accounts, entries) && ApplyEntries(b.accounts, entries) == Some(t.accounts) && e in entries
    ensures Fits(b.accounts, e) && Fits(t.accounts, Flip(e))
  {
    var j :| 0 <= j < |entries| && entries[j] == e;
    assert Fits(b.accounts, entries[j]);
    PostingMoves(b.accounts, entries, e.account);
  }

  lemma ReadbackBalances(entries: seq<Entry>, readback: seq<Entry>)
    requires Balanced(entries) && AllWellFormed(entries) && multiset(readback) == multiset(entries)
    ensures |readback| == |entries| && Balanced(FlipAll(readback))
  {
    assert |readback| == |multiset(readback)| == |multiset(entries)| == |entries|;
    forall i | 0 <= i < |readback|
      ensures WellFormed(readback[i]) && readback[i].currency == entries[0].currency
    {
      assert readback[i] in multiset(entries);
    }
    SumPermutation(readback, entries, Side(Debit));
    SumPermutation(readback, entries, Side(Credit));
    FlippedSides(readback);
  }

  lemma ReadbackFits(b: Books, id: Id, entries: seq<Entry>, readback: seq<Entry>)
    requires PostJournal(b, id, entries, None).Ok? && multiset(readback) == multiset(entries)
    ensures |readback| == |entries| && AllFit(b.accounts, readback)
    ensures AllFit(PostJournal(b, id, entries, None).value.accounts, FlipAll(readback))
    ensures Balanced(FlipAll(readback))
  {
    var t := PostJournal(b, id, entries, None).value;
    assert AllWellFormed(entries) by {
      assert forall i :: 0 <= i < |entries| ==> Fits(b.accounts, entries[i]);
    }
    ReadbackBalances(entries, readback);
    forall i | 0 <= i < |readback|
      ensures Fits(b.accounts, readback[i]) && Fits(t.accounts, FlipAll(readback)[i])
    {
      assert readback[i] in multiset(entries);
      ReadbackEntryFits(b, t, entries, readback[i]);
    }
  }

  lemma PrefixOfReversal(b: Books, posted: Books, entries: seq<Entry>, readback: seq<Entry>, k: nat)
    requires k < |readback| && multiset(readback) == multiset(entries) && readback[k].account in b.accounts
    requires readback[k].account in posted.accounts
    requires
      var a := readback[k].account;
      MovedBy(b.accounts[a], posted.accounts[a], Movement(entries, a, b.accounts[a].kind))
    requires forall i :: 0 <= i < |readback| ==> readback[i].direction != OtherDirection
    ensures PrefixCovers(posted.accounts, FlipAll(readback), k) <==> LaterEntriesCover(b, readback, k)
  {
    var a := readback[k].account;
    var kind := b.accounts[a].kind;
    assert FlipAll(readback)[..k + 1] == FlipAll(readback[..k + 1]);
    FlipNegates(readback[..k + 1], a, kind);
    SumPermutation(readback, entries, MoveOn(a, kind));
    assert readback == readback[..k + 1] + readback[k + 1..];
    SumConcat(readback[..k + 1], readback[k + 1..], MoveOn(a, kind));
  }

  lemma ReversalAccepted(b: Books, posted: Books, entries: seq<Entry>, readback: seq<Entry>)
    requires AllFit(b.accounts, entries) && ApplyEntries(b.accounts, entries) == Some(posted.accounts)
    requires AllFit(posted.accounts, FlipAll(readback)) && AllFit(b.accounts, readback)
             && multiset(readback) == multiset(entries)
    ensures NeverShort(posted.accounts, FlipAll(readback))
            <==> forall k :: 0 <= k < |readback| ==> LaterEntriesCover(b, readback, k)
  {
    forall k | 0 <= k < |readback|
      ensures PrefixCovers(posted.accounts, FlipAll(readback), k) <==> LaterEntriesCover(b, readback, k)
    {
      assert Fits(b.accounts, readback[k]);
      PostingMoves(b.accounts, entries, readback[k].account);
      PrefixOfReversal(b, posted, entries, readback, k);
    }
  }

  /** A reversal posted straight after its journal is accepted exactly when, in the order in which the entries
      are read back, the later entries always cover the account of the current one. */
  lemma ReversalExactlyWhen(b: Books, id: Id, entries: seq<Entry>, reversal: Id, readback: seq<Entry>)
    requires PostJournal(b, id, entries, None).Ok? && (forall i :: 0 <= i < |b.rows| ==> b.rows[i].journal != id)
    requires multiset(readback) == multiset(entries) && reversal !in b.journals && reversal != id
    ensures EntriesOf(PostJournal(b, id, entries, None).value.rows, id) == entries
    ensures |readback| == |entries| && AllFit(b.accounts, readback)
    ensures ReverseJournal(PostJournal(b, id, entries, None).value, id, reversal, readback, true).Ok?
            <==> forall k :: 0 <= k < |readback| ==> LaterEntriesCover(b, readback, k)
  {
    var posted := PostJournal(b, id, entries, None).value;
    ReadbackFits(b, id, entries, readback);
    EntriesReadBack(b.rows, id, entries);
    ReversalAccepted(b, posted, entries, readback);
    ReversalIsPosting(posted, id, reversal, readback);
  }

  lemma ReversalIsPosting(b: Books, id: Id, reversal: Id, readback: seq<Entry>)
    requires IsPosted(b.journals, id) && reversal !in b.journals
    requires Balanced(FlipAll(readback)) && AllFit(b.accounts, FlipAll(readback))
    ensures ReverseJournal(b, id, reversal, readback, true).Ok? <==> NeverShort(b.accounts, FlipAll(readback))
  {
    PostingIsPrefixwise(b.accounts, FlipAll(readback));
  }

  /** An accepted reversal restores every balance, whatever the order in which the entries were read back. */
  lemma ReversalRestoresBalances(b: Books, id: Id, entries: seq<Entry>, reversal: Id, readback: seq<Entry>, a: Id)
    requires PostJournal(b, id, entries, None).Ok? && a in b.accounts && multiset(readback) == multiset(entries)
    requires ReverseJournal(PostJournal(b, id, entries, None).value, id, reversal, readback, true).Ok?
    ensures
      var t := ReverseJournal(PostJournal(b, id, entries, None).value, id, reversal, readback, true).value;
      a in t.accounts && t.accounts[a].balance == b.accounts[a].balance && t.accounts[a].kind == b.accounts[a].kind
  {
    var posted := PostJournal(b, id, entries, None).value;
    var kind := b.accounts[a].kind;
    ReadbackFits(b, id, entries, readback);
    PostingMoves(b.accounts, entries, a);
    PostingMoves(posted.accounts, FlipAll(readback), a);
    FlipNegates(readback, a, kind);
    SumPermutation(readback, entries, MoveOn(a, kind));
  }

  /** And it cancels the journal's contribution to the trial balance. */
  lemma ReversalCancelsMovement(b: Books, id: Id, entries: seq<Entry>, reversal: Id, readback: seq<Entry>, a: Id)
    requires RowsAttached(b) && PostJournal(b, id, entries, None).Ok? && a in b.accounts
             && multiset(readback) == multiset(entries)
    requires ReverseJournal(PostJournal(b, id, entries, None).value, id, reversal, readback, true).Ok?
    ensures
      var t := ReverseJournal(PostJournal(b, id, entries, None).value, id, reversal, readback, true).value;
      a in t.accounts && PostedMovement(t, a) == PostedMovement(b, a)
  {
    var posted := PostJournal(b, id, entries, None).value;
    var kind := b.accounts[a].kind;
    ReversalRestoresBalances(b, id, entries, reversal, readback, a);
    ReadbackFits(b, id, entries, readback);
    FlipNegates(readback, a, kind);
    SumPermutation(readback, entries, MoveOn(a, kind));
    PostingAttaches(b, id, entries, None);
    PostedAfterAppend(b, id, Journal(Posted, None), entries, MoveOn(a, kind));
    PostedAfterAppend(posted, reversal, Journal(Posted, Some(id)), FlipAll(readback), MoveOn(a, kind));
  }

  predicate NamesAccountsOnce(entries: seq<Entry>) {
    forall i, j :: 0 <= i < j < |entries| ==> entries[i].account != entries[j].account
  }

  lemma {:induction false} UnnamedDoesNotMove(entries: seq<Entry>, id: Id, kind: AccountType)
    requires forall i :: 0 <= i < |entries| ==> entries[i].account != id
    ensures Movement(entries, id, kind) == 0
    decreases |entries|
  {
    if entries != [] {
      UnnamedDoesNotMove(entries[..|entries| - 1], id, kind);
    }
  }

  /** A journal that names each account at most once can always be reversed at once, in whatever order it is read
      back. */
  lemma JournalsNamingAccountsOnceReverse(b: Books, id: Id, entries: seq<Entry>, reversal: Id, readback: seq<Entry>)
    requires Inv(b) && PostJournal(b, id, entries, None).Ok? && NamesAccountsOnce(readback)
    requires multiset(readback) == multiset(entries) && reversal !in b.journals && reversal != id
    ensures ReverseJournal(PostJournal(b, id, entries, None).value, id, reversal, readback, true).Ok?
  {
    ReversalExactlyWhen(b, id, entries, reversal, readback);
    forall k | 0 <= k < |readback|
      ensures LaterEntriesCover(b, readback, k)
    {
      assert Agrees(b, readback[k].account);
      UnnamedDoesNotMove(readback[k + 1..], readback[k].account, b.accounts[readback[k].account].kind);
    }
  }

  const CASH := Account("EUR", Asset, 0, 0, 0, 1, true)
  const IN_AND_OUT := [Entry("cash", Debit, "EUR", 5), Entry("cash", Credit, "EUR", 5)]

  lemma InAndOutPosts(b: Books)
    requires b == EMPTY.(accounts := map["cash" := CASH])
    ensures PostJournal(b, "j", IN_AND_OUT, None).Ok?
  {
    assert Fits(b.accounts, IN_AND_OUT[0]) && Fits(b.accounts, IN_AND_OUT[1]);
    ThereAndBack(b.accounts, IN_AND_OUT[0], IN_AND_OUT[1]);
  }

  lemma InAndOutIsUncovered(b: Books)
    requires b == EMPTY.(accounts := map["cash" := CASH])
    ensures !LaterEntriesCover(b, IN_AND_OUT, 0)
  {
    assert IN_AND_OUT[1..] == [] + [IN_AND_OUT[1]];
    SumAppend([], IN_AND_OUT[1], MoveOn("cash", Asset));
    assert MoveOn("cash", Asset)(IN_AND_OUT[1]) == -5;
  }

  /** An account named twice can make the reversal of a good journal fail. */
  lemma AReversalCanBeRefused()
    ensures
      var b := EMPTY.(accounts := map["cash" := CASH]);
      && PostJournal(b, "j", IN_AND_OUT, None).Ok?
      && ReverseJournal(PostJournal(b, "j", IN_AND_OUT, None).value, "j", "r", IN_AND_OUT, true).Err?
  {
    var b := EMPTY.(accounts := map["cash" := CASH]);
    InAndOutPosts(b);
    InAndOutIsUncovered(b);
    ReversalExactlyWhen(b, "j", IN_AND_OUT, "r", IN_AND_OUT);
  }

  lemma ThereAndBack(accounts: map<Id, Account>, e: Entry, f: Entry)
    requires AllFit(accounts, [e, f]) && e.account == f.account && e.amount == f.amount && e.account in accounts
    requires e.direction == Debit && f.direction == Credit && Normal(accounts[e.account].kind) == Debit
    requires accounts[e.account].balance >= 0
    ensures Balanced([e, f]) && ApplyEntries(accounts, [e, f]).Some?
  {
    assert Fits(accounts, [e, f][0]) && Fits(accounts, [e, f][1]);
    assert [e, f][..1] == [e] && [e][..0] == [];
    assert [] + [e] == [e] && [e] + [f] == [e, f];
    SumAppend([], e, Side(Debit));
    SumAppend([e], f, Side(Debit));
    SumAppend([], e, Side(Credit));
    SumAppend([e], f, Side(Credit));
    assert ApplyEntries(accounts, []) == Some(accounts);
    assert ApplyEntries(accounts, [e]).Some?;
  }

  // ----- reservations and holds -----

  predicate JournalFree(op: Op) {
    !op.Post? && !op.PostMulti? && !op.Reverse?
  }

  predicate Covered(b: Books) {
    forall id :: id in b.accounts ==> b.accounts[id].reserved <= b.accounts[id].balance
  }

  lemma FreedStaysCovered(b: Books, id: Id, state: FundState)
    requires Covered(b) && id in b.funds && b.funds[id].account in b.accounts && b.funds[id].amount >= 0
    ensures Covered(Freed(b, id, state))
  {
  }

  lemma FreeingStaysCovered(b: Books, id: Id)
    requires Inv(b) && Covered(b) && id in b.funds
    ensures ReleaseFunds(b, id).Ok? && Covered(ReleaseFunds(b, id).value)
    ensures ConsumeFunds(b, id).Ok? && Covered(ConsumeFunds(b, id).value)
  {
    if b.funds[id].state == Reserved {
      ClampsNeverBite(b, id);
      FreedStaysCovered(b, id, Released);
      FreedStaysCovered(b, id, Consumed);
    }
  }

  lemma JournalFreeStepStaysCovered(b: Books, op: Op)
    requires Covered(b) && FundsAttached(b) && JournalFree(op) && !op.Release? && !op.Consume?
    ensures Covered(Apply(b, op))
  {
    match op
    case MakeDraft(id, entries) => assert Apply(b, op).accounts == b.accounts;
    case Validate(id) => assert Apply(b, op).accounts == b.accounts;
    case _ =>
  }

  /** Without postings, reserved never exceeds the balance, and no consumption is ever refused. */
  lemma {:induction false} JournalFreeRunsStayCovered(ops: seq<Op>)
    requires forall i :: 0 <= i < |ops| ==> JournalFree(ops[i])
    ensures Inv(Run(EMPTY, ops)) && Covered(Run(EMPTY, ops))
    ensures forall id :: id in Run(EMPTY, ops).funds ==> ConsumeFunds(Run(EMPTY, ops), id).Ok?
    decreases |ops|
  {
    EmptyBooksHold();
    if ops != [] {
      var b, op := Run(EMPTY, ops[..|ops| - 1]), ops[|ops| - 1];
      JournalFreeRunsStayCovered(ops[..|ops| - 1]);
      OperationKeepsInv(b, op);
      if op.Release? || op.Consume? {
        if op.id in b.funds {
          FreeingStaysCovered(b, op.id);
        }
      } else {
        JournalFreeStepStaysCovered(b, op);
      }
    }
    forall id | id in Run(EMPTY, ops).funds
      ensures ConsumeFunds(Run(EMPTY, ops), id).Ok?
    {
      FreeingStaysCovered(Run(EMPTY, ops), id);
    }
  }

  /** Nothing frees a reservation or a hold twice: once it has left RESERVED or HELD, its row never changes state
      again. */
  lemma {:induction false} FreedOnlyOnce(b: Books, ops: seq<Op>, id: Id)
    ensures id in b.funds && b.funds[id].state != Reserved ==>
              id in Run(b, ops).funds && Run(b, ops).funds[id] == b.funds[id]
    ensures id in b.holds && b.holds[id].state != Held ==>
              id in Run(b, ops).holds && Run(b, ops).holds[id].(referenced := b.holds[id].referenced) == b.holds[id]
    decreases |ops|
  {
    if ops != [] {
      FreedOnlyOnce(b, ops[..|ops| - 1], id);
      StepKeepsFreed(Run(b, ops[..|ops| - 1]), ops[|ops| - 1], id);
    }
  }

  lemma StepKeepsFreed(b: Books, op: Op, id: Id)
    ensures id in b.funds && b.funds[id].state != Reserved ==>
              id in Apply(b, op).funds && Apply(b, op).funds[id] == b.funds[id]
    ensures id in b.holds && b.holds[id].state != Held ==>
              id in Apply(b, op).holds && Apply(b, op).holds[id].(referenced := b.holds[id].referenced) == b.holds[id]
  {
    if TouchesJournals(op) {
      JournalsKeepFunds(b, op);
    }
  }

  predicate TouchesJournals(op: Op) {
    op.Post? || op.PostMulti? || op.MakeDraft? || op.Validate? || op.Reverse?
  }

  lemma JournalsKeepFunds(b: Books, op: Op)
    requires TouchesJournals(op)
    ensures Apply(b, op).funds == b.funds && Apply(b, op).holds == b.holds
  {
    if op.PostMulti? && Attempt(b, op).Ok? {
      GroupsKeepFunds(b, op.id, Currencies(op.entries), op.entries, op.clearing);
    }
  }

  lemma {:induction false} GroupsKeepFunds(b: Books, id: Id, currencies: seq<Currency>, entries: seq<Entry>,
                                           clearing: map<Currency, Id>)
    requires PostGroups(b, id, currencies, entries, clearing).Ok?
    ensures
      var t := PostGroups(b, id, currencies, entries, clearing).value;
      t.funds == b.funds && t.holds == b.holds
    decreases |currencies|
  {
    if currencies != [] {
      var c := currencies[0];
      GroupsKeepFunds(PostJournal(b, id + ":" + c, Group(entries, c), None).value, id, currencies[1..], entries,
                      clearing);
    }
  }
}

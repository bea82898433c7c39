/** The laws of the subledger: exact posting, agreement of balances with journals, reserved sums. */
module LedgerInvariant {
  import opened Results
  import opened Sums
  import opened Ledger

  // ----- posting, said without the loop -----

  /** Up to and including entry `k`, its account stays covered. */
  ghost predicate PrefixCovers(accounts: map<Id, Account>, entries: seq<Entry>, k: nat)
    requires k < |entries| && entries[k].account in accounts
  {
    var id := entries[k].account;
    accounts[id].balance + Movement(entries[..k + 1], id, accounts[id].kind) >= 0
  }

  /** No prefix of the entries drives the account of its last entry below zero. */
  ghost predicate NeverShort(accounts: map<Id, Account>, entries: seq<Entry>)
    requires AllFit(accounts, entries)
  {
    forall k :: 0 <= k < |entries| ==> PrefixCovers(accounts, entries, k)
  }

  /** The same account after the entries, up to its version. */
  ghost predicate MovedBy(before: Account, after: Account, amount: int) {
    after == before.(balance := before.balance + amount, version := after.version) && after.version >= before.version
  }

  lemma NeverShortStep(accounts: map<Id, Account>, entries: seq<Entry>)
    requires AllFit(accounts, entries) && entries != []
    ensures
      var n := |entries| - 1;
      var id := entries[n].account;
      NeverShort(accounts, entries) <==>
        NeverShort(accounts, entries[..n]) && accounts[id].balance + Movement(entries, id, accounts[id].kind) >= 0
  {
    var n := |entries| - 1;
    assert entries[..n + 1] == entries;
    forall k | 0 <= k < n
      ensures PrefixCovers(accounts, entries[..n], k) <==> PrefixCovers(accounts, entries, k)
    {
      assert entries[..n][..k + 1] == entries[..k + 1];
    }
    assert PrefixCovers(accounts, entries, n) <==>
           accounts[entries[n].account].balance
             + Movement(entries, entries[n].account, accounts[entries[n].account].kind) >= 0;
    assert NeverShort(accounts, entries[..n]) ==> forall k :: 0 <= k < n ==> PrefixCovers(accounts, entries, k);
  }

  lemma {:induction false} PostingMoves(accounts: map<Id, Account>, entries: seq<Entry>, id: Id)
    requires AllFit(accounts, entries) && ApplyEntries(accounts, entries).Some? && id in accounts
    ensures MovedBy(accounts[id], ApplyEntries(accounts, entries).value[id], Movement(entries, id, accounts[id].kind))
    decreases |entries|
  {
    if entries != [] {
      PostingMoves(accounts, entries[..|entries| - 1], id);
    }
  }

  /** The loop accepts exactly the journals that never run short, and then moves every account by its entries. */
  lemma {:induction false} PostingIsPrefixwise(accounts: map<Id, Account>, entries: seq<Entry>)
    requires AllFit(accounts, entries)
    ensures ApplyEntries(accounts, entries).Some? <==> NeverShort(accounts, entries)
    ensures ApplyEntries(accounts, entries).Some? ==>
              forall id :: id in accounts ==>
                             MovedBy(accounts[id], ApplyEntries(accounts, entries).value[id],
                                     Movement(entries, id, accounts[id].kind))
    decreases |entries|
  {
    if ApplyEntries(accounts, entries).Some? {
      forall id | id in accounts
        ensures MovedBy(accounts[id], ApplyEntries(accounts, entries).value[id],
                        Movement(entries, id, accounts[id].kind))
      {
        PostingMoves(accounts, entries, id);
      }
    }
    if entries != [] {
      PostingIsPrefixwise(accounts, entries[..|entries| - 1]);
      NeverShortStep(accounts, entries);
    }
  }

  /** The debits or the credits that entries name for one account. */
  function SideOf(id: Id, d: Direction): Entry -> int {
    (e: Entry) => if e.account == id && e.direction == d then e.amount else 0
  }

  lemma {:induction false} MovementIsDifference(entries: seq<Entry>, id: Id, kind: AccountType)
    requires AllWellFormed(entries)
    ensures
      var debits, credits := SumSeq(entries, SideOf(id, Debit)), SumSeq(entries, SideOf(id, Credit));
      Movement(entries, id, kind) == if kind in {Asset, Expense, Suspense} then debits - credits else credits - debits
    decreases |entries|
  {
    if entries != [] {
      MovementIsDifference(entries[..|entries| - 1], id, kind);
    }
  }

  /** An accepted posting raises a liability, equity, income or contra account by its credits minus its debits, and an
      asset, expense or suspense account by its debits minus its credits; nothing else of an account changes but its
      version. */
  lemma PostingRaises(b: Books, journal: Id, entries: seq<Entry>, reverses: Option<Id>, id: Id)
    requires PostJournal(b, journal, entries, reverses).Ok? && id in b.accounts
    ensures id in PostJournal(b, journal, entries, reverses).value.accounts
    ensures
      var a, t := b.accounts[id], PostJournal(b, journal, entries, reverses).value.accounts[id];
      var debits, credits := SumSeq(entries, SideOf(id, Debit)), SumSeq(entries, SideOf(id, Credit));
      && (a.kind in {Liability, Equity, Income, Contra} ==> t.balance == a.balance + credits - debits)
      && (a.kind in {Asset, Expense, Suspense} ==> t.balance == a.balance + debits - credits)
      && t == a.(balance := t.balance, version := t.version)
  {
    PostingMoves(b.accounts, entries, id);
    FittingIsWellFormed(b.accounts, entries);
    MovementIsDifference(entries, id, b.accounts[id].kind);
  }

  lemma FittingIsWellFormed(accounts: map<Id, Account>, entries: seq<Entry>)
    requires AllFit(accounts, entries)
    ensures AllWellFormed(entries)
  {
    forall i | 0 <= i < |entries|
      ensures WellFormed(entries[i])
    {
      assert Fits(accounts, entries[i]);
    }
  }

  /** What the first `k + 1` entries leave of the account of entry `k`, said in debits and credits. */
  ghost predicate Affords(accounts: map<Id, Account>, entries: seq<Entry>, k: nat)
    requires k < |entries| && entries[k].account in accounts
  {
    var id := entries[k].account;
    var debits, credits := SumSeq(entries[..k + 1], SideOf(id, Debit)), SumSeq(entries[..k + 1], SideOf(id, Credit));
    if accounts[id].kind in {Asset, Expense, Suspense} then credits <= accounts[id].balance + debits
    else debits <= accounts[id].balance + credits
  }

  /** A journal as it may be posted: at least two entries of one currency, positive amounts on the debit or the credit
      side, as much debited as credited, and accounts that exist, are active and have that currency. */
  ghost predicate Postable(accounts: map<Id, Account>, entries: seq<Entry>) {
    && |entries| >= 2
    && (forall i :: 0 <= i < |entries| ==>
          var e := entries[i];
          && (e.direction == Debit || e.direction == Credit) && e.amount > 0 && e.currency == entries[0].currency
          && e.account in accounts && accounts[e.account].active && accounts[e.account].currency == e.currency)
    && SumSeq(entries, (e: Entry) => if e.direction == Debit then e.amount else 0)
       == SumSeq(entries, (e: Entry) => if e.direction == Credit then e.amount else 0)
  }

  lemma CoverageOfPrefix(accounts: map<Id, Account>, entries: seq<Entry>, k: nat)
    requires AllWellFormed(entries) && k < |entries| && entries[k].account in accounts
    ensures Affords(accounts, entries, k) <==> PrefixCovers(accounts, entries, k)
  {
    MovementIsDifference(entries[..k + 1], entries[k].account, accounts[entries[k].account].kind);
  }

  lemma SidesAreEqual(entries: seq<Entry>)
    ensures SumSeq(entries, Side(Debit)) == SumSeq(entries, (e: Entry) => if e.direction == Debit then e.amount else 0)
    ensures SumSeq(entries, Side(Credit))
            == SumSeq(entries, (e: Entry) => if e.direction == Credit then e.amount else 0)
  {
    SumSame(entries, Side(Debit), entries, (e: Entry) => if e.direction == Debit then e.amount else 0);
    SumSame(entries, Side(Credit), entries, (e: Entry) => if e.direction == Credit then e.amount else 0);
  }

  /** Equal sides of positive entries are positive. */
  lemma EqualSidesArePositive(entries: seq<Entry>)
    requires entries != [] && AllWellFormed(entries) && SumSeq(entries, Side(Debit)) == SumSeq(entries, Side(Credit))
    ensures SumSeq(entries, Side(Debit)) > 0
  {
    SumNonnegative(entries, Side(Debit));
    SumNonnegative(entries, Side(Credit));
    assert Side(entries[0].direction)(entries[0]) > 0;
  }

  lemma PostableIsBalanced(accounts: map<Id, Account>, entries: seq<Entry>)
    ensures Postable(accounts, entries) <==> Balanced(entries) && AllFit(accounts, entries)
  {
    SidesAreEqual(entries);
    if Postable(accounts, entries) {
      assert AllFit(accounts, entries);
      FittingIsWellFormed(accounts, entries);
      EqualSidesArePositive(entries);
    }
  }

  lemma CoverageIsPrefixwise(accounts: map<Id, Account>, entries: seq<Entry>)
    requires AllFit(accounts, entries)
    ensures ApplyEntries(accounts, entries).Some? <==>
            forall k :: 0 <= k < |entries| ==> Fits(accounts, entries[k]) && Affords(accounts, entries, k)
  {
    FittingIsWellFormed(accounts, entries);
    PostingIsPrefixwise(accounts, entries);
    forall k | 0 <= k < |entries|
      ensures Affords(accounts, entries, k) <==> PrefixCovers(accounts, entries, k)
    {
      assert Fits(accounts, entries[k]);
      CoverageOfPrefix(accounts, entries, k);
    }
  }

  /** A journal is posted if and only if its id is new, it may be posted, and no entry finds its account short. */
  lemma PostedExactlyWhen(b: Books, id: Id, entries: seq<Entry>, reverses: Option<Id>)
    ensures PostJournal(b, id, entries, reverses).Ok? <==>
            && id !in b.journals && Postable(b.accounts, entries)
            && (forall k :: 0 <= k < |entries| ==> Affords(b.accounts, entries, k))
  {
    PostableIsBalanced(b.accounts, entries);
    if Postable(b.accounts, entries) {
      CoverageIsPrefixwise(b.accounts, entries);
    }
  }

  /** And then it adds its rows and its journal, and changes nothing but accounts besides. */
  lemma PostingWrites(b: Books, id: Id, entries: seq<Entry>, reverses: Option<Id>)
    requires PostJournal(b, id, entries, reverses).Ok?
    ensures
      var t := PostJournal(b, id, entries, reverses).value;
      && t.accounts.Keys == b.accounts.Keys && t.funds == b.funds && t.holds == b.holds
      && t.journals == b.journals[id := Journal(Posted, reverses)]
      && |t.rows| == |b.rows| + |entries| && b.rows <= t.rows
      && (forall i :: 0 <= i < |entries| ==> t.rows[|b.rows| + i] == Row(id, entries[i]))
  {
  }

  /** Accepted postings leave no balance negative. */
  lemma {:induction false} PostingKeepsNonnegative(accounts: map<Id, Account>, entries: seq<Entry>)
    requires AllFit(accounts, entries) && ApplyEntries(accounts, entries).Some?
    requires forall id :: id in accounts ==> accounts[id].balance >= 0
    ensures forall id :: id in accounts ==> ApplyEntries(accounts, entries).value[id].balance >= 0
    decreases |entries|
  {
    if entries != [] {
      PostingKeepsNonnegative(accounts, entries[..|entries| - 1]);
    }
  }

  // ----- the accounting equation -----

  /** Assets, expenses and suspense count positive, liabilities, equity, income and contra negative. */
  function Signed(kind: AccountType, amount: int): int {
    match kind
    case Asset | Expense | Suspense => amount
    case Liability | Equity | Income | Contra => -amount
  }

  /** A balance with its sign, in one currency. */
  function SignedIn(c: Currency): Account -> int {
    (a: Account) => if a.currency == c then Signed(a.kind, a.balance) else 0
  }

  ghost function Net(b: Books, c: Currency): int {
    Total(b.accounts, SignedIn(c))
  }

  function SidesIn(c: Currency): Entry -> int {
    (e: Entry) => if e.currency != c then 0 else if e.direction == Debit then e.amount else -e.amount
  }

  lemma {:induction false} EntriesMoveNet(accounts: map<Id, Account>, entries: seq<Entry>, c: Currency)
    requires AllFit(accounts, entries) && ApplyEntries(accounts, entries).Some?
    ensures Total(ApplyEntries(accounts, entries).value, SignedIn(c))
            == Total(accounts, SignedIn(c)) + SumSeq(entries, SidesIn(c))
    decreases |entries|
  {
    if entries != [] {
      var n := |entries| - 1;
      EntriesMoveNet(accounts, entries[..n], c);
      PostingIsPrefixwise(accounts, entries[..n]);
      var before := ApplyEntries(accounts, entries[..n]).value;
      var e := entries[n];
      TotalUpdate(before, SignedIn(c), e.account, ApplyEntries(accounts, entries).value[e.account]);
    }
  }

  lemma {:induction false} SidesSplit(entries: seq<Entry>, c: Currency, own: Currency)
    requires forall i :: 0 <= i < |entries| ==> entries[i].direction != OtherDirection && entries[i].currency == own
    ensures SumSeq(entries, SidesIn(c)) ==
            if c == own then SumSeq(entries, Side(Debit)) - SumSeq(entries, Side(Credit)) else 0
    decreases |entries|
  {
    if entries != [] {
      SidesSplit(entries[..|entries| - 1], c, own);
    }
  }

  lemma BalancedSidesCancel(accounts: map<Id, Account>, entries: seq<Entry>, c: Currency)
    requires Balanced(entries) && AllFit(accounts, entries)
    ensures SumSeq(entries, SidesIn(c)) == 0
  {
    SidesSplit(entries, c, entries[0].currency);
  }

  lemma PostingKeepsNet(b: Books, id: Id, entries: seq<Entry>, reverses: Option<Id>, c: Currency)
    requires PostJournal(b, id, entries, reverses).Ok?
    ensures Net(PostJournal(b, id, entries, reverses).value, c) == Net(b, c)
  {
    EntriesMoveNet(b.accounts, entries, c);
    BalancedSidesCancel(b.accounts, entries, c);
  }

  lemma {:induction false} GroupsKeepNet(b: Books, id: Id, currencies: seq<Currency>, entries: seq<Entry>,
                                         clearing: map<Currency, Id>, c: Currency)
    requires PostGroups(b, id, currencies, entries, clearing).Ok?
    ensures Net(PostGroups(b, id, currencies, entries, clearing).value, c) == Net(b, c)
    decreases |currencies|
  {
    if currencies != [] {
      var group := Group(entries, currencies[0]);
      PostingKeepsNet(b, id + ":" + currencies[0], group, None, c);
      GroupsKeepNet(PostJournal(b, id + ":" + currencies[0], group, None).value, id, currencies[1..], entries, clearing,
                    c);
    }
  }

  /** What an operation contributes to the net of a currency: only an opening balance or a consumption. */
  ghost function NetChange(b: Books, op: Op, c: Currency): int {
    if Attempt(b, op).Err? then 0
    else
      match op
      case OpenAccount(id, currency, kind, opening) =>
        if currency == c then Signed(kind, opening) else 0
      case Consume(id) =>
        if b.funds[id].state != Reserved then 0
        else
          var a := b.accounts[b.funds[id].account];
          if a.currency == c then -Signed(a.kind, b.funds[id].amount) else 0
      case _ => 0
  }

  /** An account whose reserved amount alone changed carries the same weight. */
  lemma ReservedEditKeepsNet(accounts: map<Id, Account>, id: Id, a: Account, c: Currency)
    requires id in accounts && a.(reserved := accounts[id].reserved, active := accounts[id].active) == accounts[id]
    ensures Total(accounts[id := a], SignedIn(c)) == Total(accounts, SignedIn(c))
  {
    TotalUpdate(accounts, SignedIn(c), id, a);
  }

  lemma FundsMoveNet(b: Books, op: Op, c: Currency)
    requires op.Reserve? || op.Release? || op.Consume?
    ensures Net(Apply(b, op), c) == Net(b, c) + NetChange(b, op, c)
  {
    if Attempt(b, op).Ok? {
      var t := Attempt(b, op).value;
      match op
      case Reserve(account, id, amount, currency) => ReservedEditKeepsNet(b.accounts, account, t.accounts[account], c);
      case Release(id) =>
        if b.funds[id].state == Reserved {
          ReservedEditKeepsNet(b.accounts, b.funds[id].account, t.accounts[b.funds[id].account], c);
        }
      case Consume(id) =>
        if b.funds[id].state == Reserved {
          TotalUpdate(b.accounts, SignedIn(c), b.funds[id].account, t.accounts[b.funds[id].account]);
        }
      case _ =>
    }
  }

  lemma HoldsMoveNothing(b: Books, op: Op, c: Currency)
    requires op.PlaceHold? || op.ChangeHold? || op.ReferenceHold?
    ensures Net(Apply(b, op), c) == Net(b, c) && NetChange(b, op, c) == 0
  {
    if Attempt(b, op).Ok? {
      var t := Attempt(b, op).value;
      match op
      case PlaceHold(id, account, amount, currency, expiresAt) =>
        ReservedEditKeepsNet(b.accounts, account, t.accounts[account], c);
      case ChangeHold(id, state, expected) =>
        if state != HoldUnknown {
          ReservedEditKeepsNet(b.accounts, b.holds[id].account, t.accounts[b.holds[id].account], c);
        }
      case _ =>
    }
  }

  lemma PostingsMoveNothing(b: Books, op: Op, c: Currency)
    requires op.Post? || op.PostMulti? || op.Reverse?
    ensures Net(Apply(b, op), c) == Net(b, c) && NetChange(b, op, c) == 0
  {
    if Attempt(b, op).Ok? {
      match op
      case Post(id, entries) => PostingKeepsNet(b, id, entries, None, c);
      case PostMulti(id, entries, clearing) => GroupsKeepNet(b, id, Currencies(entries), entries, clearing, c);
      case Reverse(id, reversal, readback, justified) => PostingKeepsNet(b, reversal, FlipAll(readback), Some(id), c);
      case _ =>
    }
  }

  lemma DraftsMoveNothing(b: Books, op: Op, c: Currency)
    requires op.MakeDraft? || op.Validate?
    ensures Net(Apply(b, op), c) == Net(b, c) && NetChange(b, op, c) == 0
  {
    assert Apply(b, op).accounts == b.accounts;
  }

  lemma AccountsMoveNet(b: Books, op: Op, c: Currency)
    requires op.OpenAccount? || op.SetActive?
    ensures Net(Apply(b, op), c) == Net(b, c) + NetChange(b, op, c)
  {
    if Attempt(b, op).Ok? {
      var t := Attempt(b, op).value;
      match op
      case OpenAccount(id, currency, kind, opening) => TotalInsert(b.accounts, SignedIn(c), id, t.accounts[id]);
      case SetActive(id, active) => ReservedEditKeepsNet(b.accounts, id, t.accounts[id], c);
      case _ =>
    }
  }

  lemma OperationMovesNet(b: Books, op: Op, c: Currency)
    ensures Net(Apply(b, op), c) == Net(b, c) + NetChange(b, op, c)
  {
    if op.Reserve? || op.Release? || op.Consume? {
      FundsMoveNet(b, op, c);
    } else if op.PlaceHold? || op.ChangeHold? || op.ReferenceHold? {
      HoldsMoveNothing(b, op, c);
    } else if op.OpenAccount? || op.SetActive? {
      AccountsMoveNet(b, op, c);
    } else if op.MakeDraft? || op.Validate? {
      DraftsMoveNothing(b, op, c);
    } else {
      PostingsMoveNothing(b, op, c);
    }
  }

  predicate JournalOp(op: Op) {
    !op.OpenAccount? && !op.Consume?
  }

  /** Assets, expenses and suspense minus liabilities, equity, income and contra, per currency: unchanged by every run
      of postings, multi-currency postings, reversals, drafts, reservations and holds. */
  lemma {:induction false} AccountingEquation(b: Books, ops: seq<Op>, c: Currency)
    requires forall i :: 0 <= i < |ops| ==> JournalOp(ops[i])
    ensures Net(Run(b, ops), c) == Net(b, c)
    decreases |ops|
  {
    if ops != [] {
      AccountingEquation(b, ops[..|ops| - 1], c);
      OperationMovesNet(Run(b, ops[..|ops| - 1]), ops[|ops| - 1], c);
    }
  }
}

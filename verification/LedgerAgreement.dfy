/** Cached balances and reserved amounts agree with journals, reservations and holds in every reachable state. */
module LedgerAgreement {
  import opened Results
  import opened Sums
  import opened Ledger
  import opened LedgerInvariant

  predicate IsPosted(journals: map<Id, Journal>, id: Id) {
    id in journals && journals[id].state == Posted
  }

  /** The weight of a row that counts only when its journal is posted. */
  function PostedRow(journals: map<Id, Journal>, g: Entry -> int): Row -> int {
    (r: Row) => if IsPosted(journals, r.journal) then g(r.entry) else 0
  }

  /** What the posted journals moved on an account. */
  ghost function PostedMovement(b: Books, id: Id): int
    requires id in b.accounts
  {
    SumSeq(b.rows, PostedRow(b.journals, MoveOn(id, b.accounts[id].kind)))
  }

  function FundOn(id: Id, state: FundState): Fund -> int {
    (f: Fund) => if f.account == id && f.state == state then f.amount else 0
  }

  /** A hold whose outcome is unknown keeps its funds reserved. */
  function HoldOn(id: Id): Hold -> int {
    (h: Hold) => if h.account == id && (h.state == Held || h.state == HoldUnknown) then h.amount else 0
  }

  /** The two agreements, for one account. */
  ghost predicate Agrees(b: Books, id: Id)
    requires id in b.accounts
  {
    var a := b.accounts[id];
    && a.balance >= 0
    && a.balance == a.opening + PostedMovement(b, id) - Total(b.funds, FundOn(id, Consumed))
    && a.reserved == Total(b.funds, FundOn(id, Reserved)) + Total(b.holds, HoldOn(id))
  }

  predicate RowsAttached(b: Books) {
    forall i :: 0 <= i < |b.rows| ==>
                  var r := b.rows[i];
                  && r.journal in b.journals
                  && (IsPosted(b.journals, r.journal) ==>
                        && r.entry.amount > 0 && r.entry.direction != OtherDirection
                        && r.entry.account in b.accounts && b.accounts[r.entry.account].currency == r.entry.currency)
  }

  predicate FundsAttached(b: Books) {
    && (forall id :: id in b.funds ==> b.funds[id].account in b.accounts && b.funds[id].amount > 0)
    && (forall id :: id in b.holds ==> b.holds[id].account in b.accounts && b.holds[id].amount > 0)
  }

  /** Posted debits equal posted credits in every currency. */
  ghost predicate SidesCancel(b: Books) {
    forall c :: SumSeq(b.rows, PostedRow(b.journals, SidesIn(c))) == 0
  }

  ghost predicate AllAgree(b: Books) {
    forall id :: id in b.accounts ==> Agrees(b, id)
  }

  ghost predicate Inv(b: Books) {
    RowsAttached(b) && FundsAttached(b) && SidesCancel(b) && AllAgree(b)
  }

  // ----- journals -----

  /** A new journal adds its entries when it is posted and nothing otherwise. */
  lemma PostedAfterAppend(b: Books, id: Id, j: Journal, entries: seq<Entry>, g: Entry -> int)
    requires RowsAttached(b) && id !in b.journals
    ensures SumSeq(b.rows + RowsOf(id, entries), PostedRow(b.journals[id := j], g))
            == SumSeq(b.rows, PostedRow(b.journals, g)) + if j.state == Posted then SumSeq(entries, g) else 0
  {
    var rows, w := RowsOf(id, entries), PostedRow(b.journals[id := j], g);
    SumConcat(b.rows, rows, w);
    forall i | 0 <= i < |b.rows|
      ensures w(b.rows[i]) == PostedRow(b.journals, g)(b.rows[i])
    {
      var r := b.rows[i];
      assert r.journal in b.journals && r.journal != id;
      assert IsPosted(b.journals[id := j], r.journal) == IsPosted(b.journals, r.journal);
    }
    SumSame(b.rows, w, b.rows, PostedRow(b.journals, g));
    if j.state == Posted {
      SumSame(rows, w, entries, g);
    } else {
      SumSame(rows, w, rows, (r: Row) => 0);
      SumOfZeros(rows, (r: Row) => 0);
    }
  }

  lemma {:induction false} SumOfZeros<T>(s: seq<T>, w: T -> int)
    requires forall x :: w(x) == 0
    ensures SumSeq(s, w) == 0
    decreases |s|
  {
    if s != [] {
      SumOfZeros(s[..|s| - 1], w);
    }
  }

  lemma PostingAgrees(b: Books, id: Id, entries: seq<Entry>, reverses: Option<Id>, a: Id)
    requires RowsAttached(b) && PostJournal(b, id, entries, reverses).Ok?
    requires forall x :: x in b.accounts ==> b.accounts[x].balance >= 0
    requires a in b.accounts && Agrees(b, a)
    ensures a in PostJournal(b, id, entries, reverses).value.accounts
            && Agrees(PostJournal(b, id, entries, reverses).value, a)
  {
    PostingMoves(b.accounts, entries, a);
    PostingKeepsNonnegative(b.accounts, entries);
    PostedAfterAppend(b, id, Journal(Posted, reverses), entries, MoveOn(a, b.accounts[a].kind));
  }

  lemma PostingAttaches(b: Books, id: Id, entries: seq<Entry>, reverses: Option<Id>)
    requires RowsAttached(b) && PostJournal(b, id, entries, reverses).Ok?
    ensures RowsAttached(PostJournal(b, id, entries, reverses).value)
  {
    var t := PostJournal(b, id, entries, reverses).value;
    forall i | 0 <= i < |t.rows|
      ensures t.rows[i].journal in t.journals
      ensures IsPosted(t.journals, t.rows[i].journal) ==>
                && t.rows[i].entry.amount > 0 && t.rows[i].entry.direction != OtherDirection
                && t.rows[i].entry.account in t.accounts
                   && t.accounts[t.rows[i].entry.account].currency == t.rows[i].entry.currency
    {
      if i < |b.rows| {
        assert t.rows[i] == b.rows[i] && b.rows[i].journal in b.journals;
      } else {
        assert t.rows[i].entry == entries[i - |b.rows|] && Fits(b.accounts, entries[i - |b.rows|]);
      }
      if t.rows[i].entry.account in b.accounts {
        PostingMoves(b.accounts, entries, t.rows[i].entry.account);
      }
    }
  }

  lemma PostingCancels(b: Books, id: Id, entries: seq<Entry>, reverses: Option<Id>, c: Currency)
    requires RowsAttached(b) && SidesCancel(b) && PostJournal(b, id, entries, reverses).Ok?
    ensures
      var t := PostJournal(b, id, entries, reverses).value;
      SumSeq(t.rows, PostedRow(t.journals, SidesIn(c))) == 0
  {
    PostedAfterAppend(b, id, Journal(Posted, reverses), entries, SidesIn(c));
    BalancedSidesCancel(b.accounts, entries, c);
  }

  lemma PostingKeepsInv(b: Books, id: Id, entries: seq<Entry>, reverses: Option<Id>)
    requires Inv(b) && PostJournal(b, id, entries, reverses).Ok?
    ensures Inv(PostJournal(b, id, entries, reverses).value)
  {
    var t := PostJournal(b, id, entries, reverses).value;
    assert forall x :: x in b.accounts ==> Agrees(b, x);
    forall a | a in t.accounts
      ensures Agrees(t, a)
    {
      PostingAgrees(b, id, entries, reverses, a);
    }
    forall c
      ensures SumSeq(t.rows, PostedRow(t.journals, SidesIn(c))) == 0
    {
      PostingCancels(b, id, entries, reverses, c);
    }
    PostingAttaches(b, id, entries, reverses);
  }

  lemma {:induction false} GroupsKeepInv(b: Books, id: Id, currencies: seq<Currency>, entries: seq<Entry>,
                                         clearing: map<Currency, Id>)
    requires Inv(b) && PostGroups(b, id, currencies, entries, clearing).Ok?
    ensures Inv(PostGroups(b, id, currencies, entries, clearing).value)
    decreases |currencies|
  {
    if currencies != [] {
      var group := Group(entries, currencies[0]);
      PostingKeepsInv(b, id + ":" + currencies[0], group, None);
      GroupsKeepInv(PostJournal(b, id + ":" + currencies[0], group, None).value, id, currencies[1..], entries,
                    clearing);
    }
  }

  lemma DraftKeepsInv(b: Books, id: Id, entries: seq<Entry>)
    requires Inv(b) && CreateDraft(b, id, entries).Ok?
    ensures Inv(CreateDraft(b, id, entries).value)
  {
    var t := CreateDraft(b, id, entries).value;
    forall a | a in t.accounts
      ensures Agrees(t, a)
    {
      assert Agrees(b, a);
      PostedAfterAppend(b, id, Journal(Draft, None), entries, MoveOn(a, b.accounts[a].kind));
    }
    forall c
      ensures SumSeq(t.rows, PostedRow(t.journals, SidesIn(c))) == 0
    {
      PostedAfterAppend(b, id, Journal(Draft, None), entries, SidesIn(c));
    }
    forall i | 0 <= i < |t.rows|
      ensures t.rows[i].journal in t.journals
      ensures IsPosted(t.journals, t.rows[i].journal) ==>
                i < |b.rows| && t.rows[i] == b.rows[i] && IsPosted(b.journals, b.rows[i].journal)
    {
      if i < |b.rows| {
        assert t.rows[i] == b.rows[i];
      } else {
        assert t.rows[i].journal == id;
      }
    }
  }

  lemma ValidationKeepsInv(b: Books, id: Id)
    requires Inv(b) && ValidateJournal(b, id).Ok?
    ensures Inv(ValidateJournal(b, id).value)
  {
    var t := ValidateJournal(b, id).value;
    assert forall j :: IsPosted(t.journals, j) <==> IsPosted(b.journals, j);
    forall a | a in t.accounts
      ensures Agrees(t, a)
    {
      assert Agrees(b, a);
      var g := MoveOn(a, b.accounts[a].kind);
      SumSame(b.rows, PostedRow(b.journals, g), t.rows, PostedRow(t.journals, g));
    }
    forall c
      ensures SumSeq(t.rows, PostedRow(t.journals, SidesIn(c))) == 0
    {
      SumSame(b.rows, PostedRow(b.journals, SidesIn(c)), t.rows, PostedRow(t.journals, SidesIn(c)));
    }
  }

  // ----- reservations and holds -----

  /** Books that differ in amounts of accounts, in reservations and in holds. */
  predicate SameFrame(b: Books, t: Books) {
    && t.rows == b.rows && t.journals == b.journals && t.accounts.Keys == b.accounts.Keys
    && (forall a :: a in b.accounts ==> t.accounts[a].currency == b.accounts[a].currency)
  }

  lemma FrameKeepsRows(b: Books, t: Books)
    requires RowsAttached(b) && SameFrame(b, t)
    ensures RowsAttached(t)
  {
    assert forall i :: 0 <= i < |t.rows| ==> t.rows[i] == b.rows[i];
  }

  /** The books after an account row changed without touching rows or journals. */
  lemma AccountEditKeepsInv(b: Books, t: Books)
    requires RowsAttached(b) && SidesCancel(b) && SameFrame(b, t) && FundsAttached(t) && AllAgree(t)
    ensures Inv(t)
  {
    FrameKeepsRows(b, t);
  }

  lemma OpeningKeepsInv(b: Books, id: Id, currency: Currency, kind: AccountType, opening: int)
    requires Inv(b) && CreateAccount(b, id, currency, kind, opening).Ok?
    ensures Inv(CreateAccount(b, id, currency, kind, opening).value)
  {
    var t := CreateAccount(b, id, currency, kind, opening).value;
    forall a | a in t.accounts
      ensures Agrees(t, a)
    {
      if a == id {
        SumSame(b.rows, PostedRow(b.journals, MoveOn(id, kind)), b.rows, (r: Row) => 0);
        SumOfZeros(b.rows, (r: Row) => 0);
        NoFunds(b.funds, FundOn(id, Consumed));
        NoFunds(b.funds, FundOn(id, Reserved));
        NoFunds(b.holds, HoldOn(id));
      } else {
        assert Agrees(b, a);
      }
    }
  }

  lemma {:induction false} NoFunds<V(!new)>(m: map<Id, V>, w: V -> int)
    requires forall k :: k in m ==> w(m[k]) == 0
    ensures Total(m, w) == 0
    decreases |m|
  {
    if m != map[] {
      var k :| k in m && Total(m, w) == w(m[k]) + Total(m - {k}, w);
      NoFunds(m - {k}, w);
    }
  }

  /** One reservation row and at most one account's amounts changed: the agreement of account `a`. */
  lemma FundEditAgrees(b: Books, t: Books, id: Id, a: Id, reserved: int, consumed: int)
    requires a in b.accounts && Agrees(b, a) && t.rows == b.rows && t.journals == b.journals && t.holds == b.holds
    requires id in t.funds && t.funds == b.funds[id := t.funds[id]]
    requires a in t.accounts
    requires t.accounts[a] == b.accounts[a].(reserved := b.accounts[a].reserved + reserved,
                                             balance := b.accounts[a].balance - consumed)
    requires t.accounts[a].balance >= 0
    requires reserved
             == FundOn(a, Reserved)(t.funds[id]) - if id in b.funds then FundOn(a, Reserved)(b.funds[id]) else 0
    requires consumed
             == FundOn(a, Consumed)(t.funds[id]) - if id in b.funds then FundOn(a, Consumed)(b.funds[id]) else 0
    ensures Agrees(t, a)
  {
    if id in b.funds {
      TotalUpdate(b.funds, FundOn(a, Reserved), id, t.funds[id]);
      TotalUpdate(b.funds, FundOn(a, Consumed), id, t.funds[id]);
    } else {
      TotalInsert(b.funds, FundOn(a, Reserved), id, t.funds[id]);
      TotalInsert(b.funds, FundOn(a, Consumed), id, t.funds[id]);
    }
  }

  /** The same for one hold row. */
  lemma HoldEditAgrees(b: Books, t: Books, id: Id, a: Id, reserved: int)
    requires a in b.accounts && Agrees(b, a) && t.rows == b.rows && t.journals == b.journals && t.funds == b.funds
    requires id in t.holds && t.holds == b.holds[id := t.holds[id]]
    requires a in t.accounts && t.accounts[a] == b.accounts[a].(reserved := b.accounts[a].reserved + reserved)
    requires reserved == HoldOn(a)(t.holds[id]) - if id in b.holds then HoldOn(a)(b.holds[id]) else 0
    ensures Agrees(t, a)
  {
    if id in b.holds {
      TotalUpdate(b.holds, HoldOn(a), id, t.holds[id]);
    } else {
      TotalInsert(b.holds, HoldOn(a), id, t.holds[id]);
    }
  }

  /** The books with a new reservation. */
  function WithFund(b: Books, account: Id, id: Id, amount: int): Books
    requires account in b.accounts
  {
    WithReserved(b, account, amount).(funds := b.funds[id := Fund(account, amount, Reserved)])
  }

  lemma NewFundAgrees(b: Books, account: Id, id: Id, amount: int)
    requires AllAgree(b) && account in b.accounts && id !in b.funds && amount > 0
    ensures AllAgree(WithFund(b, account, id, amount))
  {
    forall a | a in b.accounts
      ensures Agrees(WithFund(b, account, id, amount), a)
    {
      assert Agrees(b, a);
      FundEditAgrees(b, WithFund(b, account, id, amount), id, a, if a == account then amount else 0, 0);
    }
  }

  lemma NewFundAttaches(b: Books, account: Id, id: Id, amount: int)
    requires FundsAttached(b) && account in b.accounts && amount > 0
    ensures FundsAttached(WithFund(b, account, id, amount)) && SameFrame(b, WithFund(b, account, id, amount))
  {
  }

  lemma NewFundKeepsInv(b: Books, account: Id, id: Id, amount: int)
    requires Inv(b) && account in b.accounts && id !in b.funds && amount > 0
    ensures Inv(WithFund(b, account, id, amount))
  {
    NewFundAgrees(b, account, id, amount);
    NewFundAttaches(b, account, id, amount);
    AccountEditKeepsInv(b, WithFund(b, account, id, amount));
  }

  /** A reservation's or hold's own amount is inside its account's reserved sum. */
  lemma ReservedCoversFund(b: Books, id: Id, a: Id)
    requires FundsAttached(b) && id in b.funds && b.funds[id].state == Reserved && a == b.funds[id].account
             && Agrees(b, a)
    ensures b.funds[id].amount <= b.accounts[a].reserved
  {
    TotalBounds(b.funds, FundOn(a, Reserved));
    TotalBounds(b.holds, HoldOn(a));
    assert FundOn(a, Reserved)(b.funds[id]) == b.funds[id].amount;
  }

  lemma ReservedCoversHold(b: Books, id: Id, a: Id)
    requires FundsAttached(b) && id in b.holds && b.holds[id].state == Held && a == b.holds[id].account && Agrees(b, a)
    ensures b.holds[id].amount <= b.accounts[a].reserved
  {
    TotalBounds(b.funds, FundOn(a, Reserved));
    TotalBounds(b.holds, HoldOn(a));
    assert HoldOn(a)(b.holds[id]) == b.holds[id].amount;
  }

  /** The books after reservation `id` left RESERVED for `state`. */
  function Freed(b: Books, id: Id, state: FundState): Books
    requires id in b.funds && b.funds[id].account in b.accounts
  {
    var f := b.funds[id];
    var a := b.accounts[f.account];
    b.(accounts := b.accounts[f.account := a.(reserved := a.reserved - f.amount,
                                              balance := a.balance - if state == Consumed then f.amount else 0)],
       funds := b.funds[id := f.(state := state)])
  }

  lemma FreedFundAgrees(b: Books, id: Id, state: FundState, a: Id)
    requires id in b.funds && b.funds[id].state == Reserved && state != Reserved && b.funds[id].account in b.accounts
    requires a in b.accounts && Agrees(b, a) && Freed(b, id, state).accounts[a].balance >= 0
    ensures Agrees(Freed(b, id, state), a)
  {
    var amount := if a == b.funds[id].account then b.funds[id].amount else 0;
    FundEditAgrees(b, Freed(b, id, state), id, a, -amount, if state == Consumed then amount else 0);
  }

  lemma FreeingAgrees(b: Books, id: Id, state: FundState)
    requires AllAgree(b) && id in b.funds && b.funds[id].state == Reserved && state != Reserved
             && b.funds[id].account in b.accounts
    requires state == Consumed ==> b.accounts[b.funds[id].account].balance >= b.funds[id].amount
    ensures AllAgree(Freed(b, id, state))
  {
    forall a | a in b.accounts
      ensures Agrees(Freed(b, id, state), a)
    {
      assert Agrees(b, a);
      FreedFundAgrees(b, id, state, a);
    }
  }

  lemma FreedStaysAttached(b: Books, id: Id, state: FundState)
    requires FundsAttached(b) && id in b.funds
    ensures FundsAttached(Freed(b, id, state)) && SameFrame(b, Freed(b, id, state))
  {
  }

  lemma FreeingKeepsInv(b: Books, id: Id, state: FundState)
    requires Inv(b) && id in b.funds && b.funds[id].state == Reserved && state != Reserved
    requires b.funds[id].account in b.accounts
    requires state == Consumed ==> b.accounts[b.funds[id].account].balance >= b.funds[id].amount
    ensures Inv(Freed(b, id, state))
  {
    FreeingAgrees(b, id, state);
    FreedStaysAttached(b, id, state);
    AccountEditKeepsInv(b, Freed(b, id, state));
  }

  /** Releasing and consuming subtract exactly the reservation, and an ending hold exactly what it held: the clamps at
      zero never bite, and the subtraction that has no clamp never goes below zero. */
  lemma ClampsNeverBite(b: Books, id: Id)
    requires Inv(b)
    ensures id in b.funds && b.funds[id].state == Reserved ==>
              && b.funds[id].account in b.accounts
              && 0 < b.funds[id].amount <= b.accounts[b.funds[id].account].reserved
              && ReleaseFunds(b, id) == Ok(Freed(b, id, Released))
              && (ConsumeFunds(b, id).Ok? <==> b.accounts[b.funds[id].account].balance >= b.funds[id].amount)
              && (ConsumeFunds(b, id).Ok? ==> ConsumeFunds(b, id).value == Freed(b, id, Consumed))
    ensures id in b.holds && b.holds[id].state == Held ==>
              && b.holds[id].account in b.accounts
              && 0 < b.holds[id].amount <= b.accounts[b.holds[id].account].reserved
  {
    if id in b.funds && b.funds[id].state == Reserved {
      var a := b.funds[id].account;
      assert Agrees(b, a);
      ReservedCoversFund(b, id, a);
      FreeingIsExact(b, id);
    }
    if id in b.holds && b.holds[id].state == Held {
      var a := b.holds[id].account;
      assert Agrees(b, a);
      ReservedCoversHold(b, id, a);
    }
  }

  lemma FreeingIsExact(b: Books, id: Id)
    requires id in b.funds && b.funds[id].state == Reserved && b.funds[id].account in b.accounts
    requires b.funds[id].amount <= b.accounts[b.funds[id].account].reserved
    ensures ReleaseFunds(b, id) == Ok(Freed(b, id, Released))
    ensures ConsumeFunds(b, id).Ok? <==> b.accounts[b.funds[id].account].balance >= b.funds[id].amount
    ensures ConsumeFunds(b, id).Ok? ==> ConsumeFunds(b, id).value == Freed(b, id, Consumed)
  {
  }

  /** The books with a new hold. */
  function WithHold(b: Books, id: Id, h: Hold): Books
    requires h.account in b.accounts
  {
    WithReserved(b, h.account, h.amount).(holds := b.holds[id := h])
  }

  lemma HoldingAgrees(b: Books, id: Id, h: Hold)
    requires AllAgree(b) && h.account in b.accounts && id !in b.holds && h.state == Held
    ensures AllAgree(WithHold(b, id, h))
  {
    forall a | a in b.accounts
      ensures Agrees(WithHold(b, id, h), a)
    {
      assert Agrees(b, a);
      HoldEditAgrees(b, WithHold(b, id, h), id, a, HoldOn(a)(h));
    }
  }

  lemma HoldingAttaches(b: Books, id: Id, h: Hold)
    requires FundsAttached(b) && h.account in b.accounts && h.amount > 0
    ensures FundsAttached(WithHold(b, id, h)) && SameFrame(b, WithHold(b, id, h))
  {
  }

  lemma HoldingKeepsInv(b: Books, id: Id, h: Hold)
    requires Inv(b) && h.account in b.accounts && id !in b.holds && h.amount > 0 && h.state == Held
    ensures Inv(WithHold(b, id, h))
  {
    HoldingAgrees(b, id, h);
    HoldingAttaches(b, id, h);
    AccountEditKeepsInv(b, WithHold(b, id, h));
  }

  lemma MovedHoldAgrees(b: Books, id: Id, state: HoldState, expected: int, a: Id)
    requires a in b.accounts && Agrees(b, a) && MoveHold(b, id, state, expected).Ok?
             && b.holds[id].account in b.accounts
    ensures a in MoveHold(b, id, state, expected).value.accounts && Agrees(MoveHold(b, id, state, expected).value, a)
  {
    var t := MoveHold(b, id, state, expected).value;
    HoldEditAgrees(b, t, id, a, HoldOn(a)(t.holds[id]) - HoldOn(a)(b.holds[id]));
  }

  lemma HoldMoveAttaches(b: Books, id: Id, state: HoldState, expected: int)
    requires FundsAttached(b) && MoveHold(b, id, state, expected).Ok?
    ensures FundsAttached(MoveHold(b, id, state, expected).value)
            && SameFrame(b, MoveHold(b, id, state, expected).value)
  {
  }

  lemma HoldMoveAgrees(b: Books, id: Id, state: HoldState, expected: int)
    requires AllAgree(b) && FundsAttached(b) && MoveHold(b, id, state, expected).Ok?
    ensures AllAgree(MoveHold(b, id, state, expected).value)
  {
    HoldMoveAttaches(b, id, state, expected);
    forall a | a in b.accounts
      ensures Agrees(MoveHold(b, id, state, expected).value, a)
    {
      assert Agrees(b, a);
      MovedHoldAgrees(b, id, state, expected, a);
    }
  }

  lemma HoldMoveKeepsInv(b: Books, id: Id, state: HoldState, expected: int)
    requires Inv(b) && MoveHold(b, id, state, expected).Ok?
    ensures Inv(MoveHold(b, id, state, expected).value)
  {
    HoldMoveAgrees(b, id, state, expected);
    HoldMoveAttaches(b, id, state, expected);
    AccountEditKeepsInv(b, MoveHold(b, id, state, expected).value);
  }

  function Referenced(b: Books, id: Id): Books
    requires id in b.holds
  {
    b.(holds := b.holds[id := b.holds[id].(referenced := true)])
  }

  lemma ReferencingAgrees(b: Books, id: Id)
    requires AllAgree(b) && id in b.holds
    ensures AllAgree(Referenced(b, id))
  {
    var t := Referenced(b, id);
    forall a | a in b.accounts
      ensures Agrees(t, a)
    {
      assert Agrees(b, a);
      HoldEditAgrees(b, t, id, a, HoldOn(a)(t.holds[id]) - HoldOn(a)(b.holds[id]));
    }
  }

  lemma ReferencingKeepsInv(b: Books, id: Id)
    requires Inv(b) && id in b.holds
    ensures Inv(Referenced(b, id))
  {
    ReferencingAgrees(b, id);
    assert FundsAttached(Referenced(b, id));
    AccountEditKeepsInv(b, Referenced(b, id));
  }

  lemma ActivityKeepsInv(b: Books, id: Id, active: bool)
    requires Inv(b) && id in b.accounts
    ensures Inv(b.(accounts := b.accounts[id := b.accounts[id].(active := active)]))
  {
    var t := b.(accounts := b.accounts[id := b.accounts[id].(active := active)]);
    forall a | a in t.accounts
      ensures Agrees(t, a)
    {
      assert Agrees(b, a);
    }
    AccountEditKeepsInv(b, t);
  }

  // ----- every operation, every run -----

  lemma JournalsKeepInv(b: Books, op: Op)
    requires Inv(b) && Attempt(b, op).Ok?
    requires op.Post? || op.PostMulti? || op.MakeDraft? || op.Validate? || op.Reverse?
    ensures Inv(Attempt(b, op).value)
  {
    match op
    case Post(id, entries) => PostingKeepsInv(b, id, entries, None);
    case PostMulti(id, entries, clearing) => GroupsKeepInv(b, id, Currencies(entries), entries, clearing);
    case MakeDraft(id, entries) => DraftKeepsInv(b, id, entries);
    case Validate(id) => ValidationKeepsInv(b, id);
    case Reverse(id, reversal, readback, justified) => PostingKeepsInv(b, reversal, FlipAll(readback), Some(id));
    case _ =>
  }

  lemma FundsKeepInv(b: Books, op: Op)
    requires Inv(b) && Attempt(b, op).Ok? && (op.Reserve? || op.Release? || op.Consume?)
    ensures Inv(Attempt(b, op).value)
  {
    match op
    case Reserve(account, id, amount, currency) =>
      if id !in b.funds {
        NewFundKeepsInv(b, account, id, amount);
      }
    case Release(id) =>
      if b.funds[id].state == Reserved {
        ClampsNeverBite(b, id);
        FreeingKeepsInv(b, id, Released);
      }
    case Consume(id) =>
      if b.funds[id].state == Reserved {
        ClampsNeverBite(b, id);
        FreeingKeepsInv(b, id, Consumed);
      }
    case _ =>
  }

  lemma HoldsKeepInv(b: Books, op: Op)
    requires Inv(b) && Attempt(b, op).Ok? && (op.PlaceHold? || op.ChangeHold? || op.ReferenceHold?)
    ensures Inv(Attempt(b, op).value)
  {
    match op
    case PlaceHold(id, account, amount, currency, expiresAt) =>
      HoldingKeepsInv(b, id, Hold(account, amount, Held, 1, expiresAt, false));
    case ChangeHold(id, state, expected) => HoldMoveKeepsInv(b, id, state, expected);
    case ReferenceHold(id) => ReferencingKeepsInv(b, id);
    case _ =>
  }

  lemma AccountsKeepInv(b: Books, op: Op)
    requires Inv(b) && Attempt(b, op).Ok? && (op.OpenAccount? || op.SetActive?)
    ensures Inv(Attempt(b, op).value)
  {
    match op
    case OpenAccount(id, currency, kind, opening) => OpeningKeepsInv(b, id, currency, kind, opening);
    case SetActive(id, active) => ActivityKeepsInv(b, id, active);
    case _ =>
  }

  lemma OperationKeepsInv(b: Books, op: Op)
    requires Inv(b)
    ensures Inv(Apply(b, op))
  {
    if Attempt(b, op).Ok? {
      if op.OpenAccount? || op.SetActive? {
        AccountsKeepInv(b, op);
      } else if op.Reserve? || op.Release? || op.Consume? {
        FundsKeepInv(b, op);
      } else if op.PlaceHold? || op.ChangeHold? || op.ReferenceHold? {
        HoldsKeepInv(b, op);
      } else {
        JournalsKeepInv(b, op);
      }
    }
  }

  lemma EmptyBooksHold()
    ensures Inv(EMPTY)
  {
  }

  lemma {:induction false} RunKeepsInv(b: Books, ops: seq<Op>)
    requires Inv(b)
    ensures Inv(Run(b, ops))
    decreases |ops|
  {
    if ops != [] {
      RunKeepsInv(b, ops[..|ops| - 1]);
      OperationKeepsInv(Run(b, ops[..|ops| - 1]), ops[|ops| - 1]);
    }
  }
}

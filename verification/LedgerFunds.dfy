/** Reservations and holds in every run of the subledger: exactly when funds are set aside, and what frees them. */
module LedgerFunds {
  import opened Results
  import opened Sums
  import opened Text
  import opened Ledger
  import opened LedgerAgreement

  /** What an account still has: its balance without what is RESERVED, HELD, or of unknown outcome. */
  ghost function Available(b: Books, account: Id): int
    requires account in b.accounts
  {
    b.accounts[account].balance - Total(b.funds, FundOn(account, Reserved)) - Total(b.holds, HoldOn(account))
  }

  lemma AvailableIsCached(ops: seq<Op>, account: Id)
    requires account in Run(EMPTY, ops).accounts
    ensures
      var b := Run(EMPTY, ops);
      Inv(b) && Available(b, account) == b.accounts[account].balance - b.accounts[account].reserved
  {
    EmptyBooksHold();
    RunKeepsInv(EMPTY, ops);
    assert Agrees(Run(EMPTY, ops), account);
  }

  /** Only the reserved amount of one account has changed, by `amount`. */
  predicate SetAside(b: Books, t: Books, account: Id, amount: int) {
    && account in b.accounts && t.rows == b.rows && t.journals == b.journals
    && t.accounts == b.accounts[account := b.accounts[account].(reserved := b.accounts[account].reserved + amount)]
  }

  /** A new reservation is made if and only if its amount is positive and available on an active account of its
      currency; one with a known id changes nothing. */
  lemma {:induction false} ReservedExactlyWhen(ops: seq<Op>, account: Id, id: Id, amount: int, currency: Currency)
    ensures
      var b := Run(EMPTY, ops);
      var r := ReserveFunds(b, account, id, amount, currency);
      && (r.Ok? <==>
            && account in b.accounts && b.accounts[account].active && b.accounts[account].currency == currency
            && (id in b.funds || (amount > 0 && amount <= Available(b, account))))
      && (r.Ok? && id in b.funds ==> r.value == b)
      && (r.Ok? && id !in b.funds ==>
            && SetAside(b, r.value, account, amount) && r.value.holds == b.holds
            && r.value.funds == b.funds[id := Fund(account, amount, Reserved)])
  {
    if account in Run(EMPTY, ops).accounts {
      AvailableIsCached(ops, account);
    }
  }

  /** Releasing a RESERVED reservation takes its amount off what is reserved; any other reservation stays. */
  lemma {:induction false} ReleasedExactlyWhen(ops: seq<Op>, id: Id)
    ensures
      var b := Run(EMPTY, ops);
      var r := ReleaseFunds(b, id);
      && (r.Ok? <==> id in b.funds)
      && (r.Ok? && b.funds[id].state != Reserved ==> r.value == b)
      && (r.Ok? && b.funds[id].state == Reserved ==>
            && SetAside(b, r.value, b.funds[id].account, -b.funds[id].amount) && r.value.holds == b.holds
            && r.value.funds == b.funds[id := Fund(b.funds[id].account, b.funds[id].amount, Released)])
  {
    EmptyBooksHold();
    RunKeepsInv(EMPTY, ops);
    ReleasedAt(Run(EMPTY, ops), id);
  }

  lemma ReleasedAt(b: Books, id: Id)
    requires Inv(b)
    ensures
      var r := ReleaseFunds(b, id);
      && (r.Ok? <==> id in b.funds)
      && (r.Ok? && b.funds[id].state != Reserved ==> r.value == b)
      && (r.Ok? && b.funds[id].state == Reserved ==>
            && SetAside(b, r.value, b.funds[id].account, -b.funds[id].amount) && r.value.holds == b.holds
            && r.value.funds == b.funds[id := Fund(b.funds[id].account, b.funds[id].amount, Released)])
  {
    ClampsNeverBite(b, id);
  }

  /** Consuming a RESERVED reservation takes its amount off balance and reserved amount alike. It is refused exactly
      when postings have left less than that on the account. */
  lemma {:induction false} ConsumedExactlyWhen(ops: seq<Op>, id: Id)
    ensures
      var b := Run(EMPTY, ops);
      var r := ConsumeFunds(b, id);
      && (r.Ok? <==>
            id in b.funds && (b.funds[id].state == Reserved ==>
                                b.funds[id].account in b.accounts
                                && b.accounts[b.funds[id].account].balance >= b.funds[id].amount))
      && (r.Ok? && b.funds[id].state != Reserved ==> r.value == b)
      && (r.Ok? && b.funds[id].state == Reserved ==>
            var f := b.funds[id];
            var a := b.accounts[f.account];
            && r.value.rows == b.rows && r.value.journals == b.journals && r.value.holds == b.holds
            && r.value.accounts == b.accounts[f.account := a.(balance := a.balance - f.amount,
                                                              reserved := a.reserved - f.amount)]
            && r.value.funds == b.funds[id := Fund(f.account, f.amount, Consumed)])
  {
    EmptyBooksHold();
    RunKeepsInv(EMPTY, ops);
    ClampsNeverBite(Run(EMPTY, ops), id);
  }

  /** A hold is placed if and only if its id is new and its amount is positive and available on an active account of its
      currency in capitals. */
  lemma {:induction false} HeldExactlyWhen(ops: seq<Op>, id: Id, account: Id, amount: int, currency: Currency,
                                           expiresAt: Option<int>)
    ensures
      var b := Run(EMPTY, ops);
      var r := CreateHold(b, id, account, amount, currency, expiresAt);
      && (r.Ok? <==>
            && id !in b.holds && account in b.accounts && b.accounts[account].active
            && b.accounts[account].currency == Upper(currency) && 0 < amount <= Available(b, account))
      && (r.Ok? ==>
            && SetAside(b, r.value, account, amount) && r.value.funds == b.funds
            && r.value.holds == b.holds[id := Hold(account, amount, Held, 1, expiresAt, false)])
  {
    if account in Run(EMPTY, ops).accounts {
      AvailableIsCached(ops, account);
    }
  }

  lemma MovedHold(b: Books, id: Id, state: HoldState, expected: int)
    requires id in b.holds && b.holds[id].account in b.accounts
    requires b.holds[id].state == Held && b.holds[id].version == expected && state != Held
    ensures
      var r, h := MoveHold(b, id, state, expected), b.holds[id];
      && r.Ok? && SetAside(b, r.value, h.account, if state == HoldUnknown then 0 else -h.amount)
      && r.value.funds == b.funds && r.value.holds == b.holds[id := h.(state := state, version := h.version + 1)]
  {
    var account := b.holds[id].account;
    var a := b.accounts[account];
    assert b.accounts[account := a.(reserved := a.reserved + 0)] == b.accounts;
  }

  /** A hold moves on if and only if it is HELD, at the version expected, and moves away. Its funds are freed unless its
      outcome is unknown. */
  predicate HoldChanged(b: Books, r: Result<Books>, id: Id, state: HoldState, expected: int) {
    && (r.Ok? <==> id in b.holds && b.holds[id].state == Held && b.holds[id].version == expected && state != Held)
    && (r.Ok? ==>
          var h := b.holds[id];
          && SetAside(b, r.value, h.account, if state == HoldUnknown then 0 else -h.amount)
          && r.value.funds == b.funds && r.value.holds == b.holds[id := h.(state := state, version := h.version + 1)])
  }

  lemma {:induction false} ChangedExactlyWhen(ops: seq<Op>, id: Id, state: HoldState, expected: int)
    ensures
      HoldChanged(Run(EMPTY, ops), MoveHold(Run(EMPTY, ops), id, state, expected), id, state, expected)
  {
    EmptyBooksHold();
    RunKeepsInv(EMPTY, ops);
    ChangedAt(Run(EMPTY, ops), id, state, expected);
  }

  lemma ChangedAt(b: Books, id: Id, state: HoldState, expected: int)
    requires Inv(b)
    ensures HoldChanged(b, MoveHold(b, id, state, expected), id, state, expected)
  {
    ClampsNeverBite(b, id);
    if id in b.holds && b.holds[id].state == Held && b.holds[id].version == expected && state != Held {
      MovedHold(b, id, state, expected);
    } else {
      UnmovedHold(b, id, state, expected);
    }
  }

  lemma UnmovedHold(b: Books, id: Id, state: HoldState, expected: int)
    requires !(id in b.holds && b.holds[id].state == Held && b.holds[id].version == expected && state != Held)
    ensures MoveHold(b, id, state, expected).Err?
  {
  }

  // ----- the sweep over due holds -----

  /** The holds after the sweep: each one that was HELD past its time is EXPIRED if the custodian has a reference for
      it, and UNKNOWN otherwise; no other hold has changed. */
  predicate Swept(before: map<Id, Hold>, after: map<Id, Hold>, now: int) {
    && after.Keys == before.Keys
    && forall id :: id in before ==>
                      var h := before[id];
                      after[id] == if h.state == Held && h.expiresAt.Some? && h.expiresAt.value <= now
                                   then h.(state := if h.referenced then HoldExpired else HoldUnknown,
                                           version := h.version + 1)
                                   else h
  }

  /** The amounts the sweep frees on an account: those of due holds with a reference. */
  function FreedOn(account: Id, now: int): Hold -> int {
    (h: Hold) =>
      if h.account == account && h.state == Held && h.expiresAt.Some? && h.expiresAt.value <= now && h.referenced
      then h.amount else 0
  }

  lemma SweptTotals(before: map<Id, Hold>, after: map<Id, Hold>, now: int, account: Id)
    requires Swept(before, after, now)
    ensures Total(after, HoldOn(account)) == Total(before, HoldOn(account)) - Total(before, FreedOn(account, now))
  {
    forall id | id in after
      ensures HoldOn(account)(after[id]) == HoldOn(account)(before[id]) - FreedOn(account, now)(before[id])
    {
    }
    TotalDifference(after, HoldOn(account), before, HoldOn(account), FreedOn(account, now));
  }

  /** The sweep frees exactly the due holds with a reference: what is reserved on an account goes down by their amounts,
      and an unknown outcome keeps its funds. */
  lemma SweepFreesExactly(b: Books, t: Books, now: int, account: Id)
    requires Inv(b) && Inv(t) && t.funds == b.funds && Swept(b.holds, t.holds, now)
    requires account in b.accounts && account in t.accounts
    ensures t.accounts[account].reserved == b.accounts[account].reserved - Total(b.holds, FreedOn(account, now))
  {
    assert Agrees(b, account) && Agrees(t, account);
    SweptTotals(b.holds, t.holds, now, account);
  }
}

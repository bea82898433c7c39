/** The ledger service over its tables, statement by statement, proved equal to the ledger's operations. */
module LedgerStore {
  import opened Results
  import opened Sums
  import opened Text
  import opened Ledger
  import opened LedgerAgreement
  import opened LedgerFunds

  /** The accounts a trial balance lists: the active ones, of one currency when one is asked for. */
  predicate Listed(a: Account, currency: Option<Currency>) {
    a.active && (currency.Some? ==> a.currency == Upper(currency.value))
  }

  /** The query's filter on entries. */
  function EntryMove(id: Id, kind: AccountType, currency: Option<Currency>): Entry -> int {
    (e: Entry) => if currency.Some? && e.currency != Upper(currency.value) then 0 else MoveOn(id, kind)(e)
  }

  function ReservedOf(currency: Option<Currency>): Account -> int {
    (a: Account) => if Listed(a, currency) then a.reserved else 0
  }

  class LedgerService {
    var accounts: map<Id, Account>
    var journals: map<Id, Journal>
    var rows: seq<Row>
    var funds: map<Id, Fund>
    var holds: map<Id, Hold>

    constructor ()
      ensures View() == EMPTY
    {
      accounts, journals, rows, funds, holds := map[], map[], [], map[], map[];
    }

    function View(): Books
      reads this
    {
      Books(accounts, journals, rows, funds, holds)
    }

    method SumSide(entries: seq<Entry>, d: Direction) returns (sum: int)
      ensures sum == SumSeq(entries, Side(d))
    {
      sum := 0;
      for i := 0 to |entries|
        invariant sum == SumSeq(entries[..i], Side(d))
      {
        assert entries[..i + 1] == entries[..i] + [entries[i]];
        SumAppend(entries[..i], entries[i], Side(d));
        sum := sum + if entries[i].direction == d then entries[i].amount else 0;
      }
      assert entries[..|entries|] == entries;
    }

    method ValidateEntries(entries: seq<Entry>) returns (r: Result<()>)
      ensures r.Ok? <==> Balanced(entries)
    {
      if |entries| < 2 || !OneCurrency(entries) {
        return Err(Conflict);
      }
      var debit := SumSide(entries, Debit);
      var credit := SumSide(entries, Credit);
      if debit <= 0 || debit != credit {
        return Err(Conflict);
      }
      return Ok(());
    }

    method CheckEntries(entries: seq<Entry>) returns (r: Result<()>)
      ensures r.Ok? <==> AllFit(accounts, entries)
    {
      for i := 0 to |entries|
        invariant forall j :: 0 <= j < i ==> Fits(accounts, entries[j])
      {
        if !Fits(accounts, entries[i]) {
          return Err(Conflict);
        }
      }
      return Ok(());
    }

    method MoveBalances(entries: seq<Entry>) returns (r: Result<()>)
      requires AllFit(accounts, entries)
      modifies this`accounts
      ensures r.Ok? <==> ApplyEntries(old(accounts), entries).Some?
      ensures r.Ok? ==> accounts == ApplyEntries(old(accounts), entries).value
    {
      assert entries[..0] == [];
      for i := 0 to |entries|
        invariant accounts.Keys == old(accounts).Keys
        invariant ApplyEntries(old(accounts), entries[..i]) == Some(accounts)
      {
        EntryAfterPrefix(old(accounts), entries, i, accounts);
        var account := accounts[entries[i].account];
        var delta := if entries[i].direction == Normal(account.kind) then entries[i].amount else -entries[i].amount;
        if account.balance + delta < 0 {
          PrefixRefuses(old(accounts), entries, i + 1);
          return Err(Conflict);
        }
        accounts := accounts[entries[i].account := account.(balance := account.balance + delta,
                                                            version := account.version + 1)];
      }
      assert entries[..|entries|] == entries;
      return Ok(());
    }

    method AddRows(id: Id, entries: seq<Entry>)
      modifies this`rows
      ensures rows == old(rows) + RowsOf(id, entries)
    {
      for i := 0 to |entries|
        invariant rows == old(rows) + RowsOf(id, entries[..i])
      {
        assert RowsOf(id, entries[..i + 1]) == RowsOf(id, entries[..i]) + [Row(id, entries[i])];
        rows := rows + [Row(id, entries[i])];
      }
      assert entries[..|entries|] == entries;
    }

    /** Posts inside the caller's transaction: after an error some balances may already have moved. */
    method PostJournal(id: Id, entries: seq<Entry>, reverses: Option<Id>) returns (r: Result<()>)
      modifies this`accounts, this`journals, this`rows
      ensures r.Ok? <==> Ledger.PostJournal(old(View()), id, entries, reverses).Ok?
      ensures r.Ok? ==> View() == Ledger.PostJournal(old(View()), id, entries, reverses).value
    {
      var _ :- ValidateEntries(entries);
      if id in journals {
        return Err(Conflict);
      }
      var _ :- CheckEntries(entries);
      var _ :- MoveBalances(entries);
      journals := journals[id := Journal(Posted, reverses)];
      AddRows(id, entries);
      return Ok(());
    }

    method MakeDraft(id: Id, entries: seq<Entry>) returns (r: Result<()>)
      modifies this`journals, this`rows
      ensures View() == Apply(old(View()), Op.MakeDraft(id, entries))
      ensures r.Ok? <==> Attempt(old(View()), Op.MakeDraft(id, entries)).Ok?
    {
      if id in journals {
        return Err(Conflict);
      }
      var _ :- ValidateEntries(entries);
      if !AllWellFormed(entries) {
        return Err(IntegrityError);
      }
      journals := journals[id := Journal(Draft, None)];
      AddRows(id, entries);
      return Ok(());
    }

    method Validate(id: Id) returns (r: Result<()>)
      modifies this`journals
      ensures View() == Apply(old(View()), Op.Validate(id))
      ensures r.Ok? <==> Attempt(old(View()), Op.Validate(id)).Ok?
    {
      if id !in journals || journals[id].state == Posted {
        return Err(Conflict);
      }
      var _ :- ValidateEntries(EntriesOf(rows, id));
      journals := journals[id := journals[id].(state := Validated)];
      return Ok(());
    }

    /** A posting as one request: committed, or rolled back. */
    method Post(id: Id, entries: seq<Entry>) returns (r: Result<()>)
      modifies this
      ensures View() == Apply(old(View()), Op.Post(id, entries))
      ensures r.Ok? <==> Attempt(old(View()), Op.Post(id, entries)).Ok?
    {
      var accounts0, journals0, rows0 := accounts, journals, rows;
      r := PostJournal(id, entries, None);
      if r.Err? {
        accounts, journals, rows := accounts0, journals0, rows0;
      }
    }

    method FilterCurrency(entries: seq<Entry>, c: Currency) returns (group: seq<Entry>)
      ensures group == Group(entries, c)
    {
      group := [];
      for i := 0 to |entries|
        invariant group == Group(entries[..i], c)
      {
        assert entries[..i + 1][..i] == entries[..i];
        if entries[i].currency == c {
          group := group + [entries[i]];
        }
      }
      assert entries[..|entries|] == entries;
    }

    method PostCurrencies(id: Id, currencies: seq<Currency>, entries: seq<Entry>, clearing: map<Currency, Id>)
      returns (r: Result<()>)
      modifies this`accounts, this`journals, this`rows
      ensures r.Ok? <==> PostGroups(old(View()), id, currencies, entries, clearing).Ok?
      ensures r.Ok? ==> View() == PostGroups(old(View()), id, currencies, entries, clearing).value
    {
      ghost var all := PostGroups(View(), id, currencies, entries, clearing);
      for i := 0 to |currencies|
        invariant PostGroups(View(), id, currencies[i..], entries, clearing) == all
        invariant funds == old(funds) && holds == old(holds)
      {
        var c := currencies[i];
        assert currencies[i..][0] == c && currencies[i..][1..] == currencies[i + 1..];
        var group := FilterCurrency(entries, c);
        if c !in clearing || clearing[c] == "" {
          return Err(Conflict);
        }
        if !HasClearingLeg(group, clearing[c]) {
          return Err(Conflict);
        }
        var _ :- ValidateEntries(group);
        var _ :- PostJournal(id + ":" + c, group, None);
      }
      return Ok(());
    }

    method PostMulti(id: Id, entries: seq<Entry>, clearing: map<Currency, Id>) returns (r: Result<()>)
      modifies this`accounts, this`journals, this`rows
      ensures View() == Apply(old(View()), Op.PostMulti(id, entries, clearing))
      ensures r.Ok? <==> Attempt(old(View()), Op.PostMulti(id, entries, clearing)).Ok?
    {
      var currencies := Currencies(entries);
      if |currencies| < 2 {
        return Err(Conflict);
      }
      var accounts0, journals0, rows0 := accounts, journals, rows;
      r := PostCurrencies(id, currencies, entries, clearing);
      if r.Err? {
        accounts, journals, rows := accounts0, journals0, rows0;
      }
    }

    method FlipEntries(entries: seq<Entry>) returns (flipped: seq<Entry>)
      ensures flipped == FlipAll(entries)
    {
      flipped := [];
      for i := 0 to |entries|
        invariant flipped == FlipAll(entries[..i])
      {
        assert FlipAll(entries[..i + 1]) == FlipAll(entries[..i]) + [Flip(entries[i])];
        flipped := flipped + [Flip(entries[i])];
      }
      assert entries[..|entries|] == entries;
    }

    /** `readback` is what the query for the journal's entries returns. */
    method Reverse(id: Id, reversal: Id, readback: seq<Entry>, justified: bool) returns (r: Result<()>)
      requires multiset(readback) == multiset(EntriesOf(rows, id))
      modifies this
      ensures View() == Apply(old(View()), Op.Reverse(id, reversal, readback, justified))
      ensures r.Ok? <==> Attempt(old(View()), Op.Reverse(id, reversal, readback, justified)).Ok?
    {
      if id !in journals || journals[id].state != Posted {
        return Err(Conflict);
      }
      if !justified {
        return Err(Conflict);
      }
      var flipped := FlipEntries(readback);
      var accounts0, journals0, rows0 := accounts, journals, rows;
      r := PostJournal(reversal, flipped, Some(id));
      if r.Err? {
        accounts, journals, rows := accounts0, journals0, rows0;
      }
    }

    method ReserveFunds(account: Id, id: Id, amount: int, currency: Currency) returns (r: Result<()>)
      modifies this`accounts, this`funds
      ensures View() == Apply(old(View()), Op.Reserve(account, id, amount, currency))
      ensures r.Ok? <==> Attempt(old(View()), Op.Reserve(account, id, amount, currency)).Ok?
    {
      if account !in accounts || !accounts[account].active || accounts[account].currency != currency {
        return Err(Conflict);
      }
      if id in funds {
        return Ok(());
      }
      var available := accounts[account].balance - accounts[account].reserved;
      if amount <= 0 || available < amount {
        return Err(Conflict);
      }
      accounts := accounts[account := accounts[account].(reserved := accounts[account].reserved + amount)];
      funds := funds[id := Fund(account, amount, Reserved)];
      return Ok(());
    }

    method ReleaseFunds(id: Id) returns (r: Result<()>)
      modifies this`accounts, this`funds
      ensures View() == Apply(old(View()), Op.Release(id))
      ensures r.Ok? <==> Attempt(old(View()), Op.Release(id)).Ok?
    {
      if id !in funds {
        return Err(NoRow);
      }
      var fund := funds[id];
      if fund.state != Reserved {
        return Ok(());
      }
      if fund.account !in accounts {
        return Err(NoRow);
      }
      var account := accounts[fund.account];
      accounts := accounts[fund.account := account.(reserved := Max(0, account.reserved - fund.amount))];
      funds := funds[id := fund.(state := Released)];
      return Ok(());
    }

    /** The flush meets the check constraint on the balance; the request then rolls back. */
    method ConsumeFunds(id: Id) returns (r: Result<()>)
      modifies this`accounts, this`funds
      ensures View() == Apply(old(View()), Op.Consume(id))
      ensures r.Ok? <==> Attempt(old(View()), Op.Consume(id)).Ok?
    {
      if id !in funds {
        return Err(NoRow);
      }
      var fund := funds[id];
      if fund.state != Reserved {
        return Ok(());
      }
      if fund.account !in accounts {
        return Err(NoRow);
      }
      var account := accounts[fund.account];
      var saved := accounts;
      accounts := accounts[fund.account := account.(reserved := Max(0, account.reserved - fund.amount))];
      accounts := accounts[fund.account := accounts[fund.account].(balance := account.balance - fund.amount)];
      if accounts[fund.account].balance < 0 {
        accounts := saved;
        return Err(IntegrityError);
      }
      assert accounts == saved[fund.account := accounts[fund.account]];
      funds := funds[id := fund.(state := Consumed)];
      return Ok(());
    }

    method PlaceHold(id: Id, account: Id, amount: int, currency: Currency, expiresAt: Option<int>)
      returns (r: Result<()>)
      modifies this`accounts, this`holds
      ensures View() == Apply(old(View()), Op.PlaceHold(id, account, amount, currency, expiresAt))
      ensures r.Ok? <==> Attempt(old(View()), Op.PlaceHold(id, account, amount, currency, expiresAt)).Ok?
    {
      if amount <= 0 {
        return Err(Conflict);
      }
      if account !in accounts || !accounts[account].active || accounts[account].currency != Upper(currency) {
        return Err(Conflict);
      }
      if accounts[account].balance - accounts[account].reserved < amount {
        return Err(Conflict);
      }
      if id in holds {
        return Err(Conflict);
      }
      accounts := accounts[account := accounts[account].(reserved := accounts[account].reserved + amount)];
      holds := holds[id := Hold(account, amount, Held, 1, expiresAt, false)];
      return Ok(());
    }

    method ChangeHold(id: Id, state: HoldState, expected: int) returns (r: Result<()>)
      modifies this`accounts, this`holds
      ensures View() == Apply(old(View()), Op.ChangeHold(id, state, expected))
      ensures r.Ok? <==> Attempt(old(View()), Op.ChangeHold(id, state, expected)).Ok?
    {
      if id !in holds || holds[id].version != expected {
        return Err(Conflict);
      }
      if state == Held || holds[id].state != Held {
        return Err(Conflict);
      }
      var hold := holds[id];
      if state != HoldUnknown {
        if hold.account !in accounts {
          return Err(NoRow);
        }
        var account := accounts[hold.account];
        accounts := accounts[hold.account := account.(reserved := account.reserved - hold.amount)];
      }
      holds := holds[id := hold.(state := state, version := hold.version + 1)];
      return Ok(());
    }

    /** `before` and `made` say which run led here; `ops` is that run with this change. */
    method ExpireOne(id: Id, ghost before: Books, ghost made: seq<Op>) returns (r: Result<()>, ghost ops: seq<Op>)
      requires HoldsAttached(View()) && id in holds && holds[id].state == Held && View() == Run(before, made)
      modifies this`accounts, this`holds
      ensures r.Ok? && HoldsAttached(View()) && View() == Run(before, ops)
      ensures holds == old(holds)[id := Expired(old(holds)[id])]
    {
      ExpirySucceeds(View(), id);
      ghost var op := Op.ChangeHold(id, Expiry(holds[id]), holds[id].version);
      ops := made + [op];
      OneStepMore(before, made, op);
      r := ChangeHold(id, Expiry(holds[id]), holds[id].version);
    }

    /** Expires every due hold, in whatever order the query returns them: no version conflict is possible, each due hold
        is EXPIRED or UNKNOWN by its reference, and everything else stays as it was. `ops` are the changes made, as a
        run of the ledger. */
    method ExpireDue(now: int) returns (r: Result<()>, ghost ops: seq<Op>)
      requires HoldsAttached(View())
      modifies this`accounts, this`holds
      ensures r.Ok?
      ensures View() == Run(old(View()), ops)
      ensures Swept(old(holds), holds, now)
      ensures Inv(old(View())) ==> Inv(View())
      ensures forall id :: id in holds ==> !Due(holds[id], now)
    {
      var due := set id | id in holds && Due(holds[id], now);
      ops := [];
      r := Ok(());
      while due != {}
        invariant r.Ok? && HoldsAttached(View()) && View() == Run(old(View()), ops)
        invariant AllExpired(old(holds), holds, due, now)
        decreases due
      {
        var id :| id in due;
        ExpiredOneMore(old(holds), holds, due, now, id);
        r, ops := ExpireOne(id, old(View()), ops);
        due := due - {id};
      }
      NothingLeftDue(old(holds), holds, now);
      SweptAll(old(holds), holds, now);
      if Inv(old(View())) {
        RunKeepsInv(old(View()), ops);
      }
    }

    /** Recomputes every listed balance from the posted entries. */
    method TrialBalance(currency: Option<Currency>) returns (lines: map<Id, int>, total: int, reserved: int)
      ensures lines.Keys == set id | id in accounts && Listed(accounts[id], currency)
      ensures forall id :: id in lines ==>
                             lines[id] == SumSeq(rows, PostedRow(journals, EntryMove(id, accounts[id].kind, currency)))
      ensures total == Total(lines, Itself())
      ensures reserved == Total(accounts, ReservedOf(currency))
    {
      lines := map id | id in accounts && Listed(accounts[id], currency) :: 0;
      ghost var listed := lines.Keys;
      for i := 0 to |rows|
        invariant lines.Keys == listed
        invariant forall id :: id in lines ==>
                                 lines[id]
                                 == SumSeq(rows[..i], PostedRow(journals, EntryMove(id, accounts[id].kind, currency)))
      {
        ghost var lines0 := lines;
        var row := rows[i];
        var e := row.entry;
        if IsPosted(journals, row.journal) && (currency.Some? ==> e.currency == Upper(currency.value))
          && e.account in lines {
          var moved := if e.direction == Normal(accounts[e.account].kind) then e.amount else -e.amount;
          lines := lines[e.account := lines[e.account] + moved];
        }
        forall id | id in lines
          ensures lines[id] == SumSeq(rows[..i + 1], PostedRow(journals, EntryMove(id, accounts[id].kind, currency)))
        {
          SumUpToNext(rows, i, PostedRow(journals, EntryMove(id, accounts[id].kind, currency)));
          assert lines0[id] == SumSeq(rows[..i], PostedRow(journals, EntryMove(id, accounts[id].kind, currency)));
          PostedEntryMove(journals, id, accounts[id].kind, currency, row);
        }
      }
      assert rows[..|rows|] == rows;
      total := AddUp(lines);
      reserved := AddUpReserved(currency);
    }

    method AddUpReserved(currency: Option<Currency>) returns (reserved: int)
      ensures reserved == Total(accounts, ReservedOf(currency))
    {
      reserved := 0;
      var todo := accounts;
      while todo != map[]
        invariant reserved + Total(todo, ReservedOf(currency)) == Total(accounts, ReservedOf(currency))
        decreases |todo|
      {
        var id :| id in todo;
        TotalRemove(todo, ReservedOf(currency), id);
        if Listed(todo[id], currency) {
          reserved := reserved + todo[id].reserved;
        }
        todo := todo - {id};
      }
    }

    method AddUp(lines: map<Id, int>) returns (total: int)
      ensures total == Total(lines, Itself())
    {
      total := 0;
      var todo := lines;
      while todo != map[]
        invariant total + Total(todo, Itself()) == Total(lines, Itself())
        decreases |todo|
      {
        var id :| id in todo;
        TotalRemove(todo, Itself(), id);
        total := total + todo[id];
        todo := todo - {id};
      }
    }
  }

  /** What one row adds to one line of the trial balance. */
  lemma PostedEntryMove(journals: map<Id, Journal>, id: Id, kind: AccountType, currency: Option<Currency>, r: Row)
    ensures PostedRow(journals, EntryMove(id, kind, currency))(r)
            == if IsPosted(journals, r.journal) && (currency.Some? ==> r.entry.currency == Upper(currency.value))
               && r.entry.account == id
               then Delta(kind, r.entry) else 0
  {
    assert EntryMove(id, kind, currency)(r.entry)
           == if currency.Some? && r.entry.currency != Upper(currency.value) then 0 else MoveOn(id, kind)(r.entry);
  }

  /** A foreign key: every hold names an account. */
  predicate HoldsAttached(b: Books) {
    forall id :: id in b.holds ==> b.holds[id].account in b.accounts
  }

  function Expired(h: Hold): Hold {
    h.(state := Expiry(h), version := h.version + 1)
  }

  /** The due holds have expired, except those still to be worked on; all others are as before. */
  predicate AllExpired(before: map<Id, Hold>, after: map<Id, Hold>, todo: set<Id>, now: int) {
    && after.Keys == before.Keys && todo <= after.Keys
    && (forall id :: id in todo ==> after[id] == before[id] && Due(after[id], now))
    && (forall id :: id in after && id !in todo ==>
          after[id] == if Due(before[id], now) then Expired(before[id]) else before[id])
  }

  lemma SweptAll(before: map<Id, Hold>, after: map<Id, Hold>, now: int)
    requires AllExpired(before, after, {}, now)
    ensures Swept(before, after, now)
  {
  }

  lemma ExpiredOneMore(before: map<Id, Hold>, holds: map<Id, Hold>, todo: set<Id>, now: int, id: Id)
    requires AllExpired(before, holds, todo, now) && id in todo
    ensures holds[id].state == Held && AllExpired(before, holds[id := Expired(holds[id])], todo - {id}, now)
  {
  }

  lemma NothingLeftDue(before: map<Id, Hold>, holds: map<Id, Hold>, now: int)
    requires AllExpired(before, holds, {}, now)
    ensures forall id :: id in holds ==> !Due(holds[id], now)
  {
  }

  lemma OneStepMore(b: Books, ops: seq<Op>, op: Op)
    ensures Run(b, ops + [op]) == Apply(Run(b, ops), op)
  {
    assert (ops + [op])[..|ops|] == ops;
  }

  /** Expiring a HELD hold at its own version is never refused. */
  lemma ExpirySucceeds(b: Books, id: Id)
    requires HoldsAttached(b) && id in b.holds && b.holds[id].state == Held
    ensures Attempt(b, Op.ChangeHold(id, Expiry(b.holds[id]), b.holds[id].version)).Ok?
    ensures var t := Apply(b, Op.ChangeHold(id, Expiry(b.holds[id]), b.holds[id].version));
            t.holds == b.holds[id := Expired(b.holds[id])] && t.accounts.Keys == b.accounts.Keys && HoldsAttached(t)
  {
    assert MoveHold(b, id, Expiry(b.holds[id]), b.holds[id].version).Ok?;
  }

  /** What the next entry does to the accounts its prefix leaves. */
  lemma EntryAfterPrefix(start: map<Id, Account>, entries: seq<Entry>, i: nat, now: map<Id, Account>)
    requires AllFit(start, entries) && i < |entries| && ApplyEntries(start, entries[..i]) == Some(now)
    ensures
      var e := entries[i];
      && e.account in now
      && var balance := now[e.account].balance + Delta(now[e.account].kind, e);
         ApplyEntries(start, entries[..i + 1])
         == if balance < 0 then None
            else Some(now[e.account := now[e.account].(balance := balance, version := now[e.account].version + 1)])
  {
    assert entries[..i + 1][..i] == entries[..i];
    assert Fits(start, entries[i]);
  }

  /** Once a prefix is refused, so is the whole journal. */
  lemma {:induction false} PrefixRefuses(accounts: map<Id, Account>, entries: seq<Entry>, n: nat)
    requires AllFit(accounts, entries) && n <= |entries| && ApplyEntries(accounts, entries[..n]).None?
    ensures ApplyEntries(accounts, entries).None?
    decreases |entries| - n
  {
    if n == |entries| {
      assert entries[..n] == entries;
    } else {
      assert entries[..n + 1][..n] == entries[..n];
      PrefixRefuses(accounts, entries, n + 1);
    }
  }

  /** The trial balance of one currency is the full one restricted to that currency, and both show what the
      posted journals moved: filtering entries by currency loses nothing. */
  lemma CurrencyTrialBalanceIsRestriction(b: Books, id: Id, currency: Option<Currency>)
    requires RowsAttached(b) && id in b.accounts && Listed(b.accounts[id], currency)
    ensures SumSeq(b.rows, PostedRow(b.journals, EntryMove(id, b.accounts[id].kind, currency))) == PostedMovement(b, id)
  {
    var kind := b.accounts[id].kind;
    forall i | 0 <= i < |b.rows|
      ensures PostedRow(b.journals, EntryMove(id, kind, currency))(b.rows[i])
              == PostedRow(b.journals, MoveOn(id, kind))(b.rows[i])
    {
      assert b.rows[i].journal in b.journals;
    }
    SumSame(b.rows, PostedRow(b.journals, EntryMove(id, kind, currency)), b.rows,
            PostedRow(b.journals, MoveOn(id, kind)));
  }
}

/** What every run of the settlement system keeps, and where repeated releases of the queue end. */
module CipsRuns {
  import opened Results
  import opened Sums
  import opened Cips
  import opened CipsNetting

  function SettledFlow(p: Party): Settlement -> int {
    (s: Settlement) => if s.settled then Flow(p)(s) else 0
  }

  /** Settled and queued real-time settlements name accounts. */
  predicate Wired(b: Bank) {
    forall i :: 0 <= i < |b.settlements| ==>
                  var s := b.settlements[i];
                  s.amount > 0 && (s.settled || s.mode == Rtgs ==> HasAccounts(b.accounts, s))
  }

  predicate Covered(b: Bank) {
    forall k :: 0 <= k < |b.accounts| ==> b.accounts[k].balance >= b.accounts[k].reserved
  }

  /** An account holds its opening balance and, if it is its participant's first, what its settled payments moved. */
  ghost predicate Booked(b: Bank, k: nat)
    requires k < |b.accounts|
  {
    var a := b.accounts[k];
    a.balance == a.opening + if IsFirst(b.accounts, k) then SumSeq(b.settlements, SettledFlow(a.party)) else 0
  }

  ghost predicate Inv(b: Bank) {
    Wired(b) && Covered(b) && forall k :: 0 <= k < |b.accounts| ==> Booked(b, k)
  }

  // ----- one real-time settlement -----

  lemma PaidStaysWired(b: Bank, i: nat)
    requires Wired(b) && SettleOne(b, i).Ok?
    ensures Wired(SettleOne(b, i).value) && SameHolders(b.accounts, SettleOne(b, i).value.accounts)
  {
    var t := SettleOne(b, i).value;
    forall j | 0 <= j < |t.settlements|
      ensures var s := t.settlements[j];
              s.amount > 0 && (s.settled || s.mode == Rtgs ==> HasAccounts(t.accounts, s))
    {
      HoldersKeepAccounts(b.accounts, t.accounts, b.settlements[j].debtor);
      HoldersKeepAccounts(b.accounts, t.accounts, b.settlements[j].creditor);
    }
  }

  lemma PaidStaysBooked(b: Bank, i: nat, k: nat)
    requires Wired(b) && SettleOne(b, i).Ok? && k < |b.accounts| && Booked(b, k)
    ensures k < |SettleOne(b, i).value.accounts| && Booked(SettleOne(b, i).value, k)
  {
    var t := SettleOne(b, i).value;
    if t != b {
      var s, p := b.settlements[i], b.accounts[k].party;
      PaidStaysWired(b, i);
      HoldersKeepAccounts(b.accounts, t.accounts, p);
      PayMoves(b.accounts, s, k);
      SumUpdate(b.settlements, i, s.(settled := true), SettledFlow(p));
    }
  }

  /** A payment takes from its debtor what is available and from nobody else. */
  lemma PaidStaysCovered(b: Bank, i: nat, k: nat)
    requires Wired(b) && SettleOne(b, i).Ok? && k < |b.accounts| && b.accounts[k].balance >= b.accounts[k].reserved
    ensures
      var t := SettleOne(b, i).value;
      k < |t.accounts| && t.accounts[k].balance >= t.accounts[k].reserved
  {
    if SettleOne(b, i).value != b {
      PaidStaysWired(b, i);
      PayMoves(b.accounts, b.settlements[i], k);
    }
  }

  lemma SettlingKeepsInv(b: Bank, i: nat)
    requires Inv(b) && SettleOne(b, i).Ok?
    ensures Inv(SettleOne(b, i).value)
  {
    var t := SettleOne(b, i).value;
    PaidStaysWired(b, i);
    forall k | 0 <= k < |t.accounts|
      ensures Booked(t, k) && t.accounts[k].balance >= t.accounts[k].reserved
    {
      PaidStaysBooked(b, i, k);
      PaidStaysCovered(b, i, k);
    }
  }

  lemma {:induction false} PassKeepsInv(b: Bank, queue: seq<nat>)
    requires Inv(b) && SettleEach(b, queue).Ok?
    ensures Inv(SettleEach(b, queue).value.0)
    decreases |queue|
  {
    if queue != [] {
      var n := |queue| - 1;
      PassKeepsInv(b, queue[..n]);
      SettlingKeepsInv(SettleEach(b, queue[..n]).value.0, queue[n]);
    }
  }

  // ----- a netted batch -----

  lemma {:induction false} BatchMoves(settlements: seq<Settlement>, batch: string, p: Party)
    ensures SumSeq(MarkBatch(settlements, batch), SettledFlow(p))
            == SumSeq(settlements, SettledFlow(p)) + Net(Batch(settlements, batch), p)
    decreases |settlements|
  {
    if settlements != [] {
      var n := |settlements| - 1;
      var s := settlements[n];
      BatchMoves(settlements[..n], batch, p);
      assert MarkBatch(settlements, batch)[..n] == MarkBatch(settlements[..n], batch);
      if InBatch(s, batch) {
        SumAppend(Batch(settlements[..n], batch), s, Flow(p));
      } else {
        assert Batch(settlements, batch) == Batch(settlements[..n], batch);
      }
    }
  }

  lemma BatchStaysWired(b: Bank, batch: string)
    requires Wired(b) && SettleBatch(b, batch).Ok?
    ensures Wired(SettleBatch(b, batch).value)
  {
    var t, list := SettleBatch(b, batch).value, Batch(b.settlements, batch);
    PartiesHaveAccounts(b.accounts, list);
    assert SameHolders(b.accounts, t.accounts);
    forall j | 0 <= j < |t.settlements|
      ensures var s := t.settlements[j];
              s.amount > 0 && (s.settled || s.mode == Rtgs ==> HasAccounts(t.accounts, s))
    {
      var s := b.settlements[j];
      if InBatch(s, batch) {
        BatchMembers(b.settlements, batch, s);
        assert s in list;
      }
      HoldersKeepAccounts(b.accounts, t.accounts, s.debtor);
      HoldersKeepAccounts(b.accounts, t.accounts, s.creditor);
    }
  }

  lemma BatchAccountHolds(b: Bank, batch: string, k: nat)
    requires SettleBatch(b, batch).Ok? && k < |b.accounts| && Booked(b, k)
    requires b.accounts[k].balance >= b.accounts[k].reserved
    ensures var t := SettleBatch(b, batch).value;
            k < |t.accounts| && Booked(t, k) && t.accounts[k].balance >= t.accounts[k].reserved
  {
    var t, list := SettleBatch(b, batch).value, Batch(b.settlements, batch);
    var p := b.accounts[k].party;
    assert SameHolders(b.accounts, t.accounts);
    HoldersKeepAccounts(b.accounts, t.accounts, p);
    BatchMoves(b.settlements, batch, p);
    if p in Parties(list) {
      assert Covers(b.accounts, list, p);
    } else {
      NetOfOutsider(list, p);
    }
  }

  lemma BatchKeepsInv(b: Bank, batch: string)
    requires Inv(b) && SettleBatch(b, batch).Ok?
    ensures Inv(SettleBatch(b, batch).value)
  {
    var t := SettleBatch(b, batch).value;
    BatchStaysWired(b, batch);
    forall k | 0 <= k < |t.accounts|
      ensures Booked(t, k) && t.accounts[k].balance >= t.accounts[k].reserved
    {
      assert Booked(b, k);
      BatchAccountHolds(b, batch, k);
    }
  }

  // ----- opening and submitting -----

  lemma {:induction false} NobodySettled(settlements: seq<Settlement>, p: Party)
    requires forall i :: 0 <= i < |settlements| && settlements[i].settled ==>
               settlements[i].debtor != p && settlements[i].creditor != p
    ensures SumSeq(settlements, SettledFlow(p)) == 0
    decreases |settlements|
  {
    if settlements != [] {
      var n := |settlements| - 1;
      NobodySettled(settlements[..n], p);
      assert settlements[n].settled ==> Flow(p)(settlements[n]) == 0;
    }
  }

  lemma OpenedAccountLast(accounts: seq<Account>, a: Account, p: Party)
    ensures AccountOf(accounts + [a], p) ==
            if AccountOf(accounts, p).Some? then AccountOf(accounts, p)
            else if Holds(a, p) then Some(|accounts|) else None
  {
    assert (accounts + [a])[..|accounts|] == accounts;
  }

  lemma OpeningStaysBooked(b: Bank, party: Party, balance: int, currency: string, k: nat)
    requires Inv(b) && OpenAccount(b, party, balance, currency).Ok? && k <= |b.accounts|
    ensures Booked(OpenAccount(b, party, balance, currency).value, k)
  {
    var t := OpenAccount(b, party, balance, currency).value;
    var a := t.accounts[|b.accounts|];
    OpenedAccountLast(b.accounts, a, t.accounts[k].party);
    if k < |b.accounts| {
      assert Booked(b, k);
    } else if IsFirst(t.accounts, k) {
      forall i | 0 <= i < |b.settlements| && b.settlements[i].settled
        ensures b.settlements[i].debtor != party && b.settlements[i].creditor != party
      {
        assert HasAccounts(b.accounts, b.settlements[i]);
      }
      NobodySettled(b.settlements, party);
    }
  }

  lemma OpeningKeepsInv(b: Bank, party: Party, balance: int, currency: string)
    requires Inv(b) && OpenAccount(b, party, balance, currency).Ok?
    ensures Inv(OpenAccount(b, party, balance, currency).value)
  {
    var t := OpenAccount(b, party, balance, currency).value;
    forall k | 0 <= k < |t.accounts|
      ensures Booked(t, k)
    {
      OpeningStaysBooked(b, party, balance, currency, k);
    }
    forall i | 0 <= i < |t.settlements|
      ensures var s := t.settlements[i];
              s.amount > 0 && (s.settled || s.mode == Rtgs ==> HasAccounts(t.accounts, s))
    {
      OpenedAccountLast(b.accounts, t.accounts[|b.accounts|], b.settlements[i].debtor);
      OpenedAccountLast(b.accounts, t.accounts[|b.accounts|], b.settlements[i].creditor);
    }
  }

  lemma QueueingStaysBooked(b: Bank, s: Settlement, k: nat)
    requires !s.settled && k < |b.accounts| && Booked(b, k)
    ensures Booked(b.(settlements := b.settlements + [s]), k)
  {
    SumAppend(b.settlements, s, SettledFlow(b.accounts[k].party));
  }

  /** A real-time settlement whose participants lack accounts is refused, so none is ever queued. */
  lemma SubmittingKeepsInv(b: Bank, op: Op)
    requires Inv(b) && op.Submit? && SubmitSettlement(b, op).Ok?
    ensures Inv(SubmitSettlement(b, op).value)
  {
    var s := Settlement(op.mode, op.debtor, op.creditor, op.amount, op.priority, op.batch, false);
    var b1 := b.(settlements := b.settlements + [s]);
    forall k | 0 <= k < |b1.accounts|
      ensures Booked(b1, k)
    {
      assert Booked(b, k);
      QueueingStaysBooked(b, s, k);
    }
    if op.mode == Rtgs {
      assert b1.settlements[|b.settlements|] == s;
      SettlingKeepsInv(b1, |b.settlements|);
    }
  }

  lemma OperationKeepsInv(b: Bank, op: Op)
    requires Inv(b)
    ensures Inv(Apply(b, op))
  {
    if Attempt(b, op).Ok? {
      match op
      case Register(party, direct) => RegisteringKeepsInv(b, party, direct);
      case Open(party, balance, currency) => OpeningKeepsInv(b, party, balance, currency);
      case Submit(_, _, _, _, _, _) => SubmittingKeepsInv(b, op);
      case Settle(i) => SettlingKeepsInv(b, i);
      case Release => PassKeepsInv(b, Queue(b.settlements));
      case NetBatch(name) => BatchKeepsInv(b, name);
    }
  }

  lemma RegisteringKeepsInv(b: Bank, party: Party, direct: bool)
    requires Inv(b)
    ensures Inv(b.(direct := b.direct[party := direct]))
  {
    var t := b.(direct := b.direct[party := direct]);
    forall k | 0 <= k < |t.accounts|
      ensures Booked(t, k)
    {
      assert Booked(b, k);
    }
  }

  lemma {:induction false} RunKeepsInv(b: Bank, ops: seq<Op>)
    requires Inv(b)
    ensures Inv(Run(b, ops))
    decreases |ops|
  {
    if ops != [] {
      RunKeepsInv(b, ops[..|ops| - 1]);
      OperationKeepsInv(Run(b, ops[..|ops| - 1]), ops[|ops| - 1]);
    }
  }

  /** In every run from the empty bank: no account is overdrawn, every account holds exactly its opening balance
      and what its settled payments moved, each counted once, and all the money is the money deposited. */
  lemma BalancesAreSettledPayments(ops: seq<Op>)
    ensures var b := Run(EMPTY, ops);
            && (forall k :: 0 <= k < |b.accounts| ==> Booked(b, k) && b.accounts[k].balance >= b.accounts[k].reserved)
            && Money(b.accounts) == SumSeq(b.accounts, OpeningOf())
  {
    RunKeepsInv(EMPTY, ops);
    MoneyIsDeposited(ops);
  }

  // ----- conservation -----

  function OpeningOf(): Account -> int {
    (a: Account) => a.opening
  }

  lemma SettlingConserves(b: Bank, i: nat)
    requires SettleOne(b, i).Ok?
    ensures Money(SettleOne(b, i).value.accounts) == Money(b.accounts)
    ensures SumSeq(SettleOne(b, i).value.accounts, OpeningOf()) == SumSeq(b.accounts, OpeningOf())
  {
    var t := SettleOne(b, i).value;
    if t != b {
      PayConserves(b.accounts, b.settlements[i]);
      SumSame(t.accounts, OpeningOf(), b.accounts, OpeningOf());
    }
  }

  lemma {:induction false} PassConserves(b: Bank, queue: seq<nat>)
    requires SettleEach(b, queue).Ok?
    ensures Money(SettleEach(b, queue).value.0.accounts) == Money(b.accounts)
    ensures SumSeq(SettleEach(b, queue).value.0.accounts, OpeningOf()) == SumSeq(b.accounts, OpeningOf())
    decreases |queue|
  {
    if queue != [] {
      var n := |queue| - 1;
      PassConserves(b, queue[..n]);
      SettlingConserves(SettleEach(b, queue[..n]).value.0, queue[n]);
    }
  }

  /** Money moves, it is neither made nor lost: only opening an account adds to it. */
  lemma OperationConserves(b: Bank, op: Op)
    ensures Money(Apply(b, op).accounts) - SumSeq(Apply(b, op).accounts, OpeningOf())
            == Money(b.accounts) - SumSeq(b.accounts, OpeningOf())
  {
    var t := Apply(b, op);
    if Attempt(b, op).Ok? {
      match op
      case Register(_, _) =>
      case Open(_, _, _) =>
        SumAppend(b.accounts, t.accounts[|b.accounts|], BalanceOf());
        SumAppend(b.accounts, t.accounts[|b.accounts|], OpeningOf());
      case Submit(mode, debtor, creditor, amount, priority, batch) =>
        var s := Settlement(mode, debtor, creditor, amount, priority, batch, false);
        var b1 := b.(settlements := b.settlements + [s]);
        if mode == Rtgs {
          SettlingConserves(b1, |b.settlements|);
        }
      case Settle(i) => SettlingConserves(b, i);
      case Release => PassConserves(b, Queue(b.settlements));
      case NetBatch(name) =>
        NettingConserves(b.accounts, Batch(b.settlements, name));
        SumSame(t.accounts, OpeningOf(), b.accounts, OpeningOf());
    }
  }

  lemma {:induction false} MoneyIsDeposited(ops: seq<Op>)
    ensures Money(Run(EMPTY, ops).accounts) == SumSeq(Run(EMPTY, ops).accounts, OpeningOf())
    decreases |ops|
  {
    if ops != [] {
      MoneyIsDeposited(ops[..|ops| - 1]);
      OperationConserves(Run(EMPTY, ops[..|ops| - 1]), ops[|ops| - 1]);
    }
  }
}

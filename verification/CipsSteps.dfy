/** What each settlement operation does, in rows: who pays when, and what is left as it was. */
module CipsSteps {
  import opened Results
  import opened Sums
  import opened Cips
  import opened CipsNetting

  /** The accounts after the amount has gone from account `d` to account `c`: nothing else has moved. */
  predicate Transferred(before: seq<Account>, after: seq<Account>, d: nat, c: nat, amount: int) {
    && |after| == |before|
    && forall k :: 0 <= k < |before| ==>
                     && after[k] == before[k].(balance := after[k].balance, version := after[k].version)
                     && after[k].balance == before[k].balance - (if k == d then amount else 0)
                                            + (if k == c then amount else 0)
                     && (k != d && k != c ==> after[k].version == before[k].version)
  }

  /** What a real-time settlement comes to. A settled one stays. One whose parties have no CNY account is refused.
      Otherwise it is paid, from the debtor's first CNY account to the creditor's, if and only if its amount is at most
      the balance less what is reserved there; else nothing changes. */
  predicate GrossSettled(b: Bank, i: nat, r: Result<Bank>)
    requires i < |b.settlements|
  {
    var s := b.settlements[i];
    if s.settled then r == Ok(b)
    else if !Known(b.accounts, s.debtor) || !Known(b.accounts, s.creditor) then r == Err(NoRow)
    else
      r.Ok?
      && forall d, c :: 0 <= d < |b.accounts| && 0 <= c < |b.accounts|
                        && IsFirstIn(b.accounts, s.debtor, d) && IsFirstIn(b.accounts, s.creditor, c) ==>
                          if s.amount <= b.accounts[d].balance - b.accounts[d].reserved then
                            && Transferred(b.accounts, r.value.accounts, d, c, s.amount)
                            && r.value.settlements == b.settlements[i := s.(settled := true)]
                            && r.value.direct == b.direct
                          else r.value == b
  }

  lemma FirstIsUnique(accounts: seq<Account>, p: Party, k: nat, l: nat)
    requires IsFirstIn(accounts, p, k) && IsFirstIn(accounts, p, l)
    ensures k == l
  {
  }

  lemma PayTransfers(accounts: seq<Account>, s: Settlement, d: nat, c: nat)
    requires HasAccounts(accounts, s) && IsFirstIn(accounts, s.debtor, d) && IsFirstIn(accounts, s.creditor, c)
    ensures Transferred(accounts, Pay(accounts, s), d, c, s.amount)
  {
    AccountIsFirst(accounts, s.debtor, d);
    AccountIsFirst(accounts, s.creditor, c);
  }

  lemma AffordedBy(accounts: seq<Account>, s: Settlement, d: nat)
    requires IsFirstIn(accounts, s.debtor, d) && Known(accounts, s.creditor)
    ensures Affordable(accounts, s) <==> s.amount <= accounts[d].balance - accounts[d].reserved
  {
    if k :| 0 <= k < |accounts| && IsFirstIn(accounts, s.debtor, k)
            && s.amount <= accounts[k].balance - accounts[k].reserved {
      FirstIsUnique(accounts, s.debtor, k, d);
    }
  }

  lemma SettledExactlyWhen(b: Bank, i: nat)
    requires i < |b.settlements|
    ensures GrossSettled(b, i, SettleOne(b, i))
  {
    var s, r := b.settlements[i], SettleOne(b, i);
    AffordableExactly(b.accounts, s);
    if !s.settled && HasAccounts(b.accounts, s) {
      forall d, c | 0 <= d < |b.accounts| && 0 <= c < |b.accounts|
                    && IsFirstIn(b.accounts, s.debtor, d) && IsFirstIn(b.accounts, s.creditor, c)
        ensures if s.amount <= b.accounts[d].balance - b.accounts[d].reserved then
                  && Transferred(b.accounts, r.value.accounts, d, c, s.amount)
                  && r.value.settlements == b.settlements[i := s.(settled := true)] && r.value.direct == b.direct
                else r.value == b
      {
        AffordedBy(b.accounts, s, d);
        PayTransfers(b.accounts, s, d, c);
      }
    }
  }

  /** A submission is refused if its mode is unknown or its amount not positive. A netted one is queued; a real-time one
      is queued and settled at once if it can be. */
  lemma SubmittedExactlyWhen(b: Bank, op: Op)
    requires op.Submit?
    ensures
      var s := Settlement(op.mode, op.debtor, op.creditor, op.amount, op.priority, op.batch, false);
      var b1, r := b.(settlements := b.settlements + [s]), SubmitSettlement(b, op);
      if op.amount <= 0 || op.mode == OtherMode then r.Err?
      else if op.mode == Dns then r == Ok(b1)
      else GrossSettled(b1, |b.settlements|, r)
  {
    if op.amount > 0 && op.mode == Rtgs {
      var s := Settlement(op.mode, op.debtor, op.creditor, op.amount, op.priority, op.batch, false);
      SettledExactlyWhen(b.(settlements := b.settlements + [s]), |b.settlements|);
    }
  }

  // ----- net settlement -----

  /** What the settlements of a batch move for a participant: what it is owed less what it owes. */
  function FlowIn(batch: string, p: Party): Settlement -> int {
    (s: Settlement) =>
      if s.mode == Dns && s.batch == Some(batch) && !s.settled
      then (if s.creditor == p then s.amount else 0) - (if s.debtor == p then s.amount else 0)
      else 0
  }

  predicate Member(s: Settlement, batch: string) {
    s.mode == Dns && s.batch == Some(batch) && !s.settled
  }

  /** The participant takes part in the batch. */
  predicate TakesPart(settlements: seq<Settlement>, batch: string, p: Party) {
    exists i :: 0 <= i < |settlements| && Member(settlements[i], batch)
                && (settlements[i].debtor == p || settlements[i].creditor == p)
  }

  /** Its first CNY account has what the batch takes from it, beyond what is reserved there. */
  ghost predicate CanMeet(b: Bank, batch: string, p: Party) {
    && Known(b.accounts, p)
    && forall k :: 0 <= k < |b.accounts| && IsFirstIn(b.accounts, p, k) ==>
                     var net := SumSeq(b.settlements, FlowIn(batch, p));
                     net < 0 ==> -net <= b.accounts[k].balance - b.accounts[k].reserved
  }

  lemma {:induction false} NetIsFlowIn(settlements: seq<Settlement>, batch: string, p: Party)
    ensures Net(Batch(settlements, batch), p) == SumSeq(settlements, FlowIn(batch, p))
    decreases |settlements|
  {
    if settlements != [] {
      var n := |settlements| - 1;
      NetIsFlowIn(settlements[..n], batch, p);
      if InBatch(settlements[n], batch) {
        SumAppend(Batch(settlements[..n], batch), settlements[n], Flow(p));
      } else {
        assert Batch(settlements, batch) == Batch(settlements[..n], batch);
      }
    }
  }

  lemma PartiesTakePart(settlements: seq<Settlement>, batch: string, p: Party)
    ensures p in Parties(Batch(settlements, batch)) <==> TakesPart(settlements, batch, p)
  {
    var list := Batch(settlements, batch);
    if TakesPart(settlements, batch, p) {
      var i :| 0 <= i < |settlements| && Member(settlements[i], batch)
               && (settlements[i].debtor == p || settlements[i].creditor == p);
      BatchMembers(settlements, batch, settlements[i]);
      var j :| 0 <= j < |list| && list[j] == settlements[i];
      assert list[j].debtor in Parties(list) && list[j].creditor in Parties(list);
    }
    if p in Parties(list) {
      var j :| 0 <= j < |list| && (list[j].debtor == p || list[j].creditor == p);
      BatchMembers(settlements, batch, list[j]);
      var i :| 0 <= i < |settlements| && settlements[i] == list[j];
    }
  }

  lemma EmptyBatch(settlements: seq<Settlement>, batch: string)
    ensures Batch(settlements, batch) == [] <==> forall i :: 0 <= i < |settlements| ==> !Member(settlements[i], batch)
  {
    var list := Batch(settlements, batch);
    if list != [] {
      BatchMembers(settlements, batch, list[0]);
      var i :| 0 <= i < |settlements| && settlements[i] == list[0];
      assert Member(settlements[i], batch);
    }
    forall i | 0 <= i < |settlements| && Member(settlements[i], batch)
      ensures list != []
    {
      BatchMembers(settlements, batch, settlements[i]);
    }
  }

  lemma CoversExactly(b: Bank, batch: string, p: Party)
    ensures Covers(b.accounts, Batch(b.settlements, batch), p) <==> CanMeet(b, batch, p)
  {
    NetIsFlowIn(b.settlements, batch, p);
    AccountIsFirst(b.accounts, p, 0);
    if AccountOf(b.accounts, p).Some? {
      AccountIsFirst(b.accounts, p, AccountOf(b.accounts, p).value);
    }
  }

  /** The books after the batch: exactly its members are settled, and each participant's first CNY account has moved by
      what the batch brings or takes. */
  ghost predicate NetSettled(b: Bank, t: Bank, batch: string) {
    && t.direct == b.direct && |t.settlements| == |b.settlements| && |t.accounts| == |b.accounts|
    && (forall i :: 0 <= i < |b.settlements| ==>
          t.settlements[i] == if Member(b.settlements[i], batch) then b.settlements[i].(settled := true)
                              else b.settlements[i])
    && (forall k :: 0 <= k < |b.accounts| ==>
          var a := b.accounts[k];
          && t.accounts[k] == a.(balance := t.accounts[k].balance, version := t.accounts[k].version)
          && t.accounts[k].balance
             == a.balance + if IsFirstIn(b.accounts, a.party, k) then SumSeq(b.settlements, FlowIn(batch, a.party))
                else 0)
  }

  lemma NettingMoves(b: Bank, batch: string, k: nat)
    requires k < |b.accounts|
    ensures
      var a, t := b.accounts[k], NetAccount(b.accounts, Batch(b.settlements, batch), k);
      && t == a.(balance := t.balance, version := t.version)
      && t.balance
         == a.balance + if IsFirstIn(b.accounts, a.party, k) then SumSeq(b.settlements, FlowIn(batch, a.party)) else 0
  {
    var p, list := b.accounts[k].party, Batch(b.settlements, batch);
    NetIsFlowIn(b.settlements, batch, p);
    AccountIsFirst(b.accounts, p, k);
    if p !in Parties(list) {
      NetOfOutsider(list, p);
    }
  }

  /** A batch is settled if and only if it has a member and every participant can meet its net position. */
  lemma BatchSettledExactlyWhen(b: Bank, batch: string)
    ensures SettleBatch(b, batch).Ok? <==>
            && (exists i :: 0 <= i < |b.settlements| && Member(b.settlements[i], batch))
            && (forall p :: TakesPart(b.settlements, batch, p) ==> CanMeet(b, batch, p))
    ensures SettleBatch(b, batch).Ok? ==> NetSettled(b, SettleBatch(b, batch).value, batch)
  {
    EmptyBatch(b.settlements, batch);
    BatchPasses(b, batch);
    if SettleBatch(b, batch).Ok? {
      forall k | 0 <= k < |b.accounts|
        ensures
          var a, t := b.accounts[k], SettleBatch(b, batch).value.accounts[k];
          && t == a.(balance := t.balance, version := t.version)
          && t.balance == a.balance + if IsFirstIn(b.accounts, a.party, k)
                                      then SumSeq(b.settlements, FlowIn(batch, a.party)) else 0
      {
        NettingMoves(b, batch, k);
      }
    }
  }

  lemma BatchPasses(b: Bank, batch: string)
    ensures NetPasses(b.accounts, Batch(b.settlements, batch)) <==>
            forall p :: TakesPart(b.settlements, batch, p) ==> CanMeet(b, batch, p)
  {
    forall p
      ensures p in Parties(Batch(b.settlements, batch)) <==> TakesPart(b.settlements, batch, p)
      ensures Covers(b.accounts, Batch(b.settlements, batch), p) <==> CanMeet(b, batch, p)
    {
      PartiesTakePart(b.settlements, batch, p);
      CoversExactly(b, batch, p);
    }
  }
}

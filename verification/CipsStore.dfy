/** The settlement service over its tables, statement by statement, proved equal to the bank's operations. */
module CipsStore {
  import opened Results
  import opened Cips
  import opened CipsNetting

  /** The net positions of a list, for exactly the participants it names. */
  ghost predicate IsNet(net: map<Party, int>, list: seq<Settlement>) {
    net.Keys == Parties(list) && forall p :: p in net ==> net[p] == Net(list, p)
  }

  class CipsService {
    var direct: map<Party, bool>
    var accounts: seq<Account>
    var settlements: seq<Settlement>

    constructor ()
      ensures View() == EMPTY
    {
      direct, accounts, settlements := map[], [], [];
    }

    function View(): Bank
      reads this
    {
      Bank(direct, accounts, settlements)
    }

    method OpenAccount(party: Party, balance: int, currency: string) returns (r: Result<()>)
      modifies this`accounts
      ensures View() == Apply(old(View()), Op.Open(party, balance, currency))
      ensures r.Ok? <==> Attempt(old(View()), Op.Open(party, balance, currency)).Ok?
    {
      if balance < 0 {
        return Err(Conflict);
      }
      if party !in direct {
        return Err(NoRow);
      }
      if !direct[party] {
        return Err(Conflict);
      }
      accounts := accounts + [Account(party, currency, balance, balance, 0, 1)];
      return Ok(());
    }

    /** The first row of the query; a scan in row order. */
    method FindAccount(party: Party) returns (r: Option<nat>)
      ensures r == AccountOf(accounts, party)
    {
      for i := 0 to |accounts|
        invariant forall j :: 0 <= j < i ==> !Holds(accounts[j], party)
      {
        if Holds(accounts[i], party) {
          return Some(i);
        }
      }
      return None;
    }

    method MovePayment(d: nat, c: nat, amount: int)
      requires d < |accounts| && c < |accounts|
      modifies this`accounts
      ensures accounts == Shift(Shift(old(accounts), d, -amount), c, amount)
    {
      var debtor := accounts[d];
      accounts := accounts[d := debtor.(balance := debtor.balance - amount, version := debtor.version + 1)];
      var creditor := accounts[c];
      accounts := accounts[c := creditor.(balance := creditor.balance + amount, version := creditor.version + 1)];
    }

    method SettleRtgs(i: nat) returns (r: Result<bool>)
      modifies this`accounts, this`settlements
      ensures View() == Apply(old(View()), Op.Settle(i))
      ensures r.Ok? <==> Attempt(old(View()), Op.Settle(i)).Ok?
      ensures r.Ok? ==> i < |settlements| && (r.value <==> settlements[i].settled)
    {
      if i >= |settlements| {
        return Err(NoRow);
      }
      var s := settlements[i];
      if s.settled {
        return Ok(true);
      }
      var debtor := FindAccount(s.debtor);
      if debtor.None? {
        return Err(NoRow);
      }
      var creditor := FindAccount(s.creditor);
      if creditor.None? {
        return Err(NoRow);
      }
      var d, c := debtor.value, creditor.value;
      var available := accounts[d].balance - accounts[d].reserved;
      if available < s.amount {
        return Ok(false);
      }
      MovePayment(d, c, s.amount);
      settlements := settlements[i := s.(settled := true)];
      return Ok(true);
    }

    /** A refusal on the accounts comes after the row is inserted; the request is rolled back. */
    method SubmitSettlement(mode: Mode, debtor: Party, creditor: Party, amount: int, priority: int,
                            batch: Option<string>)
      returns (r: Result<()>)
      modifies this`accounts, this`settlements
      ensures View() == Apply(old(View()), Op.Submit(mode, debtor, creditor, amount, priority, batch))
      ensures r.Ok? <==> Attempt(old(View()), Op.Submit(mode, debtor, creditor, amount, priority, batch)).Ok?
    {
      if mode == OtherMode {
        return Err(Conflict);
      }
      if amount <= 0 {
        return Err(Conflict);
      }
      var accounts0, settlements0 := accounts, settlements;
      settlements := settlements + [Settlement(mode, debtor, creditor, amount, priority, batch, false)];
      if mode == Rtgs {
        var settled := SettleRtgs(|settlements0|);
        if settled.Err? {
          accounts, settlements := accounts0, settlements0;
          return Err(settled.reason);
        }
      }
      return Ok(());
    }

    /** `queue` is what the ordered query returns. */
    method ReleaseRtgsQueue() returns (r: Result<seq<nat>>)
      modifies this`accounts, this`settlements
      ensures r.Ok? <==> ReleaseQueue(old(View())).Ok?
      ensures r.Ok? ==> ReleaseQueue(old(View())) == Ok((View(), r.value))
      ensures View() == Apply(old(View()), Op.Release)
    {
      var accounts0, settlements0 := accounts, settlements;
      var queue := Queue(settlements);
      var settled := [];
      for k := 0 to |queue|
        invariant direct == old(direct)
        invariant SettleEach(old(View()), queue[..k]) == Ok((View(), settled))
      {
        PassStep(old(View()), queue, k, View(), settled);
        var one := SettleRtgs(queue[k]);
        if one.Err? {
          PassRaises(old(View()), queue, k + 1);
          accounts, settlements := accounts0, settlements0;
          return Err(one.reason);
        }
        if one.value {
          settled := settled + [queue[k]];
        }
      }
      assert queue[..|queue|] == queue;
      return Ok(settled);
    }

    /** The positions of a list, accumulated payment by payment. */
    method NetPositions(list: seq<Settlement>) returns (net: map<Party, int>)
      ensures IsNet(net, list)
    {
      net := map[];
      for i := 0 to |list|
        invariant IsNet(net, list[..i])
      {
        var s := list[i];
        ghost var before := net;
        net := net[s.debtor := PositionOf(net, s.debtor) - s.amount];
        net := net[s.creditor := PositionOf(net, s.creditor) + s.amount];
        assert list[..i + 1][..i] == list[..i];
        NetGrows(before, list[..i + 1]);
      }
      assert list[..|list|] == list;
    }

    method CheckLiquidity(net: map<Party, int>, list: seq<Settlement>) returns (r: Result<()>)
      requires IsNet(net, list)
      ensures r.Ok? <==> forall p :: p in net && net[p] < 0 ==> Covers(accounts, list, p)
    {
      var todo := net.Keys;
      while todo != {}
        invariant todo <= net.Keys
        invariant forall p :: p in net && p !in todo && net[p] < 0 ==> Covers(accounts, list, p)
        decreases todo
      {
        var p :| p in todo;
        if net[p] < 0 {
          var k := FindAccount(p);
          if k.None? || accounts[k.value].balance - accounts[k.value].reserved < -net[p] {
            assert !Covers(accounts, list, p);
            return Err(Conflict);
          }
        }
        todo := todo - {p};
      }
      return Ok(());
    }

    /** Moves the net positions; a participant without an account raises part of the way through. */
    method MovePositions(net: map<Party, int>) returns (r: Result<()>)
      modifies this`accounts
      ensures r.Ok? <==> forall p :: p in net ==> AccountOf(old(accounts), p).Some?
      ensures r.Ok? ==> AllMoved(old(accounts), accounts, net, net.Keys)
    {
      var todo := net.Keys;
      while todo != {}
        invariant todo <= net.Keys
        invariant AllMoved(old(accounts), accounts, net, net.Keys - todo)
        invariant forall p :: p in net && p !in todo ==> AccountOf(old(accounts), p).Some?
        decreases todo
      {
        var p :| p in todo;
        MovedHolders(old(accounts), accounts, net, net.Keys - todo, p);
        var found := FindAccount(p);
        if found.None? {
          return Err(NoRow);
        }
        ghost var before, done := accounts, net.Keys - todo;
        var k := found.value;
        accounts := accounts[k := accounts[k].(balance := accounts[k].balance + net[p],
                                              version := accounts[k].version + 1)];
        MovedOneMore(old(accounts), before, accounts, net, done, p);
        todo := todo - {p};
        assert net.Keys - todo == done + {p};
      }
      assert net.Keys - todo == net.Keys;
      return Ok(());
    }

    method SettleDnsBatch(batch: string) returns (r: Result<map<Party, int>>)
      modifies this`accounts, this`settlements
      ensures View() == Apply(old(View()), Op.NetBatch(batch))
      ensures r.Ok? <==> Attempt(old(View()), Op.NetBatch(batch)).Ok?
      ensures r.Ok? ==> IsNet(r.value, Batch(old(settlements), batch))
    {
      var list := FindBatch(batch);
      if list == [] {
        return Err(Conflict);
      }
      var net := NetPositions(list);
      var _ :- CheckLiquidity(net, list);
      var accounts0 := accounts;
      var moved := MovePositions(net);
      if moved.Err? {
        accounts := accounts0;
        return Err(moved.reason);
      }
      MovedIsNetted(accounts0, accounts, list, net);
      MarkSettled(batch);
      return Ok(net);
    }

    method FindBatch(batch: string) returns (list: seq<Settlement>)
      ensures list == Batch(settlements, batch)
    {
      list := [];
      for i := 0 to |settlements|
        invariant list == Batch(settlements[..i], batch)
      {
        assert settlements[..i + 1][..i] == settlements[..i];
        if InBatch(settlements[i], batch) {
          list := list + [settlements[i]];
        }
      }
      assert settlements[..|settlements|] == settlements;
    }

    method MarkSettled(batch: string)
      modifies this`settlements
      ensures settlements == MarkBatch(old(settlements), batch)
    {
      for i := 0 to |settlements|
        invariant |settlements| == |old(settlements)|
        invariant forall j :: i <= j < |settlements| ==> settlements[j] == old(settlements)[j]
        invariant forall j :: 0 <= j < i ==> settlements[j] == MarkBatch(old(settlements), batch)[j]
      {
        if InBatch(settlements[i], batch) {
          settlements := settlements[i := settlements[i].(settled := true)];
        }
      }
    }
  }

  // ----- what the loops rely on -----

  function PositionOf(net: map<Party, int>, p: Party): int {
    if p in net then net[p] else 0
  }

  /** A dictionary of positions with one payment more. */
  function WithPayment(net: map<Party, int>, s: Settlement): map<Party, int> {
    var paid := net[s.debtor := PositionOf(net, s.debtor) - s.amount];
    paid[s.creditor := PositionOf(paid, s.creditor) + s.amount]
  }

  lemma PaymentShifts(net: map<Party, int>, s: Settlement, p: Party)
    ensures PositionOf(WithPayment(net, s), p) == PositionOf(net, p) + Flow(p)(s)
  {
  }

  lemma NetIsPosition(net: map<Party, int>, list: seq<Settlement>, p: Party)
    requires IsNet(net, list)
    ensures PositionOf(net, p) == Net(list, p)
  {
    if p !in net {
      NetOfOutsider(list, p);
    }
  }

  lemma NetGrows(before: map<Party, int>, list: seq<Settlement>)
    requires list != [] && IsNet(before, list[..|list| - 1])
    ensures IsNet(WithPayment(before, list[|list| - 1]), list)
  {
    var n := |list| - 1;
    var after := WithPayment(before, list[n]);
    PartiesGrow(list);
    forall p | p in after
      ensures after[p] == Net(list, p)
    {
      NetIsPosition(before, list[..n], p);
      PaymentShifts(before, list[n], p);
    }
  }

  lemma MovedIsNetted(start: seq<Account>, after: seq<Account>, list: seq<Settlement>, net: map<Party, int>)
    requires IsNet(net, list) && AllMoved(start, after, net, net.Keys)
    ensures after == NetAccounts(start, list)
  {
    forall k | 0 <= k < |after|
      ensures after[k] == NetAccount(start, list, k)
    {
      if AccountOf(start, start[k].party) == Some(k) && start[k].party in net {
        assert net[start[k].party] == Net(list, start[k].party);
      }
    }
  }

  /** The account after the positions of the participants in `done` have been moved. */
  function Moved(accounts: seq<Account>, k: nat, net: map<Party, int>, done: set<Party>): Account
    requires k < |accounts| && done <= net.Keys
  {
    var a := accounts[k];
    if a.party in done && AccountOf(accounts, a.party) == Some(k)
    then a.(balance := a.balance + net[a.party], version := a.version + 1)
    else a
  }

  predicate AllMoved(start: seq<Account>, after: seq<Account>, net: map<Party, int>, done: set<Party>) {
    && done <= net.Keys && |after| == |start|
    && (forall k :: 0 <= k < |start| ==> after[k] == Moved(start, k, net, done))
  }

  lemma MovedHolders(start: seq<Account>, after: seq<Account>, net: map<Party, int>, done: set<Party>, p: Party)
    requires AllMoved(start, after, net, done)
    ensures AccountOf(after, p) == AccountOf(start, p)
  {
    assert SameHolders(start, after);
    HoldersKeepAccounts(start, after, p);
  }

  lemma MovedOneMore(start: seq<Account>, before: seq<Account>, after: seq<Account>, net: map<Party, int>,
                     done: set<Party>, p: Party)
    requires done + {p} <= net.Keys && p !in done && AccountOf(start, p).Some? && AllMoved(start, before, net, done)
    requires after == Shift(before, AccountOf(start, p).value, net[p])
    ensures AllMoved(start, after, net, done + {p})
  {
    forall k | 0 <= k < |start|
      ensures after[k] == Moved(start, k, net, done + {p})
    {
      if k == AccountOf(start, p).value {
        assert start[k].party == p && before[k] == start[k];
      }
    }
  }

  lemma PassStep(b: Bank, queue: seq<nat>, k: nat, now: Bank, done: seq<nat>)
    requires k < |queue| && SettleEach(b, queue[..k]) == Ok((now, done))
    ensures SettleOne(now, queue[k]).Err? ==> SettleEach(b, queue[..k + 1]).Err?
    ensures SettleOne(now, queue[k]).Ok? ==>
              var t := SettleOne(now, queue[k]).value;
              var settled := queue[k] < |t.settlements| && t.settlements[queue[k]].settled;
              SettleEach(b, queue[..k + 1]) == Ok((t, if settled then done + [queue[k]] else done))
  {
    assert queue[..k + 1][..k] == queue[..k];
    assert done + [] == done;
  }

  lemma {:induction false} PassRaises(b: Bank, queue: seq<nat>, n: nat)
    requires n <= |queue| && SettleEach(b, queue[..n]).Err?
    ensures SettleEach(b, queue).Err?
    decreases |queue| - n
  {
    if n == |queue| {
      assert queue[..n] == queue;
    } else {
      assert queue[..n + 1][..n] == queue[..n];
      PassRaises(b, queue, n + 1);
    }
  }
}

/** Multilateral netting against gross settlement, one payment at a time. */
module CipsNetting {
  import opened Results
  import opened Sums
  import opened Cips

  /** Same rows but for balances and versions. */
  predicate SameHolders(a: seq<Account>, b: seq<Account>) {
    |a| == |b| && forall k :: 0 <= k < |a| ==> b[k] == a[k].(balance := b[k].balance, version := b[k].version)
  }

  lemma HoldersKeepAccounts(a: seq<Account>, b: seq<Account>, p: Party)
    requires SameHolders(a, b)
    ensures AccountOf(a, p) == AccountOf(b, p)
  {
    assert forall k :: 0 <= k < |a| ==> (Holds(a[k], p) <==> Holds(b[k], p));
    if AccountOf(a, p).Some? && AccountOf(b, p).Some? {
      var i, j := AccountOf(a, p).value, AccountOf(b, p).value;
      assert Holds(a[j], p) && Holds(b[i], p);
    }
  }

  predicate IsFirst(accounts: seq<Account>, k: nat)
    requires k < |accounts|
  {
    AccountOf(accounts, accounts[k].party) == Some(k)
  }

  predicate AllHaveAccounts(accounts: seq<Account>, list: seq<Settlement>) {
    forall i :: 0 <= i < |list| ==> HasAccounts(accounts, list[i])
  }

  /** Pays a list in order whatever the liquidity. */
  function PayAll(accounts: seq<Account>, list: seq<Settlement>): (r: seq<Account>)
    requires AllHaveAccounts(accounts, list)
    ensures SameHolders(accounts, r)
  {
    if list == [] then accounts
    else
      var n := |list| - 1;
      var before := PayAll(accounts, list[..n]);
      HoldersKeepAccounts(accounts, before, list[n].debtor);
      HoldersKeepAccounts(accounts, before, list[n].creditor);
      Pay(before, list[n])
  }

  /** Gross settlement: every payment in turn must find its amount on its debtor's first CNY account, beyond what is
      reserved there. */
  function GrossAll(accounts: seq<Account>, list: seq<Settlement>): Option<seq<Account>> {
    if list == [] then Some(accounts)
    else
      var n := |list| - 1;
      match GrossAll(accounts, list[..n])
      case None => None
      case Some(before) =>
        AffordableExactly(before, list[n]);
        if Affordable(before, list[n]) then Some(Pay(before, list[n])) else None
  }

  lemma OneMoreHasAccounts(accounts: seq<Account>, before: seq<Account>, list: seq<Settlement>)
    requires list != [] && SameHolders(accounts, before) && AllHaveAccounts(accounts, list[..|list| - 1])
    requires HasAccounts(before, list[|list| - 1])
    ensures AllHaveAccounts(accounts, list)
  {
    var n := |list| - 1;
    HoldersKeepAccounts(accounts, before, list[n].debtor);
    HoldersKeepAccounts(accounts, before, list[n].creditor);
    forall i | 0 <= i < |list|
      ensures HasAccounts(accounts, list[i])
    {
      if i < n {
        assert list[..n][i] == list[i];
      }
    }
  }

  lemma {:induction false} GrossPaysAll(accounts: seq<Account>, list: seq<Settlement>)
    requires GrossAll(accounts, list).Some?
    ensures AllHaveAccounts(accounts, list) && GrossAll(accounts, list).value == PayAll(accounts, list)
    decreases |list|
  {
    if list != [] {
      var n := |list| - 1;
      GrossPaysAll(accounts, list[..n]);
      AffordableExactly(GrossAll(accounts, list[..n]).value, list[n]);
      OneMoreHasAccounts(accounts, PayAll(accounts, list[..n]), list);
    }
  }

  // ----- where the money goes -----

  lemma PayMoves(accounts: seq<Account>, s: Settlement, k: nat)
    requires HasAccounts(accounts, s) && k < |accounts|
    ensures Pay(accounts, s)[k].balance
            == accounts[k].balance + if IsFirst(accounts, k) then Flow(accounts[k].party)(s) else 0
  {
    var d, c := AccountOf(accounts, s.debtor).value, AccountOf(accounts, s.creditor).value;
    if IsFirst(accounts, k) {
      assert Holds(accounts[k], accounts[k].party);
    }
    assert d == k <==> IsFirst(accounts, k) && s.debtor == accounts[k].party;
    assert c == k <==> IsFirst(accounts, k) && s.creditor == accounts[k].party;
  }

  /** Whatever the order, each participant's first account moves by its net position and nothing else moves. */
  lemma {:induction false} PayAllMoves(accounts: seq<Account>, list: seq<Settlement>, k: nat)
    requires AllHaveAccounts(accounts, list) && k < |accounts|
    ensures PayAll(accounts, list)[k].balance
            == accounts[k].balance + if IsFirst(accounts, k) then Net(list, accounts[k].party) else 0
    decreases |list|
  {
    if list != [] {
      var n := |list| - 1;
      var before := PayAll(accounts, list[..n]);
      PayAllMoves(accounts, list[..n], k);
      HoldersKeepAccounts(accounts, before, list[n].debtor);
      HoldersKeepAccounts(accounts, before, list[n].creditor);
      HoldersKeepAccounts(accounts, before, accounts[k].party);
      PayMoves(before, list[n], k);
    }
  }

  /** A gross debtor keeps its reserve from its last payment on, and only gains before its first. */
  lemma {:induction false} GrossKeepsReserves(accounts: seq<Account>, list: seq<Settlement>, k: nat)
    requires GrossAll(accounts, list).Some? && k < |accounts|
    requires forall i :: 0 <= i < |list| ==> list[i].amount > 0
    ensures |GrossAll(accounts, list).value| == |accounts|
    ensures var after := GrossAll(accounts, list).value[k];
            after.balance >= accounts[k].balance || after.balance >= after.reserved
    decreases |list|
  {
    GrossPaysAll(accounts, list);
    if list != [] {
      var n := |list| - 1;
      GrossKeepsReserves(accounts, list[..n], k);
      GrossPaysAll(accounts, list[..n]);
      var before := PayAll(accounts, list[..n]);
      AffordableExactly(before, list[n]);
      PayMoves(before, list[n], k);
    }
  }

  lemma {:induction false} NetOfOutsider(list: seq<Settlement>, p: Party)
    requires p !in Parties(list)
    ensures Net(list, p) == 0
    decreases |list|
  {
    if list != [] {
      var n := |list| - 1;
      forall i | 0 <= i < |list|
        ensures list[i].debtor != p && list[i].creditor != p
      {
        assert list[i].debtor in Parties(list) && list[i].creditor in Parties(list);
      }
      assert p !in Parties(list[..n]);
      NetOfOutsider(list[..n], p);
    }
  }

  lemma PartiesHaveAccounts(accounts: seq<Account>, list: seq<Settlement>)
    ensures AllHaveAccounts(accounts, list) <==> forall p :: p in Parties(list) ==> AccountOf(accounts, p).Some?
  {
    if forall p :: p in Parties(list) ==> AccountOf(accounts, p).Some? {
      forall i | 0 <= i < |list|
        ensures HasAccounts(accounts, list[i])
      {
        assert list[i].debtor in Parties(list) && list[i].creditor in Parties(list);
      }
    }
  }

  /** The net check passes exactly when paying everything unchecked, in the order of the batch, would leave every
      account either no lower than before or with its reserve intact. */
  lemma {:induction false} NetPassesExactlyWhen(accounts: seq<Account>, list: seq<Settlement>)
    requires AllHaveAccounts(accounts, list)
    ensures NetPasses(accounts, list) <==>
            forall k :: 0 <= k < |accounts| ==>
                          var after := PayAll(accounts, list)[k];
                          after.balance >= accounts[k].balance || after.balance >= after.reserved
  {
    PartiesHaveAccounts(accounts, list);
    var paid := PayAll(accounts, list);
    forall k | 0 <= k < |accounts|
      ensures IsFirst(accounts, k) && accounts[k].party in Parties(list) ==>
                (Covers(accounts, list, accounts[k].party)
                 <==> paid[k].balance >= accounts[k].balance || paid[k].balance >= paid[k].reserved)
      ensures !(IsFirst(accounts, k) && accounts[k].party in Parties(list)) ==> paid[k].balance == accounts[k].balance
    {
      PayAllMoves(accounts, list, k);
      if accounts[k].party !in Parties(list) {
        NetOfOutsider(list, accounts[k].party);
      }
    }
    if forall k :: 0 <= k < |accounts| ==>
        paid[k].balance >= accounts[k].balance || paid[k].balance >= paid[k].reserved {
      forall p | p in Parties(list)
        ensures Covers(accounts, list, p)
      {
        var k := AccountOf(accounts, p).value;
        assert IsFirst(accounts, k) && accounts[k].party == p;
      }
    }
  }

  lemma NetAccountsKeepHolders(accounts: seq<Account>, list: seq<Settlement>)
    ensures SameHolders(accounts, NetAccounts(accounts, list))
  {
  }

  lemma NetAccountsMove(accounts: seq<Account>, list: seq<Settlement>, k: nat)
    requires AllHaveAccounts(accounts, list) && k < |accounts|
    ensures NetAccounts(accounts, list)[k].balance == PayAll(accounts, list)[k].balance
    ensures SameHolders(accounts, NetAccounts(accounts, list))
  {
    NetAccountsKeepHolders(accounts, list);
    PayAllMoves(accounts, list, k);
    if accounts[k].party !in Parties(list) {
      NetOfOutsider(list, accounts[k].party);
    }
  }

  // ----- the batch -----

  /** The batch holds each queued netted settlement of its name as often as it was submitted, and nothing else. */
  lemma {:induction false} BatchMembers(settlements: seq<Settlement>, batch: string, s: Settlement)
    ensures multiset(Batch(settlements, batch))[s]
            == if s.mode == Dns && s.batch == Some(batch) && !s.settled then multiset(settlements)[s] else 0
    ensures s in Batch(settlements, batch) <==> s in settlements && InBatch(s, batch)
    decreases |settlements|
  {
    if settlements != [] {
      var n := |settlements| - 1;
      BatchMembers(settlements[..n], batch, s);
      assert settlements == settlements[..n] + [settlements[n]];
    }
  }

  lemma PermutationKeepsNet(list: seq<Settlement>, order: seq<Settlement>, p: Party)
    requires multiset(order) == multiset(list)
    ensures Net(order, p) == Net(list, p)
  {
    SumPermutation(order, list, Flow(p));
  }

  lemma PermutationKeepsMembers(list: seq<Settlement>, order: seq<Settlement>)
    requires multiset(order) == multiset(list)
    ensures forall s :: s in order <==> s in list
  {
    forall s
      ensures s in order <==> s in list
    {
      assert s in multiset(order) <==> s in multiset(list);
    }
  }

  lemma PermutationKeepsAccounts(accounts: seq<Account>, list: seq<Settlement>, order: seq<Settlement>)
    requires multiset(order) == multiset(list) && AllHaveAccounts(accounts, order)
    ensures AllHaveAccounts(accounts, list)
  {
    PermutationKeepsMembers(list, order);
    forall i | 0 <= i < |list|
      ensures HasAccounts(accounts, list[i])
    {
      assert list[i] in order;
    }
  }

  /** A gross order settles what the batch settles net, account by account. */
  lemma GrossAgreesWithNet(accounts: seq<Account>, list: seq<Settlement>, order: seq<Settlement>, k: nat)
    requires multiset(order) == multiset(list) && AllHaveAccounts(accounts, list) && AllHaveAccounts(accounts, order)
    requires k < |accounts|
    ensures PayAll(accounts, list)[k].balance == PayAll(accounts, order)[k].balance
            == NetAccounts(accounts, list)[k].balance
    ensures SameHolders(accounts, NetAccounts(accounts, list))
  {
    PayAllMoves(accounts, order, k);
    PayAllMoves(accounts, list, k);
    NetAccountsMove(accounts, list, k);
    PermutationKeepsNet(list, order, accounts[k].party);
  }

  lemma GrossOrderPassesNet(accounts: seq<Account>, list: seq<Settlement>, order: seq<Settlement>)
    requires multiset(order) == multiset(list) && GrossAll(accounts, order).Some?
    requires forall i :: 0 <= i < |order| ==> order[i].amount > 0
    ensures AllHaveAccounts(accounts, list) && NetPasses(accounts, list)
  {
    GrossPaysAll(accounts, order);
    PermutationKeepsAccounts(accounts, list, order);
    forall k | 0 <= k < |accounts|
      ensures var after := PayAll(accounts, list)[k];
              after.balance >= accounts[k].balance || after.balance >= after.reserved
    {
      GrossKeepsReserves(accounts, order, k);
      GrossAgreesWithNet(accounts, list, order, k);
    }
    NetPassesExactlyWhen(accounts, list);
  }

  /** A batch that some order could settle gross, without a debtor running short, is settled net,
      with the same balances as that order. So all such orders agree. */
  lemma NettingSettlesWhatGrossCan(b: Bank, batch: string, order: seq<Settlement>)
    requires forall i :: 0 <= i < |b.settlements| ==> b.settlements[i].amount > 0
    requires order != [] && multiset(order) == multiset(Batch(b.settlements, batch))
    requires GrossAll(b.accounts, order).Some?
    ensures SettleBatch(b, batch).Ok?
    ensures var net, gross := SettleBatch(b, batch).value.accounts, GrossAll(b.accounts, order).value;
            |net| == |gross| && forall k :: 0 <= k < |net| ==> net[k] == gross[k].(version := net[k].version)
  {
    var list := Batch(b.settlements, batch);
    PermutationKeepsMembers(list, order);
    assert order[0] in list;
    forall i | 0 <= i < |order|
      ensures order[i].amount > 0
    {
      assert order[i] in list;
      BatchMembers(b.settlements, batch, order[i]);
    }
    GrossOrderPassesNet(b.accounts, list, order);
    GrossPaysAll(b.accounts, order);
    var net, gross := NetAccounts(b.accounts, list), PayAll(b.accounts, order);
    forall k | 0 <= k < |b.accounts|
      ensures net[k] == gross[k].(version := net[k].version)
    {
      GrossAgreesWithNet(b.accounts, list, order, k);
    }
  }

  const GRID := [Settlement(Dns, "A", "B", 10, 5, Some("D"), false), Settlement(Dns, "B", "A", 10, 5, Some("D"), false)]
  const HOLDERS := [Account("A", "CNY", 5, 5, 0, 1), Account("B", "CNY", 5, 5, 0, 1)]

  lemma GridIsTheBatch()
    ensures Batch(GRID, "D") == GRID
  {
    var first := GRID[..1];
    assert first == [GRID[0]] && first[..0] == [];
    assert Batch(first, "D") == Batch(first[..0], "D") + [GRID[0]];
    assert Batch(GRID, "D") == Batch(first, "D") + [GRID[1]];
  }

  lemma GridNets(p: Party)
    requires p == "A" || p == "B"
    ensures Net(GRID, p) == 0
  {
    assert GRID == [GRID[0]] + [GRID[1]] && [GRID[0]] == [] + [GRID[0]];
    SumAppend([], GRID[0], Flow(p));
    SumAppend([GRID[0]], GRID[1], Flow(p));
  }

  lemma HoldersFound()
    ensures AccountOf(HOLDERS, "A") == Some(0) && AccountOf(HOLDERS, "B") == Some(1)
  {
    assert Holds(HOLDERS[0], "A") && Holds(HOLDERS[1], "B");
  }

  lemma GridParties()
    ensures forall p :: p in Parties(GRID) ==> p == "A" || p == "B"
  {
  }

  lemma GridCovers(p: Party)
    requires p == "A" || p == "B"
    ensures Covers(HOLDERS, GRID, p)
  {
    GridNets(p);
    HoldersFound();
  }

  lemma GridPassesNet()
    ensures NetPasses(HOLDERS, GRID)
  {
    GridParties();
    forall p | p in Parties(GRID)
      ensures Covers(HOLDERS, GRID, p)
    {
      GridCovers(p);
    }
  }

  lemma NobodyPays(s: Settlement)
    requires s in GRID
    ensures HasAccounts(HOLDERS, s) && !Affordable(HOLDERS, s)
  {
    HoldersFound();
    AffordableExactly(HOLDERS, s);
  }

  /** Somebody must pay first, and nobody can. */
  lemma {:induction false} GridIsLocked(order: seq<Settlement>)
    requires order != [] && forall i :: 0 <= i < |order| ==> order[i] in GRID
    ensures GrossAll(HOLDERS, order).None?
    decreases |order|
  {
    var n := |order| - 1;
    if n == 0 {
      assert order[..0] == [];
      NobodyPays(order[0]);
    } else {
      GridIsLocked(order[..n]);
    }
  }

  /** The converse fails: two participants that each owe the other more than they hold are settled net,
      and in no gross order. */
  lemma NettingBreaksGridlock(b: Bank, order: seq<Settlement>)
    requires b.accounts == HOLDERS && b.settlements == GRID
    requires multiset(order) == multiset(Batch(b.settlements, "D"))
    ensures SettleBatch(b, "D").Ok? && GrossAll(b.accounts, order).None?
  {
    GridIsTheBatch();
    GridSettles(b);
    GridOrders(order);
    GridIsLocked(order);
  }

  lemma GridSettles(b: Bank)
    requires b.accounts == HOLDERS && b.settlements == GRID
    ensures SettleBatch(b, "D").Ok?
  {
    GridIsTheBatch();
    GridPassesNet();
  }

  lemma GridOrders(order: seq<Settlement>)
    requires multiset(order) == multiset(GRID)
    ensures order != [] && forall i :: 0 <= i < |order| ==> order[i] in GRID
  {
    PermutationKeepsMembers(GRID, order);
    assert |multiset(order)| == |multiset(GRID)|;
  }

  // ----- net positions cancel -----

  ghost function Positions(list: seq<Settlement>, parties: set<Party>): map<Party, int> {
    map p | p in parties :: Net(list, p)
  }

  /** The net positions of a batch add up to zero. */
  lemma {:induction false} NetPositionsCancel(list: seq<Settlement>, parties: set<Party>)
    requires Parties(list) <= parties
    ensures Total(Positions(list, parties), Itself()) == 0
    decreases |list|
  {
    if list == [] {
      ZeroTotal(Positions(list, parties));
    } else {
      var n := |list| - 1;
      PartiesGrow(list);
      NetPositionsCancel(list[..n], parties);
      PositionsStep(list, parties);
      TransferKeepsTotal(Positions(list[..n], parties), list[n].debtor, list[n].creditor, list[n].amount);
    }
  }

  lemma TransferKeepsTotal(m: map<Party, int>, from: Party, to: Party, x: int)
    requires from in m && to in m
    ensures Total(Added(Added(m, from, -x), to, x), Itself()) == Total(m, Itself())
  {
    AddedTotal(m, from, -x);
    AddedTotal(Added(m, from, -x), to, x);
  }

  function Added(m: map<Party, int>, p: Party, x: int): map<Party, int>
    requires p in m
  {
    m[p := m[p] + x]
  }

  lemma AddedTotal(m: map<Party, int>, p: Party, x: int)
    requires p in m
    ensures Total(Added(m, p, x), Itself()) == Total(m, Itself()) + x
  {
    TotalUpdate(m, Itself(), p, m[p] + x);
    assert Itself()(m[p] + x) == m[p] + x && Itself()(m[p]) == m[p];
  }

  lemma PositionsStep(list: seq<Settlement>, parties: set<Party>)
    requires list != [] && list[|list| - 1].debtor in parties && list[|list| - 1].creditor in parties
    ensures var s := list[|list| - 1];
            Positions(list, parties) == Added(Added(Positions(list[..|list| - 1], parties), s.debtor, -s.amount),
                                              s.creditor, s.amount)
  {
    var s, before := list[|list| - 1], Positions(list[..|list| - 1], parties);
    var after := Added(Added(before, s.debtor, -s.amount), s.creditor, s.amount);
    forall p | p in parties
      ensures Positions(list, parties)[p] == after[p]
    {
      assert Net(list, p) == Net(list[..|list| - 1], p) + Flow(p)(s);
    }
  }

  lemma PartiesGrow(list: seq<Settlement>)
    requires list != []
    ensures Parties(list) == Parties(list[..|list| - 1]) + {list[|list| - 1].debtor, list[|list| - 1].creditor}
  {
    var n := |list| - 1;
    assert list[n].debtor in Parties(list) && list[n].creditor in Parties(list);
    forall p | p in Parties(list[..n])
      ensures p in Parties(list)
    {
      var i :| 0 <= i < n && (list[..n][i].debtor == p || list[..n][i].creditor == p);
      assert list[i] == list[..n][i];
    }
    forall p | p in Parties(list)
      ensures p in Parties(list[..n]) || p == list[n].debtor || p == list[n].creditor
    {
      var i :| 0 <= i <= n && (list[i].debtor == p || list[i].creditor == p);
      if i < n {
        assert list[..n][i] == list[i];
      }
    }
  }

  lemma {:induction false} ZeroTotal(m: map<Party, int>)
    requires forall p :: p in m ==> m[p] == 0
    ensures Total(m, Itself()) == 0
    decreases |m|
  {
    if m != map[] {
      var p :| p in m && Total(m, Itself()) == Itself()(m[p]) + Total(m - {p}, Itself());
      ZeroTotal(m - {p});
    }
  }

  // ----- conservation -----

  function BalanceOf(): Account -> int {
    (a: Account) => a.balance
  }

  ghost function Money(accounts: seq<Account>): int {
    SumSeq(accounts, BalanceOf())
  }

  lemma PayConserves(accounts: seq<Account>, s: Settlement)
    requires HasAccounts(accounts, s)
    ensures Money(Pay(accounts, s)) == Money(accounts)
  {
    var d, c := AccountOf(accounts, s.debtor).value, AccountOf(accounts, s.creditor).value;
    var paid := Shift(accounts, d, -s.amount);
    SumUpdate(accounts, d, paid[d], BalanceOf());
    SumUpdate(paid, c, Shift(paid, c, s.amount)[c], BalanceOf());
  }

  lemma {:induction false} PayAllConserves(accounts: seq<Account>, list: seq<Settlement>)
    requires AllHaveAccounts(accounts, list)
    ensures Money(PayAll(accounts, list)) == Money(accounts)
    decreases |list|
  {
    if list != [] {
      var n := |list| - 1;
      PayAllConserves(accounts, list[..n]);
      var before := PayAll(accounts, list[..n]);
      HoldersKeepAccounts(accounts, before, list[n].debtor);
      HoldersKeepAccounts(accounts, before, list[n].creditor);
      PayConserves(before, list[n]);
    }
  }

  /** Net settlement creates and destroys no money. */
  lemma NettingConserves(accounts: seq<Account>, list: seq<Settlement>)
    requires NetPasses(accounts, list)
    ensures Money(NetAccounts(accounts, list)) == Money(accounts)
  {
    PartiesHaveAccounts(accounts, list);
    var net, paid := NetAccounts(accounts, list), PayAll(accounts, list);
    forall k | 0 <= k < |accounts|
      ensures BalanceOf()(net[k]) == BalanceOf()(paid[k])
    {
      NetAccountsMove(accounts, list, k);
    }
    SumSame(net, BalanceOf(), paid, BalanceOf());
    PayAllConserves(accounts, list);
  }
}

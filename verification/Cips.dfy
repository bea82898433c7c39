/** CIPS settlement: the RTGS queue, the net settlement of a batch, and the bank's runs. */
module Cips {
  import opened Results
  import opened Sums

  type Party = string

  datatype Mode = Rtgs | Dns | OtherMode

  /** `opening` records the balance at opening; nothing else reads it. */
  datatype Account = Account(party: Party, currency: string, opening: int, balance: int, reserved: nat, version: nat)

  datatype Settlement = Settlement(mode: Mode, debtor: Party, creditor: Party, amount: int, priority: int,
                                   batch: Option<string>, settled: bool)

  /** `direct` tells which registered participants are direct ones. Rows are numbered in insertion order. */
  datatype Bank = Bank(direct: map<Party, bool>, accounts: seq<Account>, settlements: seq<Settlement>)

  const EMPTY := Bank(map[], [], [])

  // ----- accounts -----

  predicate Holds(a: Account, p: Party) {
    a.party == p && a.currency == "CNY"
  }

  /** The participant's first CNY account. */
  function AccountOf(accounts: seq<Account>, p: Party): (r: Option<nat>)
    ensures r.Some? ==> r.value < |accounts| && Holds(accounts[r.value], p)
                        && forall j :: 0 <= j < r.value ==> !Holds(accounts[j], p)
    ensures r.None? ==> forall j :: 0 <= j < |accounts| ==> !Holds(accounts[j], p)
  {
    if accounts == [] then None
    else
      var n := |accounts| - 1;
      var earlier := AccountOf(accounts[..n], p);
      if earlier.Some? then earlier
      else if Holds(accounts[n], p) then Some(n) else None
  }

  function Available(a: Account): int {
    a.balance - a.reserved
  }

  function Shift(accounts: seq<Account>, k: nat, amount: int): seq<Account>
    requires k < |accounts|
  {
    accounts[k := accounts[k].(balance := accounts[k].balance + amount, version := accounts[k].version + 1)]
  }

  predicate HasAccounts(accounts: seq<Account>, s: Settlement) {
    AccountOf(accounts, s.debtor).Some? && AccountOf(accounts, s.creditor).Some?
  }

  predicate CanPay(accounts: seq<Account>, s: Settlement) {
    HasAccounts(accounts, s) && s.amount <= Available(accounts[AccountOf(accounts, s.debtor).value])
  }

  // ----- accounts and liquidity, said in rows -----

  /** Account `k` is the participant's first one in CNY. */
  predicate IsFirstIn(accounts: seq<Account>, p: Party, k: nat) {
    && k < |accounts| && accounts[k].party == p && accounts[k].currency == "CNY"
    && forall j :: 0 <= j < k ==> !(accounts[j].party == p && accounts[j].currency == "CNY")
  }

  /** The participant has an account in CNY. */
  predicate Known(accounts: seq<Account>, p: Party) {
    exists k :: 0 <= k < |accounts| && accounts[k].party == p && accounts[k].currency == "CNY"
  }

  /** Both have accounts, and the first CNY account of the debtor has the amount beyond what is reserved on it. */
  predicate Affordable(accounts: seq<Account>, s: Settlement) {
    && Known(accounts, s.debtor) && Known(accounts, s.creditor)
    && exists k :: 0 <= k < |accounts| && IsFirstIn(accounts, s.debtor, k)
                   && s.amount <= accounts[k].balance - accounts[k].reserved
  }

  lemma AccountIsFirst(accounts: seq<Account>, p: Party, k: nat)
    ensures AccountOf(accounts, p) == Some(k) <==> IsFirstIn(accounts, p, k)
    ensures AccountOf(accounts, p).Some? <==> Known(accounts, p)
  {
    var r := AccountOf(accounts, p);
    if r.Some? {
      assert Holds(accounts[r.value], p);
    }
    if IsFirstIn(accounts, p, k) {
      assert Holds(accounts[k], p);
    }
  }

  lemma AffordableExactly(accounts: seq<Account>, s: Settlement)
    ensures Affordable(accounts, s) <==> CanPay(accounts, s)
    ensures Known(accounts, s.debtor) && Known(accounts, s.creditor) <==> HasAccounts(accounts, s)
  {
    AccountIsFirst(accounts, s.creditor, 0);
    AccountIsFirst(accounts, s.debtor, 0);
    if k :| 0 <= k < |accounts| && IsFirstIn(accounts, s.debtor, k) {
      AccountIsFirst(accounts, s.debtor, k);
    }
    if AccountOf(accounts, s.debtor).Some? {
      AccountIsFirst(accounts, s.debtor, AccountOf(accounts, s.debtor).value);
    }
  }

  function Pay(accounts: seq<Account>, s: Settlement): seq<Account>
    requires HasAccounts(accounts, s)
  {
    Shift(Shift(accounts, AccountOf(accounts, s.debtor).value, -s.amount), AccountOf(accounts, s.creditor).value,
          s.amount)
  }

  // ----- gross settlement -----

  function SettleOne(b: Bank, i: nat): Result<Bank> {
    if i >= |b.settlements| then Err(NoRow)
    else
      var s := b.settlements[i];
      if s.settled then Ok(b)
      else if !HasAccounts(b.accounts, s) then Err(NoRow)
      else if !CanPay(b.accounts, s) then Ok(b)
      else Ok(b.(accounts := Pay(b.accounts, s), settlements := b.settlements[i := s.(settled := true)]))
  }

  predicate Queued(s: Settlement) {
    s.mode == Rtgs && !s.settled
  }

  /** Higher priority first, then the older row. */
  predicate Before(settlements: seq<Settlement>, i: nat, j: nat)
    requires i < |settlements| && j < |settlements|
  {
    settlements[i].priority > settlements[j].priority || (settlements[i].priority == settlements[j].priority && i < j)
  }

  function InsertInOrder(settlements: seq<Settlement>, queue: seq<nat>, i: nat): (r: seq<nat>)
    requires i < |settlements| && forall k :: 0 <= k < |queue| ==> queue[k] < |settlements|
    ensures forall k :: 0 <= k < |r| ==> r[k] < |settlements|
  {
    if queue == [] then [i]
    else if Before(settlements, i, queue[0]) then [i] + queue
    else [queue[0]] + InsertInOrder(settlements, queue[1..], i)
  }

  function QueueUpTo(settlements: seq<Settlement>, n: nat): (r: seq<nat>)
    requires n <= |settlements|
    ensures forall k :: 0 <= k < |r| ==> r[k] < |settlements|
  {
    if n == 0 then []
    else
      var queue := QueueUpTo(settlements, n - 1);
      if Queued(settlements[n - 1]) then InsertInOrder(settlements, queue, n - 1) else queue
  }

  /** What the ordered query for the RTGS queue returns. */
  function Queue(settlements: seq<Settlement>): seq<nat> {
    QueueUpTo(settlements, |settlements|)
  }

  /** One pass over a queue read beforehand, with the rows found settled after their turn. */
  function SettleEach(b: Bank, queue: seq<nat>): Result<(Bank, seq<nat>)> {
    if queue == [] then Ok((b, []))
    else
      var n := |queue| - 1;
      var before :- SettleEach(b, queue[..n]);
      var after :- SettleOne(before.0, queue[n]);
      var settled := queue[n] < |after.settlements| && after.settlements[queue[n]].settled;
      Ok((after, before.1 + if settled then [queue[n]] else []))
  }

  function ReleaseQueue(b: Bank): Result<(Bank, seq<nat>)> {
    SettleEach(b, Queue(b.settlements))
  }

  // ----- net settlement -----

  predicate InBatch(s: Settlement, batch: string) {
    s.mode == Dns && s.batch == Some(batch) && !s.settled
  }

  /** The queued settlements of a batch, oldest first. */
  function Batch(settlements: seq<Settlement>, batch: string): seq<Settlement> {
    if settlements == [] then []
    else
      var n := |settlements| - 1;
      Batch(settlements[..n], batch) + if InBatch(settlements[n], batch) then [settlements[n]] else []
  }

  function Flow(p: Party): Settlement -> int {
    (s: Settlement) => (if s.creditor == p then s.amount else 0) - if s.debtor == p then s.amount else 0
  }

  /** A participant's net position in a list of settlements. */
  ghost function Net(list: seq<Settlement>, p: Party): int {
    SumSeq(list, Flow(p))
  }

  function Parties(list: seq<Settlement>): set<Party> {
    (set i | 0 <= i < |list| :: list[i].debtor) + (set i | 0 <= i < |list| :: list[i].creditor)
  }

  ghost predicate Covers(accounts: seq<Account>, list: seq<Settlement>, p: Party) {
    && AccountOf(accounts, p).Some?
    && var a := accounts[AccountOf(accounts, p).value];
       Net(list, p) < 0 ==> -Net(list, p) <= Available(a)
  }

  /** Every participant has an account, and a net debtor's covers its net position. */
  ghost predicate NetPasses(accounts: seq<Account>, list: seq<Settlement>) {
    forall p :: p in Parties(list) ==> Covers(accounts, list, p)
  }

  ghost function NetAccount(accounts: seq<Account>, list: seq<Settlement>, k: nat): Account
    requires k < |accounts|
  {
    var a := accounts[k];
    if a.party in Parties(list) && AccountOf(accounts, a.party) == Some(k)
    then a.(balance := a.balance + Net(list, a.party), version := a.version + 1)
    else a
  }

  ghost function NetAccounts(accounts: seq<Account>, list: seq<Settlement>): seq<Account> {
    seq(|accounts|, k requires 0 <= k < |accounts| => NetAccount(accounts, list, k))
  }

  function MarkBatch(settlements: seq<Settlement>, batch: string): seq<Settlement> {
    seq(|settlements|, i requires 0 <= i < |settlements| =>
      if InBatch(settlements[i], batch) then settlements[i].(settled := true) else settlements[i])
  }

  ghost function SettleBatch(b: Bank, batch: string): Result<Bank> {
    var list := Batch(b.settlements, batch);
    if list == [] || !NetPasses(b.accounts, list) then Err(Conflict)
    else Ok(b.(accounts := NetAccounts(b.accounts, list), settlements := MarkBatch(b.settlements, batch)))
  }

  // ----- the bank as a state machine -----

  datatype Op =
    | Register(party: Party, direct: bool)
    | Open(party: Party, balance: int, currency: string)
    | Submit(mode: Mode, debtor: Party, creditor: Party, amount: int, priority: int, batch: Option<string>)
    | Settle(settlement: nat)
    | Release
    | NetBatch(name: string)

  function OpenAccount(b: Bank, party: Party, balance: int, currency: string): Result<Bank> {
    if balance < 0 then Err(Conflict)
    else if party !in b.direct then Err(NoRow)
    else if !b.direct[party] then Err(Conflict)
    else Ok(b.(accounts := b.accounts + [Account(party, currency, balance, balance, 0, 1)]))
  }

  /** A real-time settlement is attempted at once; a netted one waits for its batch. */
  function SubmitSettlement(b: Bank, op: Op): Result<Bank>
    requires op.Submit?
  {
    if op.mode == OtherMode || op.amount <= 0 then Err(Conflict)
    else
      var s := Settlement(op.mode, op.debtor, op.creditor, op.amount, op.priority, op.batch, false);
      var b1 := b.(settlements := b.settlements + [s]);
      if op.mode == Rtgs then SettleOne(b1, |b.settlements|) else Ok(b1)
  }

  ghost function Attempt(b: Bank, op: Op): Result<Bank> {
    match op
    case Register(party, direct) =>
      if party in b.direct then Err(Conflict) else Ok(b.(direct := b.direct[party := direct]))
    case Open(party, balance, currency) => OpenAccount(b, party, balance, currency)
    case Submit(_, _, _, _, _, _) => SubmitSettlement(b, op)
    case Settle(i) => SettleOne(b, i)
    case Release => var r :- ReleaseQueue(b); Ok(r.0)
    case NetBatch(name) => SettleBatch(b, name)
  }

  /** A request that raises is never committed. */
  ghost function Apply(b: Bank, op: Op): Bank {
    var r := Attempt(b, op);
    if r.Ok? then r.value else b
  }

  ghost function Run(b: Bank, ops: seq<Op>): Bank {
    if ops == [] then b else Apply(Run(b, ops[..|ops| - 1]), ops[|ops| - 1])
  }
}

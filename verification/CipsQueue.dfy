/** The RTGS queue: its order, what one pass settles, and where repeated passes end. */
module CipsQueue {
  import opened Results
  import opened Cips
  import opened CipsNetting
  import opened CipsRuns

  // ----- the order of the queue -----

  predicate InOrder(settlements: seq<Settlement>, queue: seq<nat>) {
    && (forall k :: 0 <= k < |queue| ==> queue[k] < |settlements|)
    && forall k, l :: 0 <= k < l < |queue| ==>
                        var i, j := queue[k], queue[l];
                        settlements[i].priority > settlements[j].priority
                        || (settlements[i].priority == settlements[j].priority && i < j)
  }

  lemma FirstInOrder(settlements: seq<Settlement>, first: nat, rest: seq<nat>)
    requires InOrder(settlements, rest) && first < |settlements|
    requires forall x :: x in rest ==> Before(settlements, first, x)
    ensures InOrder(settlements, [first] + rest)
  {
    var queue := [first] + rest;
    forall k, l | 0 <= k < l < |queue|
      ensures Before(settlements, queue[k], queue[l])
    {
      assert queue[l] == rest[l - 1] && queue[l] in rest;
      if k > 0 {
        assert queue[k] == rest[k - 1];
      }
    }
  }

  lemma {:induction false} InsertKeepsOrder(settlements: seq<Settlement>, queue: seq<nat>, i: nat)
    requires InOrder(settlements, queue) && i < |settlements| && i !in queue
    ensures InOrder(settlements, InsertInOrder(settlements, queue, i))
    ensures forall x: nat :: x in InsertInOrder(settlements, queue, i) <==> x in queue || x == i
    decreases |queue|
  {
    if queue != [] {
      var first, rest := queue[0], queue[1..];
      assert queue == [first] + rest;
      HeadIsBefore(settlements, queue);
      if Before(settlements, i, first) {
        FirstInOrder(settlements, i, queue);
      } else {
        InsertKeepsOrder(settlements, rest, i);
        FirstInOrder(settlements, first, InsertInOrder(settlements, rest, i));
      }
    }
  }

  lemma HeadIsBefore(settlements: seq<Settlement>, queue: seq<nat>)
    requires queue != [] && InOrder(settlements, queue)
    ensures InOrder(settlements, queue[1..])
    ensures forall x :: x in queue[1..] ==> x < |settlements| && Before(settlements, queue[0], x)
  {
    forall x | x in queue[1..]
      ensures x < |settlements| && Before(settlements, queue[0], x)
    {
      var l :| 0 <= l < |queue[1..]| && queue[1..][l] == x;
      assert Before(settlements, queue[0], queue[l + 1]);
    }
  }

  lemma {:induction false} QueueIsExactUpTo(settlements: seq<Settlement>, n: nat)
    requires n <= |settlements|
    ensures InOrder(settlements, QueueUpTo(settlements, n))
    ensures forall i: nat :: i in QueueUpTo(settlements, n) <==> i < n && Queued(settlements[i])
    decreases n
  {
    if n > 0 {
      QueueIsExactUpTo(settlements, n - 1);
      var queue := QueueUpTo(settlements, n - 1);
      if Queued(settlements[n - 1]) {
        QueueGrows(settlements, queue, n);
      }
    }
  }

  lemma QueueGrows(settlements: seq<Settlement>, queue: seq<nat>, n: nat)
    requires 0 < n <= |settlements| && Queued(settlements[n - 1]) && InOrder(settlements, queue)
    requires forall i: nat :: i in queue <==> i < n - 1 && Queued(settlements[i])
    ensures InOrder(settlements, InsertInOrder(settlements, queue, n - 1))
    ensures forall i: nat :: i in InsertInOrder(settlements, queue, n - 1) <==> i < n && Queued(settlements[i])
  {
    assert n - 1 !in queue;
    InsertKeepsOrder(settlements, queue, n - 1);
    forall i: nat
      ensures i in InsertInOrder(settlements, queue, n - 1) <==> i < n && Queued(settlements[i])
    {
      assert i in InsertInOrder(settlements, queue, n - 1) <==> i in queue || i == n - 1;
    }
  }

  /** The queue lists every queued real-time settlement exactly once, higher priorities first and older rows first among
      equals. */
  lemma QueueIsExact(settlements: seq<Settlement>)
    ensures InOrder(settlements, Queue(settlements))
    ensures forall i: nat :: i in Queue(settlements) <==>
                             i < |settlements| && settlements[i].mode == Rtgs && !settlements[i].settled
    ensures forall k, l :: 0 <= k < l < |Queue(settlements)| ==> Queue(settlements)[k] != Queue(settlements)[l]
  {
    QueueIsExactUpTo(settlements, |settlements|);
    var queue := Queue(settlements);
    forall k, l | 0 <= k < l < |queue|
      ensures queue[k] != queue[l]
    {
      assert Before(settlements, queue[k], queue[l]);
    }
  }

  // ----- one pass -----

  /** Nothing but the settled flag of rows in the queue changes. */
  ghost predicate OnlySettles(before: seq<Settlement>, after: seq<Settlement>, done: seq<nat>) {
    && |after| == |before|
    && (forall i :: 0 <= i < |before| ==> after[i] == if i in done then before[i].(settled := true) else before[i])
  }

  lemma LastTurn(b: Bank, queue: seq<nat>)
    requires queue != [] && SettleEach(b, queue).Ok?
    ensures
      var n := |queue| - 1;
      var before := SettleEach(b, queue[..n]);
      && before.Ok? && SettleOne(before.value.0, queue[n]).Ok?
      && var after := SettleOne(before.value.0, queue[n]).value;
         var settled := queue[n] < |after.settlements| && after.settlements[queue[n]].settled;
         SettleEach(b, queue).value == (after, before.value.1 + if settled then [queue[n]] else [])
  {
  }

  lemma {:induction false} PassSettles(b: Bank, queue: seq<nat>)
    requires SettleEach(b, queue).Ok?
    ensures OnlySettles(b.settlements, SettleEach(b, queue).value.0.settlements, SettleEach(b, queue).value.1)
    ensures forall i :: i in SettleEach(b, queue).value.1 ==> i in queue
    ensures SameHolders(b.accounts, SettleEach(b, queue).value.0.accounts)
    decreases |queue|
  {
    if queue != [] {
      var n := |queue| - 1;
      LastTurn(b, queue);
      PassSettles(b, queue[..n]);
      TurnSettles(SettleEach(b, queue[..n]).value.0, queue[n]);
    }
  }

  lemma TurnSettles(b: Bank, i: nat)
    requires SettleOne(b, i).Ok?
    ensures
      var t := SettleOne(b, i).value;
      && SameHolders(b.accounts, t.accounts) && |t.settlements| == |b.settlements|
      && (forall j :: 0 <= j < |b.settlements| ==>
            t.settlements[j] == if j == i && t.settlements[i].settled then b.settlements[j].(settled := true)
                                else b.settlements[j])
  {
  }

  lemma {:induction false} PassIsWired(b: Bank, queue: seq<nat>)
    requires Wired(b) && forall k :: 0 <= k < |queue| ==>
               queue[k] < |b.settlements| && b.settlements[queue[k]].mode == Rtgs
    ensures SettleEach(b, queue).Ok? && Wired(SettleEach(b, queue).value.0)
    decreases |queue|
  {
    if queue != [] {
      var n := |queue| - 1;
      PassIsWired(b, queue[..n]);
      PassSettles(b, queue[..n]);
      var t := SettleEach(b, queue[..n]).value.0;
      assert t.settlements[queue[n]].mode == Rtgs;
      PaidStaysWired(t, queue[n]);
    }
  }

  /** A release never raises once every queued settlement has its accounts, as it has in every run. */
  lemma ReleaseNeverRaises(b: Bank)
    requires Wired(b)
    ensures ReleaseQueue(b).Ok? && Wired(ReleaseQueue(b).value.0)
  {
    QueueIsExact(b.settlements);
    forall k | 0 <= k < |Queue(b.settlements)|
      ensures b.settlements[Queue(b.settlements)[k]].mode == Rtgs
    {
      assert Queue(b.settlements)[k] in Queue(b.settlements);
    }
    PassIsWired(b, Queue(b.settlements));
  }

  /** The row is not settled, its accounts exist, and the first CNY account of its debtor has less than its amount
      beyond what is reserved there. */
  predicate Short(b: Bank, i: nat) {
    && i < |b.settlements| && !b.settlements[i].settled
    && var s := b.settlements[i];
       && Known(b.accounts, s.debtor) && Known(b.accounts, s.creditor)
       && exists k :: 0 <= k < |b.accounts| && IsFirstIn(b.accounts, s.debtor, k)
                      && b.accounts[k].balance - b.accounts[k].reserved < s.amount
  }

  lemma IdleTurn(b: Bank, i: nat)
    requires i < |b.settlements| && SettleOne(b, i).Ok? && !SettleOne(b, i).value.settlements[i].settled
    ensures SettleOne(b, i).value == b && Short(b, i)
  {
    AffordableExactly(b.accounts, b.settlements[i]);
    var k := AccountOf(b.accounts, b.settlements[i].debtor).value;
    AccountIsFirst(b.accounts, b.settlements[i].debtor, k);
  }

  lemma NothingAppended(s: seq<nat>, x: nat, added: bool)
    requires s + (if added then [x] else []) == []
    ensures s == [] && !added
  {
    assert |s + if added then [x] else []| == 0;
  }

  /** A pass that settles nothing changes nothing, and every row it visited lacks liquidity. */
  lemma {:induction false} IdlePassFindsNoLiquidity(b: Bank, queue: seq<nat>)
    requires SettleEach(b, queue).Ok? && SettleEach(b, queue).value.1 == []
    requires forall k :: 0 <= k < |queue| ==> queue[k] < |b.settlements|
    ensures SettleEach(b, queue).value.0 == b
    ensures forall k :: 0 <= k < |queue| ==> Short(b, queue[k])
    decreases |queue|
  {
    if queue != [] {
      var n := |queue| - 1;
      LastTurn(b, queue);
      var before := SettleEach(b, queue[..n]).value;
      var after := SettleOne(before.0, queue[n]).value;
      NothingAppended(before.1, queue[n], queue[n] < |after.settlements| && after.settlements[queue[n]].settled);
      IdlePassFindsNoLiquidity(b, queue[..n]);
      IdleTurn(b, queue[n]);
      OneMoreShort(b, queue, queue[..n]);
    }
  }

  lemma OneMoreShort(b: Bank, queue: seq<nat>, first: seq<nat>)
    requires queue != [] && first == queue[..|queue| - 1] && Short(b, queue[|queue| - 1])
    requires forall k :: 0 <= k < |first| ==> Short(b, first[k])
    ensures forall k :: 0 <= k < |queue| ==> Short(b, queue[k])
  {
    forall k | 0 <= k < |first|
      ensures Short(b, queue[k])
    {
      assert first[k] == queue[k];
    }
  }

  // ----- releasing again and again -----

  function QueuedRows(settlements: seq<Settlement>): set<nat> {
    set i | 0 <= i < |settlements| && Queued(settlements[i])
  }

  lemma PassShrinksQueue(b: Bank)
    requires ReleaseQueue(b).Ok? && ReleaseQueue(b).value.1 != []
    ensures QueuedRows(ReleaseQueue(b).value.0.settlements) < QueuedRows(b.settlements)
  {
    var queue := Queue(b.settlements);
    var t, done := ReleaseQueue(b).value.0, ReleaseQueue(b).value.1;
    QueueIsExact(b.settlements);
    PassSettles(b, queue);
    assert done[0] in done && done[0] in queue;
    assert done[0] in QueuedRows(b.settlements) && done[0] !in QueuedRows(t.settlements);
  }

  /** Releases the queue until a release settles nothing. */
  function Drain(b: Bank): Bank
    decreases QueuedRows(b.settlements)
  {
    match ReleaseQueue(b)
    case Err(_) => b
    case Ok((t, done)) =>
      if done == [] then t
      else
        PassShrinksQueue(b);
        Drain(t)
  }

  /** Rows stay as they are, or are settled from the queue. */
  predicate OnlyDrains(before: seq<Settlement>, after: seq<Settlement>) {
    && |after| == |before|
    && (forall i :: 0 <= i < |before| ==>
          after[i] == before[i]
          || (before[i].mode == Rtgs && !before[i].settled && after[i] == before[i].(settled := true)))
  }

  lemma ReleaseOnlyDrains(b: Bank)
    requires Inv(b)
    ensures ReleaseQueue(b).Ok? && Inv(ReleaseQueue(b).value.0)
    ensures Money(ReleaseQueue(b).value.0.accounts) == Money(b.accounts)
    ensures OnlyDrains(b.settlements, ReleaseQueue(b).value.0.settlements)
  {
    ReleaseNeverRaises(b);
    QueueIsExact(b.settlements);
    PassKeepsInv(b, Queue(b.settlements));
    PassConserves(b, Queue(b.settlements));
    PassSettles(b, Queue(b.settlements));
  }

  ghost predicate AllQueuedShort(b: Bank) {
    forall i :: 0 <= i < |b.settlements| && b.settlements[i].mode == Rtgs && !b.settlements[i].settled ==> Short(b, i)
  }

  lemma IdleReleaseFindsNoLiquidity(b: Bank)
    requires ReleaseQueue(b).Ok? && ReleaseQueue(b).value.1 == []
    ensures ReleaseQueue(b).value.0 == b && AllQueuedShort(b)
  {
    QueueIsExact(b.settlements);
    var queue := Queue(b.settlements);
    IdlePassFindsNoLiquidity(b, queue);
    forall i | 0 <= i < |b.settlements| && Queued(b.settlements[i])
      ensures Short(b, i)
    {
      assert i in queue;
    }
  }

  /** Repeated releases come to an end in which every payment still queued exceeds what its debtor has available. They
      settle queued payments only, keep every account out of overdraft and neither make nor lose money. */
  lemma {:induction false} DrainEndsShortOfLiquidity(b: Bank)
    requires Inv(b)
    ensures Inv(Drain(b)) && Money(Drain(b).accounts) == Money(b.accounts)
    ensures ReleaseQueue(Drain(b)) == Ok((Drain(b), []))
    ensures AllQueuedShort(Drain(b))
    ensures OnlyDrains(b.settlements, Drain(b).settlements)
    decreases QueuedRows(b.settlements)
  {
    ReleaseOnlyDrains(b);
    if ReleaseQueue(b).value.1 == [] {
      IdleReleaseFindsNoLiquidity(b);
    } else {
      PassShrinksQueue(b);
      DrainEndsShortOfLiquidity(ReleaseQueue(b).value.0);
    }
  }
}

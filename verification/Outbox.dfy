/** The transactional outbox: claiming under leases, completion, failure and partition order. */
module Outbox {
  import opened Results

  datatype Topic =
    | PaymentCreated | FundingReserve | FxAccept | SettlementSubmit
    | PaymentMessage | PaymentValue | PaymentCancellation

  /** The aggregate an event belongs to; it is also the partition unless another one is given. */
  datatype Key =
    | OrderKey(order: nat)
    | ReservationKey(order: nat, item: nat)
    | IntentKey(order: nat, item: nat)
    | LegKey(order: nat, item: nat)

  datatype Status = Pending | Processing | Published | DeadLetter

  type Worker = nat

  /** An event row. Rows are numbered by insertion, so the table is a sequence. */
  datatype Event = Event(
    topic: Topic,
    partition: Key,
    aggregate: Key,
    sequence: nat,
    item: nat,
    status: Status,
    attempts: nat,
    availableAt: int,
    leaseOwner: Option<Worker>,
    leaseUntil: Option<int>
  )

  const MAX_ATTEMPTS: nat := 8
  const LEASE_SECONDS: nat := 60
  const RETRY_SECONDS: nat := 10
  const MAX_BATCH: nat := 500

  function NewEvent(topic: Topic, key: Key, item: nat, now: int): Event {
    Event(topic, key, key, 1, item, Pending, 0, now, None, None)
  }

  /** A lease that is absent or over is taken back. */
  function SweepOne(e: Event, now: int): Event {
    if e.status == Processing && (e.leaseUntil.None? || e.leaseUntil.value < now)
    then e.(status := Pending, leaseOwner := None, leaseUntil := None)
    else e
  }

  function Sweep(events: seq<Event>, now: int): seq<Event> {
    seq(|events|, i requires 0 <= i < |events| => SweepOne(events[i], now))
  }

  predicate Unfinished(e: Event) {
    e.status == Pending || e.status == Processing
  }

  predicate Blocks(earlier: Event, e: Event) {
    earlier.partition == e.partition && earlier.sequence < e.sequence && Unfinished(earlier)
  }

  predicate Eligible(events: seq<Event>, now: int, i: nat)
    requires i < |events|
  {
    && events[i].status == Pending
    && events[i].availableAt <= now
    && forall j :: 0 <= j < |events| ==> !Blocks(events[j], events[i])
  }

  function Cap(limit: int): nat {
    if limit < 1 then 1 else if limit > MAX_BATCH then MAX_BATCH else limit
  }

  /** The first `room` eligible rows from `from` on that no other transaction has locked. */
  function Pick(events: seq<Event>, now: int, locked: set<nat>, from: nat, room: nat): seq<nat>
    requires from <= |events|
    decreases |events| - from
  {
    if from == |events| || room == 0 then []
    else if Eligible(events, now, from) && from !in locked
    then [from] + Pick(events, now, locked, from + 1, room - 1)
    else Pick(events, now, locked, from + 1, room)
  }

  function LeaseOne(e: Event, owner: Worker, now: int, lease: nat): Event {
    e.(status := Processing, attempts := e.attempts + 1, leaseOwner := Some(owner), leaseUntil := Some(now + lease))
  }

  function ClaimBatch(events: seq<Event>, now: int, limit: int, locked: set<nat>): seq<nat> {
    Pick(Sweep(events, now), now, locked, 0, Cap(limit))
  }

  function ClaimTable(events: seq<Event>, now: int, limit: int, locked: set<nat>, owner: Worker,
                      lease: nat): seq<Event> {
    var batch := ClaimBatch(events, now, limit, locked);
    var swept := Sweep(events, now);
    seq(|swept|, i requires 0 <= i < |swept| => if i in batch then LeaseOne(swept[i], owner, now, lease) else swept[i])
  }

  /** Completion is fenced only while the row is PROCESSING. */
  function CompleteOne(e: Event, owner: Option<Worker>): Result<Event> {
    if e.status == Published then Ok(e)
    else if e.status == Processing && (e.leaseOwner.None? || (owner.Some? && e.leaseOwner != owner)) then Err(Conflict)
    else Ok(e.(status := Published, leaseOwner := None, leaseUntil := None))
  }

  /** Failure is not fenced at all. */
  function FailOne(e: Event, now: int, retry: nat): Event {
    if e.attempts >= MAX_ATTEMPTS
    then e.(leaseOwner := None, leaseUntil := None, status := DeadLetter)
    else e.(leaseOwner := None, leaseUntil := None, status := Pending, availableAt := now + retry)
  }

  function HeartbeatOne(e: Event, owner: Worker, now: int, lease: nat): Result<Event> {
    if e.status != Processing || e.leaseOwner != Some(owner) then Err(Conflict)
    else Ok(e.(leaseUntil := Some(now + lease)))
  }

  class OutboxService {
    var events: seq<Event>

    constructor ()
      ensures events == []
    {
      events := [];
    }

    /** Sweeps expired leases, then leases the next batch to `owner`. */
    method Claim(now: int, limit: int, locked: set<nat>, owner: Worker, lease: nat) returns (batch: seq<nat>)
      modifies this
      ensures batch == ClaimBatch(old(events), now, limit, locked)
      ensures events == ClaimTable(old(events), now, limit, locked, owner, lease)
    {
      SweepExpired(now);
      batch := SelectBatch(now, limit, locked);
      PickIsExact(events, now, locked, 0, Cap(limit));
      LeaseBatch(batch, owner, now, lease);
    }

    method SweepExpired(now: int)
      modifies this
      ensures events == Sweep(old(events), now)
    {
      for i := 0 to |events|
        invariant |events| == |old(events)|
        invariant forall j :: 0 <= j < i ==> events[j] == SweepOne(old(events)[j], now)
        invariant forall j :: i <= j < |old(events)| ==> events[j] == old(events)[j]
      {
        events := events[i := SweepOne(events[i], now)];
      }
    }

    method CheckRow(rows: seq<Event>, now: int, locked: set<nat>, n: nat) returns (free: bool)
      requires n < |rows|
      ensures free == (Eligible(rows, now, n) && n !in locked)
    {
      return Eligible(rows, now, n) && n !in locked;
    }

    method SelectBatch(now: int, limit: int, locked: set<nat>) returns (batch: seq<nat>)
      ensures batch == Pick(events, now, locked, 0, Cap(limit))
    {
      batch := [];
      var n, rows, cap := 0, events, Cap(limit);
      while n < |rows| && |batch| < cap
        invariant PickLeft(rows, now, locked, cap, n, batch)
      {
        var free := CheckRow(rows, now, locked, n);
        PickStep(rows, now, locked, cap, n, batch, free);
        if free {
          batch := batch + [n];
        }
        n := n + 1;
      }
      PickDone(rows, now, locked, cap, n, batch);
    }

    method LeaseBatch(batch: seq<nat>, owner: Worker, now: int, lease: nat)
      requires forall b :: 0 <= b < |batch| ==> batch[b] < |events|
      requires forall b, c :: 0 <= b < c < |batch| ==> batch[b] < batch[c]
      modifies this
      ensures events == seq(|old(events)|, i requires 0 <= i < |old(events)| =>
                              if i in batch then LeaseOne(old(events)[i], owner, now, lease) else old(events)[i])
    {
      for b := 0 to |batch|
        invariant |events| == |old(events)|
        invariant forall j :: 0 <= j < |events| ==>
                                events[j] == if j in batch[..b] then LeaseOne(old(events)[j], owner, now, lease)
                                  else old(events)[j]
      {
        assert batch[..b + 1] == batch[..b] + [batch[b]];
        events := events[batch[b] := LeaseOne(events[batch[b]], owner, now, lease)];
      }
      assert batch[..|batch|] == batch;
    }

    method Complete(i: nat, owner: Option<Worker>) returns (r: Result<()>)
      requires i < |events|
      modifies this
      ensures r.Ok? <==> CompleteOne(old(events)[i], owner).Ok?
      ensures r.Ok? ==> events == old(events)[i := CompleteOne(old(events)[i], owner).value]
      ensures r.Err? ==> events == old(events)
    {
      if events[i].status == Published {
        return Ok(());
      }
      if events[i].status == Processing
         && (events[i].leaseOwner.None? || (owner.Some? && events[i].leaseOwner != owner)) {
        return Err(Conflict);
      }
      events := events[i := events[i].(status := Published)];
      events := events[i := events[i].(leaseOwner := None)];
      events := events[i := events[i].(leaseUntil := None)];
      return Ok(());
    }

    method Heartbeat(i: nat, owner: Worker, now: int, lease: nat) returns (r: Result<()>)
      requires i < |events|
      modifies this
      ensures r.Ok? <==> HeartbeatOne(old(events)[i], owner, now, lease).Ok?
      ensures events == if r.Ok? then old(events)[i := HeartbeatOne(old(events)[i], owner, now, lease).value]
              else old(events)
    {
      if events[i].status != Processing || events[i].leaseOwner != Some(owner) {
        return Err(Conflict);
      }
      events := events[i := events[i].(leaseUntil := Some(now + lease))];
      return Ok(());
    }

    method Fail(i: nat, now: int, retry: nat)
      requires i < |events|
      modifies this
      ensures events == old(events)[i := FailOne(old(events)[i], now, retry)]
    {
      events := events[i := events[i].(leaseOwner := None, leaseUntil := None)];
      if events[i].attempts >= MAX_ATTEMPTS {
        events := events[i := events[i].(status := DeadLetter)];
      } else {
        events := events[i := events[i].(status := Pending)];
        events := events[i := events[i].(availableAt := now + retry)];
      }
    }
  }

  /** With `batch` picked from the first `n` rows, the rest of the scan completes what is to be picked. */
  predicate PickLeft(events: seq<Event>, now: int, locked: set<nat>, cap: nat, n: nat, batch: seq<nat>) {
    && n <= |events| && |batch| <= cap
    && batch + Pick(events, now, locked, n, cap - |batch|) == Pick(events, now, locked, 0, cap)
  }

  lemma PickStep(events: seq<Event>, now: int, locked: set<nat>, cap: nat, n: nat, batch: seq<nat>, free: bool)
    requires PickLeft(events, now, locked, cap, n, batch) && n < |events| && |batch| < cap
    requires free == (Eligible(events, now, n) && n !in locked)
    ensures PickLeft(events, now, locked, cap, n + 1, if free then batch + [n] else batch)
  {
    if free {
      assert batch + ([n] + Pick(events, now, locked, n + 1, cap - |batch| - 1))
             == (batch + [n]) + Pick(events, now, locked, n + 1, cap - |batch| - 1);
    }
  }

  lemma PickDone(events: seq<Event>, now: int, locked: set<nat>, cap: nat, n: nat, batch: seq<nat>)
    requires PickLeft(events, now, locked, cap, n, batch) && (n == |events| || |batch| == cap)
    ensures batch == Pick(events, now, locked, 0, cap)
  {
    assert batch + [] == batch;
  }

  /** The first `room` eligible, unlocked rows from row `from` on, in table order: nothing else, nothing skipped, none
      twice. */
  predicate IsFirstEligible(events: seq<Event>, now: int, locked: set<nat>, from: nat, room: nat, batch: seq<nat>) {
    && |batch| <= room
    && (forall b :: 0 <= b < |batch| ==> from <= batch[b] < |events|)
    && (forall b :: 0 <= b < |batch| ==> Eligible(events, now, batch[b]) && batch[b] !in locked)
    && (forall b, c :: 0 <= b < c < |batch| ==> batch[b] < batch[c])
    && (forall i :: from <= i < |events| && Eligible(events, now, i) && i !in locked && i !in batch ==>
          |batch| == room && forall b :: 0 <= b < |batch| ==> batch[b] < i)
  }

  /** What a claim picks is exactly the first eligible rows. */
  lemma {:induction false} PickIsExact(events: seq<Event>, now: int, locked: set<nat>, from: nat, room: nat)
    requires from <= |events|
    ensures IsFirstEligible(events, now, locked, from, room, Pick(events, now, locked, from, room))
    decreases |events| - from
  {
    if from == |events| || room == 0 {
    } else if Eligible(events, now, from) && from !in locked {
      PickIsExact(events, now, locked, from + 1, room - 1);
      PickedFirst(events, now, locked, from, room, Pick(events, now, locked, from + 1, room - 1));
    } else {
      PickIsExact(events, now, locked, from + 1, room);
      PassedOver(events, now, locked, from, room, Pick(events, now, locked, from + 1, room));
    }
  }

  lemma PassedOver(events: seq<Event>, now: int, locked: set<nat>, from: nat, room: nat, rest: seq<nat>)
    requires from < |events| && !(Eligible(events, now, from) && from !in locked)
    requires IsFirstEligible(events, now, locked, from + 1, room, rest)
    ensures IsFirstEligible(events, now, locked, from, room, rest)
  {
    forall i | from <= i < |events| && Eligible(events, now, i) && i !in locked && i !in rest
      ensures |rest| == room && forall b :: 0 <= b < |rest| ==> rest[b] < i
    {
      assert i != from;
    }
  }

  lemma PickedFirst(events: seq<Event>, now: int, locked: set<nat>, from: nat, room: nat, rest: seq<nat>)
    requires from < |events| && room > 0 && Eligible(events, now, from) && from !in locked
    requires IsFirstEligible(events, now, locked, from + 1, room - 1, rest)
    ensures IsFirstEligible(events, now, locked, from, room, [from] + rest)
  {
    forall i | from <= i < |events| && Eligible(events, now, i) && i !in locked && i !in [from] + rest
      ensures |rest| == room - 1 && forall b :: 0 <= b < |[from] + rest| ==> ([from] + rest)[b] < i
    {
      assert i != from && i !in rest;
    }
  }

  // ----- a claim, said in rows -----

  /** The event is free: PENDING, or PROCESSING under a lease that is absent or over; its time has come, and no earlier
      event of its partition is unfinished. */
  predicate Claimable(events: seq<Event>, now: int, i: nat)
    requires i < |events|
  {
    var e := events[i];
    && (e.status == Pending || (e.status == Processing && (e.leaseUntil.None? || e.leaseUntil.value < now)))
    && e.availableAt <= now
    && (forall j :: 0 <= j < |events| && events[j].partition == e.partition && events[j].sequence < e.sequence ==>
          events[j].status == Published || events[j].status == DeadLetter)
  }

  lemma EligibleOnceSwept(events: seq<Event>, now: int, i: nat)
    requires i < |events|
    ensures Eligible(Sweep(events, now), now, i) <==> Claimable(events, now, i)
  {
    var swept := Sweep(events, now);
    forall j | 0 <= j < |events|
      ensures Blocks(swept[j], swept[i]) <==>
              events[j].partition == events[i].partition && events[j].sequence < events[i].sequence
              && !(events[j].status == Published || events[j].status == DeadLetter)
    {
    }
  }

  /** The rows before `i`, from `from` on, that a claim would take first. */
  ghost function Ahead(events: seq<Event>, now: int, locked: set<nat>, from: nat, i: nat): set<nat>
    requires i <= |events|
  {
    set j: nat | from <= j < i && Eligible(events, now, j) && j !in locked
  }

  lemma AheadOneLater(events: seq<Event>, now: int, locked: set<nat>, from: nat, i: nat)
    requires from < i <= |events|
    ensures Ahead(events, now, locked, from, i)
            == Ahead(events, now, locked, from + 1, i)
               + if Eligible(events, now, from) && from !in locked then {from} else {}
  {
  }

  /** The scan goes on behind its first row with one place less, if it takes that row. */
  lemma PickOneLater(events: seq<Event>, now: int, locked: set<nat>, from: nat, room: nat, i: nat)
    requires from < i < |events| && room > 0
    ensures
      var left := if Eligible(events, now, from) && from !in locked then room - 1 else room;
      i in Pick(events, now, locked, from, room) <==> i in Pick(events, now, locked, from + 1, left)
  {
  }

  lemma AheadCounts(events: seq<Event>, now: int, locked: set<nat>, from: nat, i: nat)
    requires from < i <= |events|
    ensures
      var taken := if Eligible(events, now, from) && from !in locked then 1 else 0;
      |Ahead(events, now, locked, from, i)| == |Ahead(events, now, locked, from + 1, i)| + taken
  {
    AheadOneLater(events, now, locked, from, i);
    assert from !in Ahead(events, now, locked, from + 1, i);
  }

  lemma {:induction false} PickCounts(events: seq<Event>, now: int, locked: set<nat>, from: nat, room: nat, i: nat)
    requires from <= i < |events|
    ensures i in Pick(events, now, locked, from, room) <==>
            Eligible(events, now, i) && i !in locked && |Ahead(events, now, locked, from, i)| < room
    decreases |events| - from
  {
    if room > 0 {
      if from == i {
        assert Ahead(events, now, locked, from, i) == {};
        PickedAtOnce(events, now, locked, from, room);
      } else {
        AheadCounts(events, now, locked, from, i);
        PickOneLater(events, now, locked, from, room, i);
        PickCounts(events, now, locked, from + 1,
                   if Eligible(events, now, from) && from !in locked then room - 1 else room, i);
      }
    }
  }

  lemma PickedAtOnce(events: seq<Event>, now: int, locked: set<nat>, i: nat, room: nat)
    requires i < |events| && room > 0
    ensures i in Pick(events, now, locked, i, room) <==> Eligible(events, now, i) && i !in locked
  {
    if !(Eligible(events, now, i) && i !in locked) {
      PickIsExact(events, now, locked, i + 1, room);
    }
  }

  /** Exactly which events a claim takes: those that are free, unlocked, and not preceded by as many such events as a
      batch may hold, which is `limit` brought between 1 and 500. */
  lemma ClaimedExactlyWhen(events: seq<Event>, now: int, limit: int, locked: set<nat>, i: nat)
    requires i < |events|
    ensures i in ClaimBatch(events, now, limit, locked) <==>
            && Claimable(events, now, i) && i !in locked
            && |set j: nat | j < i && Claimable(events, now, j) && j !in locked|
               < if limit < 1 then 1 else if limit > 500 then 500 else limit
  {
    var swept := Sweep(events, now);
    PickCounts(swept, now, locked, 0, Cap(limit), i);
    EligibleOnceSwept(events, now, i);
    forall j: nat | j < i
      ensures Eligible(swept, now, j) <==> Claimable(events, now, j)
    {
      EligibleOnceSwept(events, now, j);
    }
    assert Ahead(swept, now, locked, 0, i) == set j: nat | j < i && Claimable(events, now, j) && j !in locked;
  }

  /** A claim leases exactly the events it takes, for a minute, counts the attempt, and takes expired leases back. */
  lemma ClaimWrites(events: seq<Event>, now: int, limit: int, locked: set<nat>, w: Worker, i: nat)
    requires i < |events|
    ensures
      var t := ClaimTable(events, now, limit, locked, w, LEASE_SECONDS);
      var e := events[i];
      var expired := e.status == Processing && (e.leaseUntil.None? || e.leaseUntil.value < now);
      && |t| == |events|
      && t[i] == if i in ClaimBatch(events, now, limit, locked)
                 then e.(status := Processing, attempts := e.attempts + 1, leaseOwner := Some(w),
                         leaseUntil := Some(now + 60))
                 else if expired then e.(status := Pending, leaseOwner := None, leaseUntil := None)
                 else e
  {
  }

  /** A failure frees the lease; the eighth attempt is the last, any other is retried ten seconds later. */
  lemma FailureWrites(e: Event, now: int)
    ensures FailOne(e, now, RETRY_SECONDS)
            == if e.attempts >= 8 then e.(status := DeadLetter, leaseOwner := None, leaseUntil := None)
               else e.(status := Pending, availableAt := now + 10, leaseOwner := None, leaseUntil := None)
  {
  }

  /** A lease is renewed, for a minute, exactly for the worker that has it; and until that minute is over a claim leaves
      the event to its owner. */
  lemma RenewedLeasesHold(e: Event, w: Worker, renewed: int, events: seq<Event>, now: int, limit: int, locked: set<nat>,
                          i: nat)
    requires i < |events| && events[i] == e.(leaseUntil := Some(renewed + 60)) && now <= renewed + 60
    ensures HeartbeatOne(e, w, renewed, LEASE_SECONDS)
            == if e.status == Processing && e.leaseOwner == Some(w) then Ok(events[i]) else Err(Conflict)
    ensures e.status == Processing ==>
              && i !in ClaimBatch(events, now, limit, locked)
              && ClaimTable(events, now, limit, locked, w, LEASE_SECONDS)[i] == events[i]
  {
    ClaimedExactlyWhen(events, now, limit, locked, i);
    ClaimWrites(events, now, limit, locked, w, i);
  }

  lemma ClaimedRowsAscend(events: seq<Event>, now: int, limit: int, locked: set<nat>)
    ensures var batch := ClaimBatch(events, now, limit, locked);
            && (forall b :: 0 <= b < |batch| ==> batch[b] < |events|)
            && (forall b, c :: 0 <= b < c < |batch| ==> batch[b] < batch[c])
  {
    PickIsExact(Sweep(events, now), now, locked, 0, Cap(limit));
  }

  /** No batch holds two different sequence numbers of one partition. */
  lemma BatchHoldsOneSequencePerPartition(events: seq<Event>, now: int, limit: int, locked: set<nat>, i: nat, j: nat)
    requires i in ClaimBatch(events, now, limit, locked) && j in ClaimBatch(events, now, limit, locked)
    requires i < |events| && j < |events|
    requires events[i].partition == events[j].partition
    ensures events[i].sequence == events[j].sequence
  {
    var swept := Sweep(events, now);
    PickIsExact(swept, now, locked, 0, Cap(limit));
    assert Eligible(swept, now, i) && Eligible(swept, now, j);
    assert !Blocks(swept[i], swept[j]) && !Blocks(swept[j], swept[i]);
  }
}

/** Partition order over whole runs in which only the current leaseholder settles an event. */
module PartitionOrder {
  import opened Results
  import opened Outbox

  datatype State = State(now: int, events: seq<Event>)

  datatype Step =
    | Tick(seconds: nat)
    | Enqueue(event: Event)
    | ClaimBy(owner: Worker, limit: int, locked: set<nat>)
    | CompleteBy(owner: Worker, id: nat)
    | FailBy(owner: Worker, id: nat)
    | HeartbeatBy(owner: Worker, id: nat)

  /** Sequences of a partition never go backwards. */
  predicate InOrder(events: seq<Event>, e: Event) {
    forall i :: 0 <= i < |events| && events[i].partition == e.partition ==> events[i].sequence <= e.sequence
  }

  predicate Holds(s: State, owner: Worker, id: nat) {
    id < |s.events| && s.events[id].status == Processing && s.events[id].leaseOwner == Some(owner)
  }

  function Apply(s: State, step: Step): State {
    match step
    case Tick(seconds) => s.(now := s.now + seconds)
    case Enqueue(event) =>
      if InOrder(s.events, event) && event.status == Pending then s.(events := s.events + [event]) else s
    case ClaimBy(owner, limit, locked) => s.(events := ClaimTable(s.events, s.now, limit, locked, owner, LEASE_SECONDS))
    case CompleteBy(owner, id) =>
      if Holds(s, owner, id) && CompleteOne(s.events[id], Some(owner)).Ok?
      then s.(events := s.events[id := CompleteOne(s.events[id], Some(owner)).value]) else s
    case FailBy(owner, id) =>
      if Holds(s, owner, id) then s.(events := s.events[id := FailOne(s.events[id], s.now, RETRY_SECONDS)]) else s
    case HeartbeatBy(owner, id) =>
      if Holds(s, owner, id)
      then s.(events := s.events[id := s.events[id].(leaseUntil := Some(s.now + LEASE_SECONDS))]) else s
  }

  function Run(s: State, steps: seq<Step>): State
    decreases |steps|
  {
    if steps == [] then s else Run(Apply(s, steps[0]), steps[1..])
  }

  /** Everything of event `id`'s partition that comes before it, now or later, is settled. */
  predicate PredecessorsSettled(s: State, id: nat)
    requires id < |s.events|
  {
    forall j :: 0 <= j < |s.events| && s.events[j].partition == s.events[id].partition
                && s.events[j].sequence < s.events[id].sequence
                ==> s.events[j].status == Published || s.events[j].status == DeadLetter
  }

  predicate SameRow(a: Event, b: Event) {
    a.partition == b.partition && a.sequence == b.sequence
  }

  /** A step keeps rows, their partition and sequence, and every settled status. */
  lemma StepKeepsSettled(s: State, step: Step)
    ensures
      var t := Apply(s, step);
      && |s.events| <= |t.events|
      && (forall i :: 0 <= i < |s.events| ==> SameRow(s.events[i], t.events[i]))
      && (forall i :: 0 <= i < |s.events| && !Unfinished(s.events[i]) ==> t.events[i].status == s.events[i].status)
      && (forall i :: |s.events| <= i < |t.events| ==> InOrder(s.events, t.events[i]))
  {
    if step.ClaimBy? {
      PickIsExact(Sweep(s.events, s.now), s.now, step.locked, 0, Cap(step.limit));
    }
  }

  lemma StepKeepsPredecessors(s: State, step: Step, id: nat)
    requires id < |s.events| && PredecessorsSettled(s, id)
    ensures id < |Apply(s, step).events| && PredecessorsSettled(Apply(s, step), id)
  {
    StepKeepsSettled(s, step);
    var t := Apply(s, step);
    assert SameRow(s.events[id], t.events[id]);
    forall j | 0 <= j < |t.events| && t.events[j].partition == t.events[id].partition
               && t.events[j].sequence < t.events[id].sequence
      ensures t.events[j].status == Published || t.events[j].status == DeadLetter
    {
      if j < |s.events| {
        assert SameRow(s.events[j], t.events[j]);
      } else {
        assert false;
      }
    }
  }

  /** Once an event has been claimed, its partition is settled below it, in every continuation of the run. */
  lemma {:induction false} ClaimedInPartitionOrder(s: State, owner: Worker, limit: int, locked: set<nat>,
                                                   later: seq<Step>, id: nat)
    requires id in ClaimBatch(s.events, s.now, limit, locked)
    ensures
      var t := Run(Apply(s, ClaimBy(owner, limit, locked)), later);
      id < |s.events| <= |t.events| && PredecessorsSettled(t, id)
    decreases |later|
  {
    var swept := Sweep(s.events, s.now);
    PickIsExact(swept, s.now, locked, 0, Cap(limit));
    assert Eligible(swept, s.now, id);
    var claimed := Apply(s, ClaimBy(owner, limit, locked));
    forall j | 0 <= j < |claimed.events| && claimed.events[j].partition == claimed.events[id].partition
               && claimed.events[j].sequence < claimed.events[id].sequence
      ensures claimed.events[j].status == Published || claimed.events[j].status == DeadLetter
    {
      assert !Blocks(swept[j], swept[id]);
    }
    RunKeepsPredecessors(claimed, later, id);
  }

  lemma {:induction false} RunKeepsPredecessors(s: State, steps: seq<Step>, id: nat)
    requires id < |s.events| && PredecessorsSettled(s, id)
    ensures |s.events| <= |Run(s, steps).events| && PredecessorsSettled(Run(s, steps), id)
    decreases |steps|
  {
    if steps != [] {
      StepKeepsSettled(s, steps[0]);
      StepKeepsPredecessors(s, steps[0], id);
      RunKeepsPredecessors(Apply(s, steps[0]), steps[1..], id);
    }
  }
}

/** What the tables of the saga hold together: receipts, the keys of the outbox, and what both say about an order. */
module SagaTables {
  import opened Orders
  import opened Outbox
  import opened Handlers
  import opened Saga
  import opened SagaInvariant

  predicate Handled(s: State, topic: Topic, key: Key) {
    exists i :: i in s.ran && i < |s.events| && s.events[i].topic == topic && s.events[i].aggregate == key
  }

  predicate Pursued(s: State, j: nat) {
    Enqueued(s.events, PaymentMessage, OrderKey(j)) || Enqueued(s.events, PaymentValue, OrderKey(j))
  }

  /** What outbox and receipts say of order `j`. */
  ghost function HistoryOf(s: State, j: nat): History {
    History((iset i: nat | Handled(s, FundingReserve, ReservationKey(j, i))),
            Pursued(s, j),
            Enqueued(s.events, PaymentCancellation, OrderKey(j)),
            Handled(s, PaymentCancellation, OrderKey(j)))
  }

  predicate NoDuplicates(ids: seq<nat>) {
    forall i, j :: 0 <= i < j < |ids| ==> ids[i] != ids[j]
  }

  /** The receipts are exactly the handler runs, and a published event has its receipt. */
  predicate ReceiptsHold(s: State) {
    && s.inbox == s.ran
    && NoDuplicates(s.ran)
    && (forall i :: i in s.ran ==> i < |s.events|)
    && (forall i :: 0 <= i < |s.events| && s.events[i].status == Published ==> i in s.ran)
  }

  predicate SameSubject(a: Event, b: Event) {
    a.topic == b.topic && a.aggregate == b.aggregate
  }

  predicate UniqueEvents(events: seq<Event>) {
    forall i, j :: 0 <= i < j < |events| ==> !SameSubject(events[i], events[j])
  }

  /** An event's key is made of its order and row; cancellations are about the first request. */
  predicate WellKeyed(e: Event) {
    && e.aggregate == KeyOf(e.topic, e.aggregate.order, e.item)
    && (e.topic == PaymentCancellation ==> e.item == 0)
  }

  predicate AllWellKeyed(events: seq<Event>) {
    forall i :: 0 <= i < |events| ==> WellKeyed(events[i])
  }

  /** No event speaks of an order that does not exist yet. */
  predicate EventsHaveOrders(s: State) {
    forall i :: 0 <= i < |s.events| ==> s.events[i].aggregate.order < |s.orders|
  }

  ghost predicate OrdersSound(s: State, answers: set<ReservationState>) {
    forall j :: 0 <= j < |s.orders| ==> Sound(s.orders[j], HistoryOf(s, j), answers)
  }

  /** The tables apart from the orders. */
  predicate TablesHold(s: State) {
    ReceiptsHold(s) && UniqueEvents(s.events) && AllWellKeyed(s.events) && EventsHaveOrders(s)
  }

  ghost predicate Inv(s: State, answers: set<ReservationState>) {
    TablesHold(s) && OrdersSound(s, answers)
  }

  // ----- steps that touch only the delivery state of events -----

  predicate SameKeys(a: seq<Event>, b: seq<Event>) {
    && |a| == |b|
    && forall i :: 0 <= i < |a| ==> SameSubject(a[i], b[i]) && a[i].item == b[i].item
  }

  lemma SameKeysSameHistory(s: State, t: State, j: nat)
    requires s.ran == t.ran && SameKeys(s.events, t.events)
    ensures HistoryOf(s, j) == HistoryOf(t, j)
  {
    assert forall topic, key :: Handled(s, topic, key) == Handled(t, topic, key);
    assert forall topic, key :: Enqueued(s.events, topic, key) == Enqueued(t.events, topic, key);
  }

  lemma DeliveryKeepsTables(s: State, t: State)
    requires TablesHold(s) && |s.orders| == |t.orders|
    requires s.inbox == t.inbox && s.ran == t.ran && SameKeys(s.events, t.events)
    requires forall i :: 0 <= i < |s.events| && t.events[i].status == Published ==>
                           s.events[i].status == Published || i in s.ran
    ensures TablesHold(t)
  {
  }

  lemma DeliveryKeepsInv(s: State, t: State, answers: set<ReservationState>)
    requires Inv(s, answers) && s.orders == t.orders
    requires s.inbox == t.inbox && s.ran == t.ran && SameKeys(s.events, t.events)
    requires forall i :: 0 <= i < |s.events| && t.events[i].status == Published ==>
                           s.events[i].status == Published || i in s.ran
    ensures Inv(t, answers)
  {
    DeliveryKeepsTables(s, t);
    forall j | 0 <= j < |t.orders|
      ensures Sound(t.orders[j], HistoryOf(t, j), answers)
    {
      SameKeysSameHistory(s, t, j);
    }
  }

  // ----- steps that append events -----

  lemma EnqueuedAfterAppend(events: seq<Event>, e: Event, topic: Topic, key: Key)
    ensures Enqueued(events + [e], topic, key) <==>
            Enqueued(events, topic, key) || (e.topic == topic && e.aggregate == key)
  {
    if Enqueued(events, topic, key) {
      var i :| 0 <= i < |events| && events[i].topic == topic && events[i].aggregate == key;
      assert (events + [e])[i] == events[i];
    }
    if e.topic == topic && e.aggregate == key {
      assert (events + [e])[|events|] == e;
    }
  }

  predicate JobFor(jobs: seq<Job>, order: nat, topic: Topic, key: Key) {
    exists i :: 0 <= i < |jobs| && jobs[i].topic == topic && KeyOf(topic, order, jobs[i].item) == key
  }

  /** Jobs about rows: their keys are well made, and no handler asks for a cancellation or a new payment. */
  predicate HandlerJobs(jobs: seq<Job>) {
    forall i :: 0 <= i < |jobs| ==> jobs[i].topic != PaymentCancellation && jobs[i].topic != PaymentCreated
  }

  lemma AppendKeepsTable(events: seq<Event>, e: Event)
    requires UniqueEvents(events) && AllWellKeyed(events) && WellKeyed(e) && !Enqueued(events, e.topic, e.aggregate)
    ensures UniqueEvents(events + [e]) && AllWellKeyed(events + [e])
  {
    var all := events + [e];
    forall i, j | 0 <= i < j < |all|
      ensures !SameSubject(all[i], all[j])
    {
      if j == |events| {
        assert all[i] == events[i];
      } else {
        assert all[i] == events[i] && all[j] == events[j];
      }
    }
  }

  /** What enqueueing a list of jobs does to the outbox. */
  lemma {:induction false} EnqueueAllAppends(events: seq<Event>, jobs: seq<Job>, k: nat, now: int)
    requires UniqueEvents(events) && AllWellKeyed(events) && HandlerJobs(jobs)
    requires EnqueueAll(events, jobs, k, now).Ok?
    ensures
      var r := EnqueueAll(events, jobs, k, now).value;
      && events <= r && UniqueEvents(r) && AllWellKeyed(r)
      && (forall i :: |events| <= i < |r| ==> r[i].status == Pending && r[i].aggregate.order == k)
    decreases |jobs|
  {
    if jobs != [] {
      var e := EventOf(jobs[0], k, now);
      AppendKeepsTable(events, e);
      EnqueueAllAppends(events + [e], jobs[1..], k, now);
    }
  }

  lemma {:induction false} EnqueuedAfterAll(events: seq<Event>, jobs: seq<Job>, k: nat, now: int, topic: Topic,
                                            key: Key)
    requires EnqueueAll(events, jobs, k, now).Ok?
    ensures Enqueued(EnqueueAll(events, jobs, k, now).value, topic, key)
            <==> Enqueued(events, topic, key) || JobFor(jobs, k, topic, key)
    decreases |jobs|
  {
    if jobs != [] {
      var e := EventOf(jobs[0], k, now);
      EnqueuedAfterAppend(events, e, topic, key);
      EnqueuedAfterAll(events + [e], jobs[1..], k, now, topic, key);
      assert JobFor(jobs, k, topic, key)
             <==> (e.topic == topic && e.aggregate == key) || JobFor(jobs[1..], k, topic, key) by {
        if JobFor(jobs[1..], k, topic, key) {
          var i :| 0 <= i < |jobs[1..]| && jobs[1..][i].topic == topic && KeyOf(topic, k, jobs[1..][i].item) == key;
          assert jobs[i + 1] == jobs[1..][i];
        }
      }
    }
  }

  /** Whether an event has been handled depends on its own row and on the receipts alone. */
  lemma HandledAfter(s: State, t: State, id: nat, topic: Topic, key: Key)
    requires s.events <= t.events && (forall i :: i in s.ran ==> i < |s.events|)
    requires t.ran == s.ran + [id] && id < |s.events|
    ensures Handled(t, topic, key)
            <==> Handled(s, topic, key) || (s.events[id].topic == topic && s.events[id].aggregate == key)
  {
    if Handled(s, topic, key) {
      var i :| i in s.ran && i < |s.events| && s.events[i].topic == topic && s.events[i].aggregate == key;
      assert i in t.ran && t.events[i] == s.events[i];
    }
    if s.events[id].topic == topic && s.events[id].aggregate == key {
      assert id in t.ran && t.events[id] == s.events[id];
    }
    if Handled(t, topic, key) {
      var i :| i in t.ran && i < |t.events| && t.events[i].topic == topic && t.events[i].aggregate == key;
      assert i == id || i in s.ran;
      assert t.events[i] == s.events[i];
    }
  }

  lemma HandledStays(s: State, t: State, topic: Topic, key: Key)
    requires s.events <= t.events && (forall i :: i in s.ran ==> i < |s.events|) && t.ran == s.ran
    ensures Handled(t, topic, key) <==> Handled(s, topic, key)
  {
    if Handled(s, topic, key) {
      var i :| i in s.ran && i < |s.events| && s.events[i].topic == topic && s.events[i].aggregate == key;
      assert t.events[i] == s.events[i];
    }
    if Handled(t, topic, key) {
      var i :| i in t.ran && i < |t.events| && t.events[i].topic == topic && t.events[i].aggregate == key;
      assert t.events[i] == s.events[i];
    }
  }
}

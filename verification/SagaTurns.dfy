/** What the turn of a leaseholder does to its order, said in rows: over every run, one theorem for each topic. */
module SagaTurns {
  import opened Results
  import opened Orders
  import opened LimitDesk
  import opened Outbox
  import opened Handlers
  import opened Saga
  import opened SagaInvariant
  import opened SagaTables
  import opened SagaEvents
  import opened SagaFailures
  import opened SagaSafety
  import opened SagaRows
  import opened SagaLimits

  /** Worker `w` has the lease of event `id` of order `k`, which waits for its handler. */
  predicate Leased(s: State, w: Worker, id: nat, topic: Topic, k: nat) {
    && Waiting(s, id, topic, k) && k < |s.orders| && (w, id) in s.held
    && s.events[id].status == Processing && s.events[id].leaseOwner == Some(w)
  }

  /** The state after the undisturbed turn of the worker on the event. */
  function Turn(s: State, w: Worker, id: nat, a: Answers): State {
    WorkOn(s, w, id, a, false, false)
  }

  /** The turn committed: order `k` is `after`, the event is PUBLISHED, and the outbox has these new events. */
  predicate Wrote(s: State, t: State, id: nat, k: nat, after: Order, added: seq<Event>)
    requires id < |s.events| && k < |s.orders|
  {
    && t.orders == s.orders[k := after] && id in t.ran && t.inbox == t.ran
    && t.events == s.events[id := s.events[id].(status := Published, leaseOwner := None, leaseUntil := None)] + added
  }

  /** The turn failed: no order, limit or receipt has changed. */
  predicate Raised(s: State, t: State, id: nat)
    requires id < |s.events|
  {
    && t.Desk() == s.Desk() && t.ran == s.ran && t.inbox == s.inbox && |t.events| == |s.events|
    && t.events[id].status != Published
  }

  /** One fact of this kind and reference was added. */
  predicate OneFact(before: seq<Fact>, after: seq<Fact>, kind: FactKind, reference: string) {
    |after| == |before| + 1 && after == before + [Fact(kind, reference, after[|before|].sequence)]
  }

  lemma LeasedTurnCommits(s: State, w: Worker, id: nat, topic: Topic, a: Answers, k: nat)
    requires ReceiptsHold(s) && Leased(s, w, id, topic, k) && Handle(s, id, a).Ok?
    ensures
      var t, r := Turn(s, w, id, a), Handle(s, id, a).value;
      && t.Desk() == r.Desk() && id in t.ran && t.inbox == t.ran && s.events <= r.events
      && t.events == r.events[id := s.events[id].(status := Published, leaseOwner := None, leaseUntil := None)]
  {
    CommittedExtends(s, w, id, a, false, false);
    CommittedOrder(s, w, id, a, false, false);
    CommittedInbox(s, w, id, a);
  }

  lemma CommittedInbox(s: State, w: Worker, id: nat, a: Answers)
    requires ReceiptsHold(s) && Commits(s, w, id, a, false, false) && id !in s.inbox
    ensures Turn(s, w, id, a).inbox == Turn(s, w, id, a).ran
  {
    TurnWrites(s, w, id, a, false, false);
    CommittedOrder(s, w, id, a, false, false);
  }

  lemma LeasedTurnRaises(s: State, w: Worker, id: nat, topic: Topic, a: Answers, k: nat)
    requires ReceiptsHold(s) && Leased(s, w, id, topic, k) && Handle(s, id, a).Err?
    ensures Raised(s, Turn(s, w, id, a), id)
  {
    FailedTurnWrites(s, w, id, a, false, false);
    var t := Turn(s, w, id, a);
    assert t.events[id].status == Pending || t.events[id].status == DeadLetter;
  }

  /** A handler whose outcome can be written makes its turn commit. */
  lemma OutcomeIsWritten(s: State, w: Worker, id: nat, topic: Topic, a: Answers, k: nat, effect: Effect, d: Desk,
                         events: seq<Event>)
    requires ReceiptsHold(s) && Leased(s, w, id, topic, k) && Dispatch(s, s.events[id], a) == Ok(effect)
    requires Settle(s.Desk(), k, effect.order) == Ok(d) && EnqueueAll(s.events, effect.enqueued, k, s.now) == Ok(events)
    ensures Handle(s, id, a).Ok? && Handle(s, id, a).value.Desk() == d && Handle(s, id, a).value.events == events
  {
    HandleIsAbsorb(s, id, a, k);
  }

  lemma OutcomeIsRefused(s: State, w: Worker, id: nat, topic: Topic, a: Answers, k: nat)
    requires ReceiptsHold(s) && Leased(s, w, id, topic, k)
    requires
      var r := Dispatch(s, s.events[id], a);
      r.Err? || Settle(s.Desk(), k, r.value.order).Err? || EnqueueAll(s.events, r.value.enqueued, k, s.now).Err?
    ensures Raised(s, Turn(s, w, id, a), id)
  {
    HandleIsAbsorb(s, id, a, k);
    LeasedTurnRaises(s, w, id, topic, a, k);
  }

  /** An order that stays open, or stays as it ended, is written without its limits. */
  predicate StaysAsItEnds(o: Order, p: Order) {
    SameTicket(o, p) && (Terminal(o.state) || !Terminal(p.state))
  }

  lemma PlainHandling(s: State, w: Worker, id: nat, topic: Topic, a: Answers, k: nat, effect: Effect, added: seq<Event>)
    requires ReceiptsHold(s) && Leased(s, w, id, topic, k)
    requires Dispatch(s, s.events[id], a) == Ok(effect) && StaysAsItEnds(s.orders[k], effect.order)
    requires EnqueueAll(s.events, effect.enqueued, k, s.now) == Ok(s.events + added)
    ensures
      var r := Handle(s, id, a);
      r.Ok? && r.value.Desk().orders == s.orders[k := effect.order] && r.value.events == s.events + added
  {
    PlainWrite(s.Desk(), k, effect.order);
    var d := s.Desk().(orders := s.orders[k := effect.order]);
    OutcomeIsWritten(s, w, id, topic, a, k, effect, d, s.events + added);
  }

  lemma WroteAfterHandling(s: State, w: Worker, id: nat, topic: Topic, a: Answers, k: nat, after: Order,
                           added: seq<Event>)
    requires ReceiptsHold(s) && Leased(s, w, id, topic, k) && Handle(s, id, a).Ok?
    requires
      var r := Handle(s, id, a).value;
      r.Desk().orders == s.orders[k := after] && r.events == s.events + added
    ensures Wrote(s, Turn(s, w, id, a), id, k, after, added)
  {
    LeasedTurnCommits(s, w, id, topic, a, k);
    var t := Turn(s, w, id, a);
    assert t.orders == t.Desk().orders;
    var row := s.events[id].(status := Published, leaseOwner := None, leaseUntil := None);
    assert (s.events + added)[id := row] == s.events[id := row] + added;
  }

  lemma PlainTurnWrites(s: State, w: Worker, id: nat, topic: Topic, a: Answers, k: nat, effect: Effect,
                        added: seq<Event>)
    requires ReceiptsHold(s) && Leased(s, w, id, topic, k)
    requires Dispatch(s, s.events[id], a) == Ok(effect) && StaysAsItEnds(s.orders[k], effect.order)
    requires EnqueueAll(s.events, effect.enqueued, k, s.now) == Ok(s.events + added)
    ensures Wrote(s, Turn(s, w, id, a), id, k, effect.order, added)
  {
    PlainHandling(s, w, id, topic, a, k, effect, added);
    WroteAfterHandling(s, w, id, topic, a, k, effect.order, added);
  }

  lemma QuietTurnWrites(s: State, w: Worker, id: nat, topic: Topic, a: Answers, k: nat, after: Order)
    requires ReceiptsHold(s) && Leased(s, w, id, topic, k)
    requires Dispatch(s, s.events[id], a) == Ok(Effect(after, [])) && StaysAsItEnds(s.orders[k], after)
    ensures Wrote(s, Turn(s, w, id, a), id, k, after, [])
  {
    assert s.events + [] == s.events;
    PlainTurnWrites(s, w, id, topic, a, k, Effect(after, []), []);
  }

  lemma JobTurnWrites(s: State, w: Worker, id: nat, topic: Topic, a: Answers, k: nat, after: Order, job: Job)
    requires ReceiptsHold(s) && Leased(s, w, id, topic, k)
    requires Dispatch(s, s.events[id], a) == Ok(Effect(after, [job])) && StaysAsItEnds(s.orders[k], after)
    requires !Enqueued(s.events, job.topic, KeyOf(job.topic, k, job.item))
    ensures Wrote(s, Turn(s, w, id, a), id, k, after, [EventOf(job, k, s.now)])
  {
    EnqueueOne(s.events, job, k, s.now);
    PlainTurnWrites(s, w, id, topic, a, k, Effect(after, [job]), [EventOf(job, k, s.now)]);
  }

  lemma TwoJobsTurnWrites(s: State, w: Worker, id: nat, topic: Topic, a: Answers, k: nat, after: Order, i: Job, j: Job)
    requires ReceiptsHold(s) && Leased(s, w, id, topic, k)
    requires Dispatch(s, s.events[id], a) == Ok(Effect(after, [i, j])) && StaysAsItEnds(s.orders[k], after)
    requires i.topic == j.topic && i.item != j.item && i.topic == SettlementSubmit
    requires !Enqueued(s.events, i.topic, KeyOf(i.topic, k, i.item))
             && !Enqueued(s.events, j.topic, KeyOf(j.topic, k, j.item))
    ensures Wrote(s, Turn(s, w, id, a), id, k, after, [EventOf(i, k, s.now), EventOf(j, k, s.now)])
  {
    TwoEnqueued(s.events, i, j, k, s.now);
    PlainTurnWrites(s, w, id, topic, a, k, Effect(after, [i, j]), [EventOf(i, k, s.now), EventOf(j, k, s.now)]);
  }

  lemma TwoEnqueued(events: seq<Event>, i: Job, j: Job, k: nat, now: int)
    requires i.topic == j.topic && i.item != j.item && i.topic == SettlementSubmit
    requires !Enqueued(events, i.topic, KeyOf(i.topic, k, i.item))
             && !Enqueued(events, j.topic, KeyOf(j.topic, k, j.item))
    ensures EnqueueAll(events, [i, j], k, now) == Ok(events + [EventOf(i, k, now), EventOf(j, k, now)])
  {
    var e := EventOf(i, k, now);
    EnqueuedAfterAppend(events, e, j.topic, KeyOf(j.topic, k, j.item));
    assert [i, j][1..] == [j];
    EnqueueOne(events + [e], j, k, now);
    assert events + [e] + [EventOf(j, k, now)] == events + [e, EventOf(j, k, now)];
  }

  /** A turn that ends its order commits exactly when the order does not overdraw its scope. */
  lemma EndingTurnWrites(s: State, w: Worker, id: nat, topic: Topic, a: Answers, k: nat, after: Order)
    requires ReceiptsHold(s) && CountersAgree(s.Desk()) && Leased(s, w, id, topic, k)
    requires Dispatch(s, s.events[id], a) == Ok(Effect(after, [])) && !Terminal(s.orders[k].state)
             && Terminal(after.state)
    ensures if Overdrawn(s.Desk(), s.orders[k]) then Raised(s, Turn(s, w, id, a), id)
            else Wrote(s, Turn(s, w, id, a), id, k, after, [])
  {
    ClosingRefusedExactlyWhen(s.Desk(), k, after);
    if Overdrawn(s.Desk(), s.orders[k]) {
      OutcomeIsRefused(s, w, id, topic, a, k);
    } else {
      WritingOneRow(s.Desk(), k, after);
      OutcomeIsWritten(s, w, id, topic, a, k, Effect(after, []), Settle(s.Desk(), k, after).value, s.events);
      LeasedTurnCommits(s, w, id, topic, a, k);
    }
  }

  /** No event speaks of a row that is not there. */
  lemma NoEventWithoutRow(s: State, k: nat, topic: Topic, item: nat)
    requires RowsExist(s) && AllWellKeyed(s.events) && k < |s.orders| && !HasRow(s.orders[k], topic, item)
    ensures !Enqueued(s.events, topic, KeyOf(topic, k, item))
  {
    forall i | 0 <= i < |s.events| && s.events[i].topic == topic
      ensures s.events[i].aggregate != KeyOf(topic, k, item)
    {
      assert WellKeyed(s.events[i]);
    }
  }

  // ----- the message -----

  lemma NoValueBeforeItsMessage(now: int, sandbox: bool, steps: seq<Step>, id: nat, k: nat)
    requires Waiting(Run(Start(now, sandbox), steps), id, PaymentMessage, k)
    ensures !Enqueued(Run(Start(now, sandbox), steps).events, PaymentValue, OrderKey(k))
  {
    var s := Run(Start(now, sandbox), steps);
    if v :| 0 <= v < |s.events| && s.events[v].topic == PaymentValue && s.events[v].aggregate == OrderKey(k) {
      Reachable(now, sandbox, steps);
      var i := ValueFollowsDelivery(now, sandbox, steps, v);
      DeliveredStays(now, sandbox, steps, i, k);
      assert Handled(s, PaymentMessage, OrderKey(k));
      WaitingIsUnhandled(s, id, PaymentMessage, k);
    }
  }

  lemma WaitingIsUnhandled(s: State, id: nat, topic: Topic, k: nat)
    requires TablesHold(s) && Waiting(s, id, topic, k)
    ensures !Handled(s, topic, KeyOf(topic, k, s.events[id].item))
  {
    FreshMeansUnhandled(s, id);
    assert WellKeyed(s.events[id]);
  }

  lemma {:induction false} RunExtends(s: State, steps: seq<Step>, i: nat)
    requires i <= |steps|
    ensures Extends(Run(s, steps[..i]).events, Run(s, steps).events) && Run(s, steps[..i]).ran <= Run(s, steps).ran
    decreases |steps|
  {
    if i == |steps| {
      assert steps[..i] == steps;
    } else {
      var n := |steps| - 1;
      RunExtends(s, steps[..n], i);
      assert steps[..n][..i] == steps[..i];
      StepAdds(Run(s, steps[..n]), steps[n]);
      StepRuns(Run(s, steps[..n]), steps[n]);
    }
  }

  lemma DeliveredStays(now: int, sandbox: bool, steps: seq<Step>, i: nat, k: nat)
    requires Delivers(Start(now, sandbox), steps, i, k)
    ensures Handled(Run(Start(now, sandbox), steps), PaymentMessage, OrderKey(k))
  {
    var s := Start(now, sandbox);
    var u, v, m := Run(s, steps[..i]), Run(s, steps[..i + 1]), steps[i].event;
    Reachable(now, sandbox, steps[..i]);
    assert WellKeyed(u.events[m]);
    RunExtends(s, steps, i);
    RunExtends(s, steps, i + 1);
    assert SameIdentity(u.events[m], Run(s, steps).events[m]) && m in Run(s, steps).ran;
  }

  predicate Sent(a: Answers) {
    a.delivery == Delivered || a.delivery == NetworkAcked
  }

  /** The row after the message: its new state, and one message fact. */
  predicate MessageRow(o: Order, p: Order, state: OrderState) {
    && OneFact(o.facts, p.facts, Message, "payment-message")
    && p == o.(state := state, version := o.version + 1, facts := p.facts)
  }

  lemma SentOutcome(o: Order, a: Answers)
    requires CommittedState(o.state) && Sent(a)
    ensures
      var r := MessageHandler(o, a, false);
      if o.state in {ReservationPending, FxAccepted, MessageDelivered, Suspended} then
        r.Ok? && r.value.enqueued == [Job(PaymentValue, 0)] && StaysAsItEnds(o, r.value.order)
        && MessageRow(o, r.value.order, MessageDelivered)
      else r.Err?
  {
    Predecessors(o.state);
  }

  lemma UnsentOutcome(o: Order, a: Answers)
    requires CommittedState(o.state) && !Sent(a)
    ensures
      var r := MessageHandler(o, a, false);
      if o.state !in {OperationallyClosed, OperationallyClosedUnsuccessful} then
        r.Ok? && r.value.enqueued == [] && StaysAsItEnds(o, r.value.order) && MessageRow(o, r.value.order, Suspended)
      else r.Err?
  {
    Predecessors(o.state);
  }

  /** With an answer of DELIVERED or NETWORK_ACKED an order that is funded, settled, delivered or parked becomes
      MESSAGE_DELIVERED and its value event is added; with any other answer an open order becomes SUSPENDED and nothing
      is added. Otherwise the turn fails. */
  predicate MessageTurned(s: State, t: State, id: nat, k: nat, a: Answers)
    requires id < |s.events| && k < |s.orders|
  {
    var o := s.orders[k];
    if Sent(a) && o.state in {ReservationPending, FxAccepted, MessageDelivered, Suspended} then
      && k < |t.orders| && MessageRow(o, t.orders[k], MessageDelivered)
      && Wrote(s, t, id, k, t.orders[k], [NewEvent(PaymentValue, OrderKey(k), 0, s.now)])
    else if !Sent(a) && o.state !in {OperationallyClosed, OperationallyClosedUnsuccessful} then
      && k < |t.orders| && MessageRow(o, t.orders[k], Suspended) && Wrote(s, t, id, k, t.orders[k], [])
    else Raised(s, t, id)
  }

  lemma MessageDispatch(s: State, id: nat, a: Answers, k: nat)
    requires Waiting(s, id, PaymentMessage, k) && k < |s.orders| && !Enqueued(s.events, PaymentValue, OrderKey(k))
    ensures Dispatch(s, s.events[id], a) == MessageHandler(s.orders[k], a, false)
  {
    assert !Queued(s.events, PaymentValue, OrderKey(k));
  }

  lemma SentTurnAt(s: State, w: Worker, id: nat, a: Answers, k: nat)
    requires ReceiptsHold(s) && Leased(s, w, id, PaymentMessage, k) && CommittedState(s.orders[k].state)
    requires !Enqueued(s.events, PaymentValue, OrderKey(k)) && Sent(a)
    ensures MessageTurned(s, Turn(s, w, id, a), id, k, a)
  {
    var r := MessageHandler(s.orders[k], a, false);
    MessageDispatch(s, id, a, k);
    SentOutcome(s.orders[k], a);
    if r.Err? {
      OutcomeIsRefused(s, w, id, PaymentMessage, a, k);
    } else {
      JobTurnWrites(s, w, id, PaymentMessage, a, k, r.value.order, Job(PaymentValue, 0));
    }
  }

  lemma UnsentTurnAt(s: State, w: Worker, id: nat, a: Answers, k: nat)
    requires ReceiptsHold(s) && Leased(s, w, id, PaymentMessage, k) && CommittedState(s.orders[k].state)
    requires !Enqueued(s.events, PaymentValue, OrderKey(k)) && !Sent(a)
    ensures MessageTurned(s, Turn(s, w, id, a), id, k, a)
  {
    var r := MessageHandler(s.orders[k], a, false);
    MessageDispatch(s, id, a, k);
    UnsentOutcome(s.orders[k], a);
    if r.Err? {
      OutcomeIsRefused(s, w, id, PaymentMessage, a, k);
    } else {
      QuietTurnWrites(s, w, id, PaymentMessage, a, k, r.value.order);
    }
  }

  /** The turn on a waiting message event, in every run. */
  lemma {:induction false} MessageTurn(now: int, sandbox: bool, steps: seq<Step>, w: Worker, id: nat, a: Answers,
                                       k: nat)
    requires Leased(Run(Start(now, sandbox), steps), w, id, PaymentMessage, k)
    ensures
      var s := Run(Start(now, sandbox), steps);
      MessageTurned(s, Turn(s, w, id, a), id, k, a)
  {
    NoValueBeforeItsMessage(now, sandbox, steps, id, k);
    CommittedOrders(now, sandbox, steps, k);
    if Sent(a) {
      SentTurnAt(Run(Start(now, sandbox), steps), w, id, a, k);
    } else {
      UnsentTurnAt(Run(Start(now, sandbox), steps), w, id, a, k);
    }
  }

  /** So the answer alone decides about a funded, settled or parked order: it is MESSAGE_DELIVERED and has its value
      event if and only if the message was delivered or acknowledged, and SUSPENDED without one otherwise. */
  lemma {:induction false} DeliveryDecides(now: int, sandbox: bool, steps: seq<Step>, w: Worker, id: nat, a: Answers,
                                           k: nat)
    requires Leased(Run(Start(now, sandbox), steps), w, id, PaymentMessage, k)
    requires Run(Start(now, sandbox), steps).orders[k].state in {ReservationPending, FxAccepted, Suspended}
    ensures
      var t := Turn(Run(Start(now, sandbox), steps), w, id, a);
      && k < |t.orders| && t.orders[k].state == (if Sent(a) then MessageDelivered else Suspended)
      && (Enqueued(t.events, PaymentValue, OrderKey(k)) <==> Sent(a))
  {
    MessageTurn(now, sandbox, steps, w, id, a, k);
    NoValueBeforeItsMessage(now, sandbox, steps, id, k);
    ValueEventFollows(Run(Start(now, sandbox), steps), Turn(Run(Start(now, sandbox), steps), w, id, a), id, k, a);
  }

  lemma ValueEventFollows(s: State, t: State, id: nat, k: nat, a: Answers)
    requires Waiting(s, id, PaymentMessage, k) && k < |s.orders| && MessageTurned(s, t, id, k, a)
    requires s.orders[k].state in {ReservationPending, FxAccepted, Suspended}
    requires !Enqueued(s.events, PaymentValue, OrderKey(k))
    ensures Enqueued(t.events, PaymentValue, OrderKey(k)) <==> Sent(a)
  {
    if Sent(a) {
      assert t.events[|s.events|] == NewEvent(PaymentValue, OrderKey(k), 0, s.now);
    }
  }

  lemma CommittedOrders(now: int, sandbox: bool, steps: seq<Step>, k: nat)
    requires k < |Run(Start(now, sandbox), steps).orders|
    ensures
      var s := Run(Start(now, sandbox), steps);
      ReceiptsHold(s) && CommittedState(s.orders[k].state)
  {
    Reachable(now, sandbox, steps);
    var s := Run(Start(now, sandbox), steps);
    assert Sound(s.orders[k], HistoryOf(s, k), AllReservationStates());
  }
}

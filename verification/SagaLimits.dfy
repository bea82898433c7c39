/** The limits inside the saga: what counters and positions stand for in every run, and exactly when the last
    handler of an order goes through, limits included. */
module SagaLimits {
  import opened Results
  import opened Orders
  import opened LimitDesk
  import opened Outbox
  import opened Handlers
  import opened Saga
  import opened SagaInvariant
  import opened SagaSteps
  import opened SagaTables
  import opened SagaSafety

  // ----- counters and positions over whole runs -----

  lemma MoveKeepsCounters(d: Desk, step: Step, t: Desk)
    requires CountersAgree(d) && DeskMoves(d, step, t)
    ensures CountersAgree(t)
  {
    if t == d {
    } else if k, p :| 0 <= k < |d.orders| && Writes(d.orders[k], p) && Settle(d, k, p) == Ok(t) {
      WriteKeepsCounters(d, k, p);
    } else {
      var p := step.payment;
      AdditionKeepsCounters(d, p.scope, p.day, p.amount, p.sameCurrency, p.screeningPasses, p.profile);
    }
  }

  lemma StartAgrees(now: int, sandbox: bool)
    ensures CountersAgree(Start(now, sandbox).Desk())
            && forall guarded :: ExposuresAgree(Start(now, sandbox).Desk(), guarded)
  {
    assert Start(now, sandbox).Desk() == EMPTY;
  }

  /** In every run each counter's reserved amount is the sum over its open orders, and its consumed amount the sum
      over its orders closed as COMPLETED. */
  lemma {:induction false} SagaCountersMatchOrders(now: int, sandbox: bool, steps: seq<Step>)
    ensures CountersAgree(Run(Start(now, sandbox), steps).Desk())
    decreases |steps|
  {
    if steps == [] {
      StartAgrees(now, sandbox);
    } else {
      var n := |steps| - 1;
      SagaCountersMatchOrders(now, sandbox, steps[..n]);
      var s := Run(Start(now, sandbox), steps[..n]);
      StepOnDesk(s, steps[n]);
      MoveKeepsCounters(s.Desk(), steps[n], Apply(s, steps[n]).Desk());
    }
  }

  predicate UniformStep(step: Step, guarded: iset<Scope>) {
    step.Create? ==> UniformProfile(step.payment.profile, step.payment.scope, guarded)
  }

  predicate UniformSteps(steps: seq<Step>, guarded: iset<Scope>) {
    forall i :: 0 <= i < |steps| ==> UniformStep(steps[i], guarded)
  }

  lemma MoveKeepsExposures(d: Desk, step: Step, t: Desk, guarded: iset<Scope>)
    requires Bound(d) && ExposuresAgree(d, guarded) && UniformStep(step, guarded) && DeskMoves(d, step, t)
    ensures ExposuresAgree(t, guarded)
  {
    if t == d {
    } else if k, p :| 0 <= k < |d.orders| && Writes(d.orders[k], p) && Settle(d, k, p) == Ok(t) {
      WriteKeepsExposures(d, k, p, guarded);
    } else {
      var p := step.payment;
      AdditionKeepsExposures(d, p.scope, p.day, p.amount, p.sameCurrency, p.screeningPasses, p.profile, guarded);
    }
  }

  /** Where each scope sets its exposure limit always or never, a position holds exactly the open orders of its
      scope. */
  lemma {:induction false} SagaExposureMatchesOrders(now: int, sandbox: bool, steps: seq<Step>, guarded: iset<Scope>)
    requires UniformSteps(steps, guarded)
    ensures ExposuresAgree(Run(Start(now, sandbox), steps).Desk(), guarded)
    decreases |steps|
  {
    if steps == [] {
      StartAgrees(now, sandbox);
    } else {
      var n := |steps| - 1;
      SagaExposureMatchesOrders(now, sandbox, steps[..n], guarded);
      SagaCountersMatchOrders(now, sandbox, steps[..n]);
      var s := Run(Start(now, sandbox), steps[..n]);
      assert UniformStep(steps[n], guarded);
      StepOnDesk(s, steps[n]);
      MoveKeepsExposures(s.Desk(), steps[n], Apply(s, steps[n]).Desk(), guarded);
    }
  }

  // ----- the last handler of an order -----

  lemma QuietAbsorb(s: State, id: nat, outcome: Result<Effect>)
    requires id < |s.events| && s.events[id].aggregate.order < |s.orders|
    requires outcome.Ok? ==> outcome.value.enqueued == []
    ensures
      var k := s.events[id].aggregate.order;
      Absorb(s, id, outcome).Ok? <==> outcome.Ok? && Settle(s.Desk(), k, outcome.value.order).Ok?
    ensures
      var k := s.events[id].aggregate.order;
      Absorb(s, id, outcome).Ok? ==> Absorb(s, id, outcome).value.orders == s.orders[k := outcome.value.order]
  {
  }

  /** An event of order `k` that waits for its handler in state `s`. */
  predicate Waiting(s: State, id: nat, topic: Topic, k: nat) {
    id < |s.events| && id !in s.ran && s.events[id].topic == topic && s.events[id].aggregate.order == k
  }

  lemma EndingGoesThrough(s: State, id: nat, k: nat, outcome: Result<Effect>)
    requires CountersAgree(s.Desk()) && id < |s.events| && s.events[id].aggregate.order == k && k < |s.orders|
    requires !Terminal(s.orders[k].state)
    requires outcome.Ok? ==> outcome.value.enqueued == [] && Terminal(outcome.value.order.state)
    ensures Absorb(s, id, outcome).Ok? <==> outcome.Ok? && !Overdrawn(s.Desk(), s.orders[k])
    ensures Absorb(s, id, outcome).Ok? ==> Absorb(s, id, outcome).value.orders[k] == outcome.value.order
  {
    QuietAbsorb(s, id, outcome);
    if outcome.Ok? {
      ClosingRefusedExactlyWhen(s.Desk(), k, outcome.value.order);
    }
  }

  lemma ValueOutcome(s: State, id: nat, a: Answers, k: nat)
    requires Inv(s, AllReservationStates()) && Waiting(s, id, PaymentValue, k)
    requires !Terminal(s.orders[k].state) && a.settlement == LegFinal
    ensures
      var o, outcome := s.orders[k], ValueHandler(s.orders[k], a);
      && (outcome.Ok? <==> (o.state == MessageDelivered || o.state == Suspended)
                           && Frees(o, a) && o.openCases == 0 && o.postedJournals > 0)
      && (outcome.Ok? ==> Closes(o, outcome.value, a))
  {
    HistoryBefore(s, id);
    var h := HistoryOf(s, k);
    assert Sound(s.orders[k], h, AllReservationStates());
    FinalityCloses(s.orders[k], a, h, AllReservationStates());
  }

  lemma HandleIsAbsorb(s: State, id: nat, a: Answers, k: nat)
    requires id < |s.events| && s.events[id].aggregate.order == k && k < |s.orders|
    ensures Handle(s, id, a) == Absorb(s, id, Dispatch(s, s.events[id], a))
  {
  }

  lemma HandledEnding(s: State, id: nat, a: Answers, k: nat)
    requires CountersAgree(s.Desk()) && id < |s.events| && s.events[id].aggregate.order == k && k < |s.orders|
    requires !Terminal(s.orders[k].state)
    requires
      var outcome := Dispatch(s, s.events[id], a);
      outcome.Ok? ==> outcome.value.enqueued == [] && Terminal(outcome.value.order.state)
    ensures Handle(s, id, a).Ok? <==> Dispatch(s, s.events[id], a).Ok? && !Overdrawn(s.Desk(), s.orders[k])
    ensures
      var r := Handle(s, id, a);
      r.Ok? ==> |r.value.orders| == |s.orders| && r.value.orders[k] == Dispatch(s, s.events[id], a).value.order
  {
    HandleIsAbsorb(s, id, a, k);
    EndingGoesThrough(s, id, k, Dispatch(s, s.events[id], a));
    QuietAbsorb(s, id, Dispatch(s, s.events[id], a));
  }

  lemma ValueClosesAt(s: State, id: nat, a: Answers, k: nat)
    requires Inv(s, AllReservationStates()) && CountersAgree(s.Desk()) && Waiting(s, id, PaymentValue, k)
    requires !Terminal(s.orders[k].state) && a.settlement == LegFinal
    ensures
      var o, r := s.orders[k], Handle(s, id, a);
      && (r.Ok? <==> (o.state == MessageDelivered || o.state == Suspended) && Frees(o, a)
                     && o.openCases == 0 && o.postedJournals > 0 && !Overdrawn(s.Desk(), o))
      && (r.Ok? ==> k < |r.value.orders| && r.value.orders[k].state == OperationallyClosed
                    && r.value.orders[k].outcome == Some(Completed))
  {
    ValueOutcome(s, id, a, k);
    assert Dispatch(s, s.events[id], a) == ValueHandler(s.orders[k], a);
    HandledEnding(s, id, a, k);
  }

  /** In every run, a final settlement closes an open order if and only if the order is delivered or suspended, the
      consumption answers leave no reservation open, no case is open, a journal is posted, and the order does not
      overdraw its scope. Otherwise the handler raises. */
  lemma {:induction false} ValueClosesExactlyWhen(now: int, sandbox: bool, steps: seq<Step>, id: nat, a: Answers,
                                                  k: nat)
    requires Waiting(Run(Start(now, sandbox), steps), id, PaymentValue, k)
    requires k < |Run(Start(now, sandbox), steps).orders| && !Terminal(Run(Start(now, sandbox), steps).orders[k].state)
    requires a.settlement == LegFinal
    ensures
      var s := Run(Start(now, sandbox), steps);
      var o, r := s.orders[k], Handle(s, id, a);
      && (r.Ok? <==> (o.state == MessageDelivered || o.state == Suspended) && Frees(o, a)
                     && o.openCases == 0 && o.postedJournals > 0 && !Overdrawn(s.Desk(), o))
      && (r.Ok? ==> k < |r.value.orders| && r.value.orders[k].state == OperationallyClosed
                    && r.value.orders[k].outcome == Some(Completed))
  {
    var s := Run(Start(now, sandbox), steps);
    Reachable(now, sandbox, steps);
    SagaCountersMatchOrders(now, sandbox, steps);
    ValueClosesAt(s, id, a, k);
  }

  /** Where exposure limits are set always or never, the limits have no part in it. */
  lemma {:induction false} UniformValueClosesExactlyWhen(now: int, sandbox: bool, steps: seq<Step>,
                                                         guarded: iset<Scope>,
                                                         id: nat, a: Answers, k: nat)
    requires UniformSteps(steps, guarded)
    requires Waiting(Run(Start(now, sandbox), steps), id, PaymentValue, k)
    requires k < |Run(Start(now, sandbox), steps).orders| && !Terminal(Run(Start(now, sandbox), steps).orders[k].state)
    requires a.settlement == LegFinal
    ensures
      var s := Run(Start(now, sandbox), steps);
      var o := s.orders[k];
      Handle(s, id, a).Ok? <==> (o.state == MessageDelivered || o.state == Suspended) && Frees(o, a)
                                && o.openCases == 0 && o.postedJournals > 0
  {
    ValueClosesExactlyWhen(now, sandbox, steps, id, a, k);
    SagaExposureMatchesOrders(now, sandbox, steps, guarded);
    UniformScopesAreNotOverdrawn(Run(Start(now, sandbox), steps).Desk(), guarded, k);
  }

  /** The rows and events of an unsuccessful end by cancellation. */
  predicate EndsCancelled(outcome: Result<Effect>) {
    && outcome.Ok? && outcome.value.enqueued == []
    && outcome.value.order.state == OperationallyClosedUnsuccessful
    && outcome.value.order.outcome == Some(Cancelled) && outcome.value.order.cancellations == [CancelAccepted]
  }

  lemma GrantedAcceptance(o: Order)
    requires CommittedState(o.state) && !Terminal(o.state) && o.cancellations == [CancelRequested]
    ensures AcceptCancellation(o, 0).Ok?
  {
    var o2 := o.(cancellations := [CancelAccepted]);
    assert o.cancellations[0 := CancelSent][0 := CancelAccepted] == [CancelAccepted];
    MoveIsPointwise(o2, 0, ToReleased(), false);
  }

  /** A granted cancellation of an open order whose value is not final is written by the handler in any case. */
  lemma GrantedOutcome(o: Order, a: Answers)
    requires CommittedState(o.state) && !Terminal(o.state) && o.leg.state != LegFinal
    requires o.cancellations == [CancelRequested] && a.cancel == CancelGranted
    ensures EndsCancelled(CancellationHandler(o, 0, a))
  {
    var o1 := AppendFact(o, Cancellation, Numbered("can_", 0));
    GrantedAcceptance(o1);
    AcceptanceWrites(o1, 0);
  }

  lemma CancellationOutcome(s: State, id: nat, a: Answers, k: nat)
    requires Inv(s, AllReservationStates()) && Waiting(s, id, PaymentCancellation, k)
    requires !Terminal(s.orders[k].state) && a.cancel == CancelGranted
    ensures s.events[id].item == 0
    ensures EndsCancelled(CancellationHandler(s.orders[k], 0, a))
  {
    CancellationWaits(s, id, k);
    var h := HistoryOf(s, k);
    assert Sound(s.orders[k], h, AllReservationStates());
    WaitingRequest(s.orders[k], h, AllReservationStates());
    GrantedOutcome(s.orders[k], a);
  }

  lemma CancellationWaits(s: State, id: nat, k: nat)
    requires TablesHold(s) && Waiting(s, id, PaymentCancellation, k)
    ensures HistoryOf(s, k).cancelQueued && !HistoryOf(s, k).cancelHandled && s.events[id].item == 0
  {
    FreshMeansUnhandled(s, id);
    assert WellKeyed(s.events[id]);
  }

  lemma WaitingRequest(o: Order, h: History, answers: set<ReservationState>)
    requires Sound(o, h, answers) && h.cancelQueued && !h.cancelHandled && !Terminal(o.state)
    ensures o.cancellations == [CancelRequested] && CommittedState(o.state) && o.leg.state != LegFinal
  {
  }

  lemma CancellationDispatch(s: State, id: nat, a: Answers, k: nat)
    requires Waiting(s, id, PaymentCancellation, k) && k < |s.orders| && s.events[id].item == 0
    ensures Dispatch(s, s.events[id], a) == CancellationHandler(s.orders[k], 0, a)
  {
  }

  lemma CancellationEndsAt(s: State, id: nat, a: Answers, k: nat)
    requires Inv(s, AllReservationStates()) && CountersAgree(s.Desk()) && Waiting(s, id, PaymentCancellation, k)
    requires !Terminal(s.orders[k].state) && a.cancel == CancelGranted
    ensures
      var r := Handle(s, id, a);
      && (r.Ok? <==> !Overdrawn(s.Desk(), s.orders[k]))
      && (r.Ok? ==> k < |r.value.orders| && r.value.orders[k].state == OperationallyClosedUnsuccessful
                    && r.value.orders[k].outcome == Some(Cancelled))
  {
    CancellationOutcome(s, id, a, k);
    CancellationDispatch(s, id, a, k);
    HandledEnding(s, id, a, k);
  }

  /** In every run, a granted cancellation ends an open order as CANCELLED if and only if the order does not overdraw
      its scope: nothing else stands in its way. */
  lemma {:induction false} CancellationEndsExactlyWhen(now: int, sandbox: bool, steps: seq<Step>, id: nat, a: Answers,
                                                       k: nat)
    requires Waiting(Run(Start(now, sandbox), steps), id, PaymentCancellation, k)
    requires k < |Run(Start(now, sandbox), steps).orders| && !Terminal(Run(Start(now, sandbox), steps).orders[k].state)
    requires a.cancel == CancelGranted
    ensures
      var s := Run(Start(now, sandbox), steps);
      var r := Handle(s, id, a);
      && (r.Ok? <==> !Overdrawn(s.Desk(), s.orders[k]))
      && (r.Ok? ==> k < |r.value.orders| && r.value.orders[k].state == OperationallyClosedUnsuccessful
                    && r.value.orders[k].outcome == Some(Cancelled))
  {
    var s := Run(Start(now, sandbox), steps);
    Reachable(now, sandbox, steps);
    SagaCountersMatchOrders(now, sandbox, steps);
    CancellationEndsAt(s, id, a, k);
  }

  // ----- a scope that mixes set and unset exposure limits -----

  lemma RunOfTwo(s: State, a: Step, b: Step)
    ensures Run(s, [a, b]) == Apply(Apply(s, a), b)
  {
    assert [a, b][..1] == [a] && [a][..0] == [];
    assert Run(s, [a]) == Apply(s, a);
  }

  const UNLIMITED := Payment("scope", 0, 5, true, true, Some(LimitDesk.Profile(None, None)))
  const GUARDED := Payment("scope", 0, 3, true, true, Some(LimitDesk.Profile(None, Some(100))))

  lemma FirstCreated(s: State)
    requires s.orders == [] && s.events == [] && s.counters == map[] && s.positions == map[]
    ensures
      var t := Apply(s, Create(UNLIMITED));
      && t.orders == [NewOrder(5, true, true, "scope", Some(LimitKey("scope", 0)))]
      && t.events == [NewEvent(PaymentCreated, OrderKey(0), 0, s.now)]
      && LimitKey("scope", 0) in t.counters && t.positions == map[]
  {
  }

  lemma SecondCreated(s: State)
    requires s.orders == [NewOrder(5, true, true, "scope", Some(LimitKey("scope", 0)))] && s.positions == map[]
    requires s.events == [NewEvent(PaymentCreated, OrderKey(0), 0, s.now)]
    ensures
      var t := Apply(s, Create(GUARDED));
      |t.orders| == 2 && t.orders[0] == s.orders[0] && Overdrawn(t.Desk(), t.orders[0])
  {
  }

  /** The condition on the limits is not idle: two payments of one scope are enough for an open order that no final
      settlement and no granted cancellation can end. */
  lemma AMixedScopeOverdraws(now: int, sandbox: bool) returns (steps: seq<Step>)
    ensures
      var s := Run(Start(now, sandbox), steps);
      |s.orders| == 2 && !Terminal(s.orders[0].state) && Overdrawn(s.Desk(), s.orders[0])
  {
    var first, second := Create(UNLIMITED), Create(GUARDED);
    steps := [first, second];
    RunOfTwo(Start(now, sandbox), first, second);
    FirstCreated(Start(now, sandbox));
    SecondCreated(Apply(Start(now, sandbox), first));
  }
}

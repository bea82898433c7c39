/** The turns that may end an order, in every run: the settlement of its value, and its cancellation. */
module SagaEndingTurns {
  import opened Results
  import opened Orders
  import opened LimitDesk
  import opened Outbox
  import opened Handlers
  import opened Saga
  import opened SagaInvariant
  import opened SagaTables
  import opened SagaSafety
  import opened SagaLimits
  import opened SagaTurns

  // ----- value -----

  /** No reservation is RESERVED or PENDING once each RESERVED one has got its consumption answer. */
  predicate NoneStaysOpen(reservations: seq<Reservation>, consume: nat -> ReservationState) {
    forall j :: 0 <= j < |reservations| ==>
                  && reservations[j].state != ReservationRequested
                  && (reservations[j].state == Reserved ==>
                      consume(j) != Reserved && consume(j) != ReservationRequested)
  }

  /** Each RESERVED reservation, and no other, has moved to its answer. */
  predicate MovedOn(before: seq<Reservation>, after: seq<Reservation>, next: nat -> ReservationState) {
    && |after| == |before|
    && forall j :: 0 <= j < |before| ==>
                     after[j] == if before[j].state != Reserved then before[j]
                                 else before[j].(state := next(j), trail := before[j].trail + [next(j)])
  }

  /** The row of a closed order. */
  predicate ClosedAs(o: Order, p: Order, a: Answers) {
    && MovedOn(o.reservations, p.reservations, a.consume) && o.facts <= p.facts
    && p == o.(state := OperationallyClosed, outcome := Some(Completed), closedWith := Some(Completed),
               version := p.version, facts := p.facts, reservations := p.reservations,
               leg := o.leg.(state := LegFinal), credits := [Credit(Credited, true)],
               reconciliations := o.reconciliations + [Matched])
  }

  /** The message has gone out or the order was parked, no reservation stays open, no case is open, and a journal is
      posted. */
  predicate Finishes(o: Order, a: Answers) {
    && o.state in {MessageDelivered, Suspended} && NoneStaysOpen(o.reservations, a.consume)
    && o.openCases == 0 && o.postedJournals > 0
  }

  /** What a final answer for the value comes to: the order closes if it may finish and its scope is not overdrawn;
      otherwise the turn fails. */
  predicate FinalTurned(s: State, t: State, id: nat, k: nat, a: Answers)
    requires id < |s.events| && k < |s.orders|
  {
    var o := s.orders[k];
    if Finishes(o, a) && !Overdrawn(s.Desk(), o) then
      k < |t.orders| && ClosedAs(o, t.orders[k], a) && Wrote(s, t, id, k, t.orders[k], [])
    else Raised(s, t, id)
  }

  /** What the turn on the value comes to: a closed order stays as it is; an answer that is not final is noted on the
      leg. */
  predicate ValueTurned(s: State, t: State, id: nat, k: nat, a: Answers)
    requires id < |s.events| && k < |s.orders|
  {
    var o := s.orders[k];
    if o.state == OperationallyClosed then Wrote(s, t, id, k, o, [])
    else if a.settlement == LegFinal then FinalTurned(s, t, id, k, a)
    else
      && k < |t.orders| && OneFact(o.facts, t.orders[k].facts, Settlement, "PAYMENT_VALUE")
      && Wrote(s, t, id, k, o.(leg := o.leg.(state := a.settlement), facts := t.orders[k].facts), [])
  }

  lemma FreesInRows(o: Order, a: Answers)
    ensures Frees(o, a) == NoneStaysOpen(o.reservations, a.consume)
  {
  }

  lemma MovedInRows(o: Order, p: Order, next: nat -> ReservationState)
    requires |p.reservations| == |o.reservations|
    requires forall j :: 0 <= j < |o.reservations| ==> p.reservations[j] == Moved(o, 0, j, next)
    ensures MovedOn(o.reservations, p.reservations, next)
  {
  }

  /** What a turn may rely on in every run. */
  ghost predicate Pursuable(s: State, k: nat) {
    && Inv(s, AllReservationStates()) && CountersAgree(s.Desk()) && k < |s.orders|
  }

  lemma FinalOutcome(s: State, id: nat, a: Answers, k: nat)
    requires Pursuable(s, k) && Waiting(s, id, PaymentValue, k) && a.settlement == LegFinal
    requires s.orders[k].state != OperationallyClosed
    ensures
      var o, r := s.orders[k], ValueHandler(s.orders[k], a);
      && (r.Ok? <==> Finishes(o, a))
      && (r.Ok? ==> r.value.enqueued == [] && ClosedAs(o, r.value.order, a))
  {
    var o := s.orders[k];
    if Terminal(o.state) {
      EndedRefuses(s, k, a);
    } else {
      ValueOutcome(s, id, a, k);
      FreesInRows(o, a);
      if ValueHandler(o, a).Ok? {
        MovedInRows(o, ValueHandler(o, a).value.order, a.consume);
      }
    }
  }

  lemma EndedRefuses(s: State, k: nat, a: Answers)
    requires Pursuable(s, k) && s.orders[k].state == OperationallyClosedUnsuccessful && a.settlement == LegFinal
    ensures ValueHandler(s.orders[k], a).Err?
  {
    assert Sound(s.orders[k], HistoryOf(s, k), AllReservationStates());
    TerminalStaysPut(SubmitValue(s.orders[k], a), ValueSettlement, None);
  }

  lemma FinalTurnAt(s: State, w: Worker, id: nat, a: Answers, k: nat)
    requires Pursuable(s, k) && Leased(s, w, id, PaymentValue, k) && a.settlement == LegFinal
    requires s.orders[k].state != OperationallyClosed
    ensures FinalTurned(s, Turn(s, w, id, a), id, k, a)
  {
    FinalOutcome(s, id, a, k);
    assert Dispatch(s, s.events[id], a) == ValueHandler(s.orders[k], a);
    FinalTurnFrom(s, w, id, a, k, ValueHandler(s.orders[k], a));
  }

  lemma FinalTurnFrom(s: State, w: Worker, id: nat, a: Answers, k: nat, r: Result<Effect>)
    requires ReceiptsHold(s) && CountersAgree(s.Desk()) && Leased(s, w, id, PaymentValue, k)
    requires Dispatch(s, s.events[id], a) == r && (r.Ok? <==> Finishes(s.orders[k], a))
    requires r.Ok? ==> r.value.enqueued == [] && ClosedAs(s.orders[k], r.value.order, a)
    ensures FinalTurned(s, Turn(s, w, id, a), id, k, a)
  {
    if r.Err? {
      OutcomeIsRefused(s, w, id, PaymentValue, a, k);
    } else {
      ClosingTurnAt(s, w, id, a, k, r.value.order);
    }
  }

  lemma ClosingTurnAt(s: State, w: Worker, id: nat, a: Answers, k: nat, after: Order)
    requires ReceiptsHold(s) && CountersAgree(s.Desk())
    requires Leased(s, w, id, PaymentValue, k) && ClosedAs(s.orders[k], after, a)
    requires Dispatch(s, s.events[id], a) == Ok(Effect(after, [])) && s.orders[k].state in {MessageDelivered, Suspended}
    ensures
      var t := Turn(s, w, id, a);
      if Overdrawn(s.Desk(), s.orders[k]) then Raised(s, t, id)
      else k < |t.orders| && ClosedAs(s.orders[k], t.orders[k], a) && Wrote(s, t, id, k, t.orders[k], [])
  {
    EndingTurnWrites(s, w, id, PaymentValue, a, k, after);
  }

  lemma ValueLegs(s: State, k: nat)
    requires Pursuable(s, k)
    ensures s.orders[k].leg.state == LegFinal <==> s.orders[k].state == OperationallyClosed
  {
    assert Sound(s.orders[k], HistoryOf(s, k), AllReservationStates());
  }

  lemma SubmittedOutcome(o: Order, a: Answers)
    requires o.leg.state != LegFinal && a.settlement != LegFinal
    ensures
      var r := ValueHandler(o, a);
      && r.Ok? && r.value.enqueued == [] && StaysAsItEnds(o, r.value.order)
      && OneFact(o.facts, r.value.order.facts, Settlement, "PAYMENT_VALUE")
      && r.value.order == o.(leg := o.leg.(state := a.settlement), facts := r.value.order.facts)
  {
  }

  lemma NotedTurnAt(s: State, w: Worker, id: nat, a: Answers, k: nat)
    requires Pursuable(s, k) && Leased(s, w, id, PaymentValue, k) && a.settlement != LegFinal
    requires s.orders[k].state != OperationallyClosed
    ensures ValueTurned(s, Turn(s, w, id, a), id, k, a)
  {
    ValueLegs(s, k);
    assert Dispatch(s, s.events[id], a) == ValueHandler(s.orders[k], a);
    SubmittedOutcome(s.orders[k], a);
    QuietTurnWrites(s, w, id, PaymentValue, a, k, ValueHandler(s.orders[k], a).value.order);
  }

  lemma ClosedTurnAt(s: State, w: Worker, id: nat, a: Answers, k: nat)
    requires Pursuable(s, k) && Leased(s, w, id, PaymentValue, k) && s.orders[k].state == OperationallyClosed
    ensures ValueTurned(s, Turn(s, w, id, a), id, k, a)
  {
    ValueLegs(s, k);
    assert Dispatch(s, s.events[id], a) == Ok(Effect(s.orders[k], []));
    QuietTurnWrites(s, w, id, PaymentValue, a, k, s.orders[k]);
  }

  lemma ValueTurnAt(s: State, w: Worker, id: nat, a: Answers, k: nat)
    requires Pursuable(s, k) && Leased(s, w, id, PaymentValue, k)
    ensures ValueTurned(s, Turn(s, w, id, a), id, k, a)
  {
    if s.orders[k].state == OperationallyClosed {
      ClosedTurnAt(s, w, id, a, k);
    } else if a.settlement == LegFinal {
      FinalTurnAt(s, w, id, a, k);
    } else {
      NotedTurnAt(s, w, id, a, k);
    }
  }

  /** The turn on a waiting value event, in every run. */
  lemma {:induction false} ValueTurn(now: int, sandbox: bool, steps: seq<Step>, w: Worker, id: nat, a: Answers, k: nat)
    requires Leased(Run(Start(now, sandbox), steps), w, id, PaymentValue, k)
    ensures
      var s := Run(Start(now, sandbox), steps);
      ValueTurned(s, Turn(s, w, id, a), id, k, a)
  {
    Reachable(now, sandbox, steps);
    SagaCountersMatchOrders(now, sandbox, steps);
    ValueTurnAt(Run(Start(now, sandbox), steps), w, id, a, k);
  }

  // ----- cancellation -----

  /** The row of a cancelled order: what was RESERVED is released. */
  predicate CancelledAs(o: Order, p: Order) {
    && MovedOn(o.reservations, p.reservations, (_: nat) => Released)
    && p == o.(state := OperationallyClosedUnsuccessful, outcome := Some(Cancelled), closedWith := Some(Cancelled),
               version := p.version, facts := p.facts, reservations := p.reservations,
                 cancellations := [CancelAccepted])
  }

  /** What a granted cancellation comes to: an open order ends, unless it overdraws its scope; a closed one stays. */
  predicate GrantTurned(s: State, t: State, id: nat, k: nat)
    requires id < |s.events| && k < |s.orders|
  {
    var o := s.orders[k];
    if o.state == OperationallyClosed then
      k < |t.orders| && Wrote(s, t, id, k, o.(facts := t.orders[k].facts), [])
    else if o.state != OperationallyClosedUnsuccessful && !Overdrawn(s.Desk(), o) then
      k < |t.orders| && CancelledAs(o, t.orders[k]) && Wrote(s, t, id, k, t.orders[k], [])
    else Raised(s, t, id)
  }

  /** What the turn on a request for cancellation comes to. */
  predicate CancellationTurned(s: State, t: State, id: nat, k: nat, a: Answers)
    requires id < |s.events| && k < |s.orders|
  {
    var o := s.orders[k];
    && o.cancellations == [CancelRequested]
    && (id in t.ran ==>
          k < |t.orders| && OneFact(o.facts, t.orders[k].facts, Cancellation, Numbered("can_", 0)))
    && match a.cancel
       case CancelGranted => GrantTurned(s, t, id, k)
       case CancelDenied =>
         k < |t.orders|
         && Wrote(s, t, id, k, o.(cancellations := [CancelRejected], facts := t.orders[k].facts), [])
       case CancelUndecided => Raised(s, t, id)
       case CancelOther => k < |t.orders| && Wrote(s, t, id, k, o.(facts := t.orders[k].facts), [])
  }

  lemma RequestWaits(s: State, id: nat, k: nat)
    requires Pursuable(s, k) && Waiting(s, id, PaymentCancellation, k)
    ensures s.events[id].item == 0 && s.orders[k].cancellations == [CancelRequested]
  {
    CancellationWaits(s, id, k);
    assert Sound(s.orders[k], HistoryOf(s, k), AllReservationStates());
    UnansweredRequest(s.orders[k], HistoryOf(s, k));
  }

  lemma UnansweredRequest(o: Order, h: History)
    requires Sound(o, h, AllReservationStates()) && h.cancelQueued && !h.cancelHandled
    ensures o.cancellations == [CancelRequested]
  {
    assert o.cancellations == [o.cancellations[0]];
    if o.cancellations[0] == CancelAccepted {
      assert false;
    }
  }

  lemma NotedRequest(o: Order)
    ensures
      var p := AppendFact(o, Cancellation, Numbered("can_", 0));
      p == o.(facts := p.facts) && OneFact(o.facts, p.facts, Cancellation, Numbered("can_", 0))
  {
  }

  lemma RefusedAnswers(o: Order, a: Answers)
    requires o.cancellations == [CancelRequested] && a.cancel != CancelGranted
    ensures
      var r := CancellationHandler(o, 0, a);
      if a.cancel == CancelUndecided then r.Err?
      else
        && r.Ok? && r.value.enqueued == [] && StaysAsItEnds(o, r.value.order)
        && OneFact(o.facts, r.value.order.facts, Cancellation, Numbered("can_", 0))
        && r.value.order == o.(facts := r.value.order.facts,
                               cancellations := [if a.cancel == CancelDenied then CancelRejected else CancelRequested])
  {
    NotedRequest(o);
  }

  lemma ClosedGrant(o: Order, a: Answers)
    requires o.cancellations == [CancelRequested] && a.cancel == CancelGranted && o.leg.state == LegFinal
    ensures
      var r := CancellationHandler(o, 0, a);
      && r.Ok? && r.value.enqueued == [] && StaysAsItEnds(o, r.value.order)
      && OneFact(o.facts, r.value.order.facts, Cancellation, Numbered("can_", 0))
      && r.value.order == o.(facts := r.value.order.facts)
  {
    NotedRequest(o);
  }

  lemma EndedGrant(o: Order, a: Answers)
    requires o.cancellations == [CancelRequested] && a.cancel == CancelGranted && o.leg.state != LegFinal
    requires o.state == OperationallyClosedUnsuccessful
    ensures CancellationHandler(o, 0, a).Err?
  {
    var o1 := AppendFact(o, Cancellation, Numbered("can_", 0));
    if AcceptCancellation(o1, 0).Ok? {
      AcceptanceWrites(o1, 0);
    }
  }

  lemma OpenGrant(o: Order, a: Answers)
    requires o.cancellations == [CancelRequested] && a.cancel == CancelGranted && o.leg.state != LegFinal
    requires CommittedState(o.state) && !Terminal(o.state)
    ensures
      var r := CancellationHandler(o, 0, a);
      && r.Ok? && r.value.enqueued == [] && CancelledAs(o, r.value.order)
      && OneFact(o.facts, r.value.order.facts, Cancellation, Numbered("can_", 0))
  {
    var o1 := AppendFact(o, Cancellation, Numbered("can_", 0));
    NotedRequest(o);
    GrantedAcceptance(o1);
    AcceptanceWrites(o1, 0);
    assert o1.cancellations[0 := CancelAccepted] == [CancelAccepted];
    MovedInRows(o1, AcceptCancellation(o1, 0).value, ToReleased());
    ReleasedInRows(o.reservations, AcceptCancellation(o1, 0).value.reservations);
  }

  lemma ReleasedInRows(before: seq<Reservation>, after: seq<Reservation>)
    requires MovedOn(before, after, ToReleased())
    ensures MovedOn(before, after, (_: nat) => Released)
  {
  }

  lemma RefusalTurnAt(s: State, w: Worker, id: nat, a: Answers, k: nat)
    requires Pursuable(s, k) && Leased(s, w, id, PaymentCancellation, k) && a.cancel != CancelGranted
    ensures CancellationTurned(s, Turn(s, w, id, a), id, k, a)
  {
    RequestWaits(s, id, k);
    CancellationDispatch(s, id, a, k);
    RefusedAnswers(s.orders[k], a);
    var r := CancellationHandler(s.orders[k], 0, a);
    if r.Err? {
      OutcomeIsRefused(s, w, id, PaymentCancellation, a, k);
    } else {
      QuietTurnWrites(s, w, id, PaymentCancellation, a, k, r.value.order);
    }
  }

  lemma OpenGrantTurnAt(s: State, w: Worker, id: nat, a: Answers, k: nat)
    requires Pursuable(s, k) && Leased(s, w, id, PaymentCancellation, k) && a.cancel == CancelGranted
    requires !Terminal(s.orders[k].state)
    ensures CancellationTurned(s, Turn(s, w, id, a), id, k, a)
  {
    RequestWaits(s, id, k);
    CancellationDispatch(s, id, a, k);
    ValueLegs(s, k);
    assert Sound(s.orders[k], HistoryOf(s, k), AllReservationStates());
    OpenGrant(s.orders[k], a);
    EndingTurnWrites(s, w, id, PaymentCancellation, a, k, CancellationHandler(s.orders[k], 0, a).value.order);
  }

  lemma LateGrantTurnAt(s: State, w: Worker, id: nat, a: Answers, k: nat)
    requires Pursuable(s, k) && Leased(s, w, id, PaymentCancellation, k) && a.cancel == CancelGranted
    requires Terminal(s.orders[k].state)
    ensures CancellationTurned(s, Turn(s, w, id, a), id, k, a)
  {
    RequestWaits(s, id, k);
    CancellationDispatch(s, id, a, k);
    ValueLegs(s, k);
    if s.orders[k].state == OperationallyClosed {
      ClosedGrant(s.orders[k], a);
      QuietTurnWrites(s, w, id, PaymentCancellation, a, k, CancellationHandler(s.orders[k], 0, a).value.order);
    } else {
      EndedGrant(s.orders[k], a);
      OutcomeIsRefused(s, w, id, PaymentCancellation, a, k);
    }
  }

  /** The turn on a waiting request for cancellation, in every run. */
  lemma {:induction false} CancellationTurn(now: int, sandbox: bool, steps: seq<Step>, w: Worker, id: nat, a: Answers,
                                            k: nat)
    requires Leased(Run(Start(now, sandbox), steps), w, id, PaymentCancellation, k)
    ensures
      var s := Run(Start(now, sandbox), steps);
      CancellationTurned(s, Turn(s, w, id, a), id, k, a)
  {
    Reachable(now, sandbox, steps);
    SagaCountersMatchOrders(now, sandbox, steps);
    var s := Run(Start(now, sandbox), steps);
    if a.cancel != CancelGranted {
      RefusalTurnAt(s, w, id, a, k);
    } else if Terminal(s.orders[k].state) {
      LateGrantTurnAt(s, w, id, a, k);
    } else {
      OpenGrantTurnAt(s, w, id, a, k);
    }
  }
}

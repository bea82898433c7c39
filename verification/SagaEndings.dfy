/** An ending is final: what no continuation of any run takes back once an order is in a terminal state. */
module SagaEndings {
  import opened Results
  import opened Orders
  import opened Outbox
  import opened Handlers
  import opened Saga
  import opened SagaInvariant
  import opened SagaSteps
  import opened SagaTables
  import opened SagaSafety

  /** The rows any ending fixes for good. */
  predicate SameEnding(a: Order, b: Order) {
    && a.state == b.state && a.outcome == b.outcome && a.version == b.version && a.credits == b.credits
    && a.amount == b.amount && a.sameCurrency == b.sameCurrency
  }

  /** The rows a successful close fixes besides. */
  predicate SameSettlement(a: Order, b: Order) {
    && a.leg == b.leg && a.fxLegs == b.fxLegs && a.reconciliations == b.reconciliations
    && (a.sameCurrency ==> a.authorizations == b.authorizations && a.compliances == b.compliances)
  }

  /** A reservation that has moved never moves again; rows are only added. */
  predicate SameReservations(a: Order, b: Order) {
    && |a.reservations| <= |b.reservations|
    && forall i :: 0 <= i < |a.reservations| && |a.reservations[i].trail| > 1 ==> b.reservations[i] == a.reservations[i]
  }

  predicate EndingKept(a: Order, b: Order) {
    && SameEnding(a, b) && SameReservations(a, b)
    && (a.state == OperationallyClosed ==> SameSettlement(a, b))
  }

  // ----- handlers of an ended order -----

  lemma CreatedAfterEnding(o: Order, sandbox: bool, a: Answers)
    requires Terminal(o.state) && (o.sameCurrency ==> o.intents == []) && PaymentCreatedHandler(o, sandbox, a).Ok?
    ensures EndingKept(o, PaymentCreatedHandler(o, sandbox, a).value.order)
  {
    var authorized := Authorized(o, sandbox, a);
    var o1 := NoteAuthorization(o, authorized);
    var o2 := NoteCompliance(o1);
    assert o1.state == o.state && o2.state == o.state && o2.intents == o.intents;
    TerminalStaysPut(o1, Suspended, Some(Rejected));
    TerminalStaysPut(o2, ComplianceRejected, Some(Rejected));
    TerminalStaysPut(o2, ReservationPending, None);
    TerminalStaysPut(o2, FxAcceptancePending, None);
  }

  lemma ProceedingAfterEnding(o: Order, intent: Option<nat>, queued: bool)
    requires Terminal(o.state) && Proceed(o, intent, queued).Ok?
    ensures Proceed(o, intent, queued).value.order == o
  {
    if intent.Some? && intent.value < |o.intents| {
      var ready := o.intents[intent.value].(state := ReadyToAccept);
      TerminalStaysPut(o.(intents := o.intents[intent.value := ready]), FxAcceptancePending, None);
    }
  }

  lemma FundingAfterEnding(o: Order, item: nat, a: Answers, queued: bool)
    requires Terminal(o.state) && FundingHandler(o, item, a, queued).Ok?
    requires item < |o.reservations| ==> |o.reservations[item].trail| == 1
    ensures EndingKept(o, FundingHandler(o, item, a, queued).value.order)
  {
    if o.reservations[item].state != Reserved {
      TryingWrites(o, item, a);
      if AllReserved(TryReserve(o, item, a), o.reservations[item].intent) {
        ProceedingAfterEnding(TryReserve(o, item, a), o.reservations[item].intent, queued);
      }
    }
  }

  lemma TradeAfterEnding(o: Order, x: nat, a: Answers)
    requires Terminal(o.state) && TradeHandler(o, x, a).Ok?
    ensures TradeHandler(o, x, a).value.order == o
  {
    TerminalStaysPut(o.(intents := o.intents[x := o.intents[x].(state := a.trade)]), FxAccepted, None);
  }

  lemma SettlementAfterEnding(o: Order, i: nat, a: Answers, queued: bool)
    requires Terminal(o.state) && SettlementHandler(o, i, a, queued).Ok?
    requires o.state == OperationallyClosed ==> FxLegsFinal(o)
    ensures EndingKept(o, SettlementHandler(o, i, a, queued).value.order)
  {
  }

  lemma MessageAfterEnding(o: Order, a: Answers, queued: bool)
    requires Terminal(o.state)
    ensures MessageHandler(o, a, queued).Err?
  {
    var noted := AppendFact(o, Message, "payment-message");
    TerminalStaysPut(noted, Suspended, None);
    TerminalStaysPut(noted, MessageDelivered, None);
  }

  lemma ValueAfterEnding(o: Order, a: Answers)
    requires Terminal(o.state) && (o.leg.state == LegFinal <==> o.state == OperationallyClosed)
             && ValueHandler(o, a).Ok?
    ensures EndingKept(o, ValueHandler(o, a).value.order)
  {
    TerminalStaysPut(SubmitValue(o, a), ValueSettlement, None);
  }

  lemma CancellationAfterEnding(o: Order, item: nat, a: Answers)
    requires Terminal(o.state) && CancellationHandler(o, item, a).Ok?
    ensures EndingKept(o, CancellationHandler(o, item, a).value.order)
  {
    var o1 := AppendFact(o, Cancellation, Numbered("can_", item));
    if a.cancel == CancelGranted && o1.leg.state != LegFinal {
      AcceptanceWrites(o1, item);
    }
  }

  // ----- steps -----

  lemma ClosedLegsAreFinal(o: Order, h: History, answers: set<ReservationState>)
    requires Sound(o, h, answers) && o.state == OperationallyClosed
    ensures FxLegsFinal(o)
  {
  }

  lemma UnfundedTrail(o: Order, h: History, answers: set<ReservationState>, item: nat)
    requires Sound(o, h, answers) && item !in h.funded && item < |o.reservations|
    ensures |o.reservations[item].trail| == 1
  {
  }

  lemma DispatchAfterEnding(s: State, id: nat, a: Answers, answers: set<ReservationState>, k: nat)
    requires Inv(s, answers) && id < |s.events| && id !in s.ran && k == s.events[id].aggregate.order
    requires Terminal(s.orders[k].state) && Dispatch(s, s.events[id], a).Ok?
    ensures EndingKept(s.orders[k], Dispatch(s, s.events[id], a).value.order)
  {
    var e, o := s.events[id], s.orders[k];
    HistoryBefore(s, id);
    assert Sound(o, HistoryOf(s, k), answers);
    match e.topic
    case PaymentCreated => CreatedAfterEnding(o, s.sandbox, a);
    case FundingReserve =>
      if e.item < |o.reservations| {
        UnfundedTrail(o, HistoryOf(s, k), answers, e.item);
      }
      FundingAfterEnding(o, e.item, a, Queued(s.events, PaymentMessage, OrderKey(k)));
    case FxAccept => TradeAfterEnding(o, e.item, a);
    case SettlementSubmit =>
      if o.state == OperationallyClosed {
        ClosedLegsAreFinal(o, HistoryOf(s, k), answers);
      }
      SettlementAfterEnding(o, e.item, a, Queued(s.events, PaymentMessage, OrderKey(k)));
    case PaymentMessage => MessageAfterEnding(o, a, Queued(s.events, PaymentValue, OrderKey(k)));
    case PaymentValue => ValueAfterEnding(o, a);
    case PaymentCancellation => CancellationAfterEnding(o, e.item, a);
  }

  lemma RequestAfterEnding(s: State, step: Step, j: nat, after: Order)
    requires j < |s.orders| && Terminal(s.orders[j].state) && Asks(s, step, j, after)
    ensures EndingKept(s.orders[j], after)
  {
  }

  lemma StepAfterEnding(s: State, step: Step, answers: set<ReservationState>, j: nat)
    requires Inv(s, answers) && j < |s.orders| && Terminal(s.orders[j].state)
    ensures j < |Apply(s, step).orders| && EndingKept(s.orders[j], Apply(s, step).orders[j])
  {
    StepOnOrder(s, step, j);
    var after := Apply(s, step).orders[j];
    if Asks(s, step, j, after) {
      RequestAfterEnding(s, step, j, after);
    } else if after != s.orders[j] {
      DispatchAfterEnding(s, step.event, step.answers, answers, j);
    }
  }

  lemma EndingKeptOn(a: Order, b: Order, c: Order)
    requires EndingKept(a, b) && EndingKept(b, c)
    ensures EndingKept(a, c)
  {
  }

  lemma StepAfterRun(ended: Order, u: State, step: Step, j: nat)
    requires Inv(u, AllReservationStates()) && Terminal(ended.state) && j < |u.orders| && EndingKept(ended, u.orders[j])
    ensures j < |Apply(u, step).orders| && EndingKept(ended, Apply(u, step).orders[j])
  {
    StepAfterEnding(u, step, AllReservationStates(), j);
    EndingKeptOn(ended, u.orders[j], Apply(u, step).orders[j]);
  }

  lemma {:induction false} RunAfterEnding(now: int, sandbox: bool, before: seq<Step>, later: seq<Step>, j: nat)
    requires j < |Run(Start(now, sandbox), before).orders|
    requires Terminal(Run(Start(now, sandbox), before).orders[j].state)
    ensures
      var s, t := Run(Start(now, sandbox), before), Run(Start(now, sandbox), before + later);
      j < |t.orders| && EndingKept(s.orders[j], t.orders[j])
    decreases |later|
  {
    if later == [] {
      assert before + later == before;
    } else {
      var n := |later| - 1;
      RunAfterEnding(now, sandbox, before, later[..n], j);
      Reachable(now, sandbox, before + later[..n]);
      OneStepMore(Start(now, sandbox), before, later);
      StepAfterRun(Run(Start(now, sandbox), before).orders[j], Run(Start(now, sandbox), before + later[..n]), later[n],
                   j);
    }
  }

  lemma ClosedReservation(now: int, sandbox: bool, steps: seq<Step>, j: nat)
    requires j < |Run(Start(now, sandbox), steps).orders|
    ensures
      var o := Run(Start(now, sandbox), steps).orders[j];
      o.state == OperationallyClosed && o.sameCurrency ==> |o.reservations| == 1 && |o.reservations[0].trail| == 3
  {
    Reachable(now, sandbox, steps);
    var t := Run(Start(now, sandbox), steps);
    assert Sound(t.orders[j], HistoryOf(t, j), AllReservationStates());
  }

  predicate ReservationsFrozen(a: Order, b: Order) {
    a.state == OperationallyClosed && a.sameCurrency ==> b.reservations == a.reservations
  }

  lemma ClosedReservationsStay(a: Order, b: Order)
    requires EndingKept(a, b)
    requires a.state == OperationallyClosed && a.sameCurrency ==>
               |a.reservations| == 1 && |a.reservations[0].trail| == 3
    requires b.state == OperationallyClosed && b.sameCurrency ==> |b.reservations| == 1
    ensures ReservationsFrozen(a, b)
  {
  }

  /** An order that has ended stays ended. No continuation of any run moves its state, outcome, version or credits, or a
      reservation that has been tried; after a successful close its legs and reconciliations stay as they are too,
      and in one currency so do its controls and every reservation. */
  lemma {:induction false} EndingsAreFinal(now: int, sandbox: bool, before: seq<Step>, later: seq<Step>, j: nat)
    requires j < |Run(Start(now, sandbox), before).orders|
    requires Terminal(Run(Start(now, sandbox), before).orders[j].state)
    ensures
      var s, t := Run(Start(now, sandbox), before), Run(Start(now, sandbox), before + later);
      j < |t.orders| && EndingKept(s.orders[j], t.orders[j]) && ReservationsFrozen(s.orders[j], t.orders[j])
  {
    RunAfterEnding(now, sandbox, before, later, j);
    ClosedReservation(now, sandbox, before, j);
    ClosedReservation(now, sandbox, before + later, j);
    ClosedReservationsStay(Run(Start(now, sandbox), before).orders[j],
                           Run(Start(now, sandbox), before + later).orders[j]);
  }
}

/** Requests for cancellation over whole runs: each order is asked at most once, and its answer is final. */
module SagaCancellation {
  import opened Results
  import opened Orders
  import opened Outbox
  import opened Handlers
  import opened Saga
  import opened SagaInvariant
  import opened SagaSteps
  import opened SagaTables
  import opened SagaSafety
  import opened SagaLimits

  /** In every run an order has at most one request, and has one exactly when its cancellation event exists. */
  lemma {:induction false} AskedAtMostOnce(now: int, sandbox: bool, steps: seq<Step>, j: nat)
    requires j < |Run(Start(now, sandbox), steps).orders|
    ensures
      var s := Run(Start(now, sandbox), steps);
      && |s.orders[j].cancellations| <= 1
      && (s.orders[j].cancellations != [] <==> Enqueued(s.events, PaymentCancellation, OrderKey(j)))
  {
    Reachable(now, sandbox, steps);
    var s := Run(Start(now, sandbox), steps);
    assert Sound(s.orders[j], HistoryOf(s, j), AllReservationStates());
  }

  lemma RequestsAt(s: State, k: nat)
    ensures RequestCancel(s, k).Ok? <==>
            k < |s.orders| && !Terminal(s.orders[k].state) && !Enqueued(s.events, PaymentCancellation, OrderKey(k))
  {
  }

  /** In every run a request for cancellation is accepted if and only if the order exists, is open and was never asked
      before: the event of a second request meets the unique key of the first. */
  lemma {:induction false} RequestAcceptedExactlyWhen(now: int, sandbox: bool, steps: seq<Step>, k: nat)
    ensures
      var s := Run(Start(now, sandbox), steps);
      RequestCancel(s, k).Ok? <==>
      k < |s.orders| && !Terminal(s.orders[k].state) && s.orders[k].cancellations == []
  {
    var s := Run(Start(now, sandbox), steps);
    RequestsAt(s, k);
    if k < |s.orders| {
      AskedAtMostOnce(now, sandbox, steps, k);
    }
  }

  /** In every run a request is waiting, accepted or rejected. */
  lemma {:induction false} RequestsWaitOrAreAnswered(now: int, sandbox: bool, steps: seq<Step>, j: nat)
    requires j < |Run(Start(now, sandbox), steps).orders|
    ensures
      var o := Run(Start(now, sandbox), steps).orders[j];
      forall c :: c in o.cancellations ==> Answerable(c)
  {
    Reachable(now, sandbox, steps);
    var s := Run(Start(now, sandbox), steps);
    AnswerableAt(s, j);
  }

  lemma AnswerableAt(s: State, j: nat)
    requires Inv(s, AllReservationStates()) && j < |s.orders|
    ensures forall c :: c in s.orders[j].cancellations ==> Answerable(c)
  {
    assert Sound(s.orders[j], HistoryOf(s, j), AllReservationStates());
    OnlyAnswerable(s.orders[j], HistoryOf(s, j));
  }

  lemma OnlyAnswerable(o: Order, h: History)
    requires Asked(o, h)
    ensures forall c :: c in o.cancellations ==> Answerable(c)
  {
    if o.cancellations != [] {
      assert o.cancellations == [o.cancellations[0]];
    }
  }

  lemma UndecidedRaises(o: Order, a: Answers, h: History)
    requires Asked(o, h) && h.cancelQueued && a.cancel == CancelUndecided
    ensures CancellationHandler(o, 0, a).Err?
  {
    UndecidedIsRefused(AppendFact(o, Cancellation, Numbered("can_", 0)), h);
  }

  lemma UndecidedRaisesAt(s: State, id: nat, a: Answers, k: nat)
    requires Inv(s, AllReservationStates()) && Waiting(s, id, PaymentCancellation, k) && k < |s.orders|
    requires a.cancel == CancelUndecided
    ensures CancellationHandler(s.orders[k], 0, a).Err? && s.events[id].item == 0
  {
    CancellationWaits(s, id, k);
    assert Sound(s.orders[k], HistoryOf(s, k), AllReservationStates());
    UndecidedRaises(s.orders[k], a, HistoryOf(s, k));
  }

  /** And an undecided answer is never recorded: its handler always raises, so that the event is retried, and
      dead-lettered in the end. */
  lemma {:induction false} UndecidedAnswersRaise(now: int, sandbox: bool, steps: seq<Step>, id: nat, a: Answers, k: nat)
    requires Waiting(Run(Start(now, sandbox), steps), id, PaymentCancellation, k)
    requires k < |Run(Start(now, sandbox), steps).orders| && a.cancel == CancelUndecided
    ensures Handle(Run(Start(now, sandbox), steps), id, a).Err?
  {
    Reachable(now, sandbox, steps);
    var s := Run(Start(now, sandbox), steps);
    UndecidedRaisesAt(s, id, a, k);
    CancellationDispatch(s, id, a, k);
    HandleIsAbsorb(s, id, a, k);
  }

  // ----- an answer is final -----

  lemma CreatedKeepsRequests(o: Order, sandbox: bool, a: Answers)
    requires PaymentCreatedHandler(o, sandbox, a).Ok?
    ensures PaymentCreatedHandler(o, sandbox, a).value.order.cancellations == o.cancellations
  {
    var authorized := Authorized(o, sandbox, a);
    var o1 := NoteAuthorization(o, authorized);
    if !authorized {
      TransitionShape(o1, Suspended, Some(Rejected));
    } else if ScreenedOut(o1) {
      ScreenOutKeepsRequests(NoteCompliance(o1));
    } else {
      AfterScreeningKeepsRequests(NoteCompliance(o1));
    }
  }

  lemma ScreenOutKeepsRequests(o: Order)
    requires ScreenOut(o).Ok?
    ensures ScreenOut(o).value.order.cancellations == o.cancellations
  {
    TransitionShape(o, ComplianceRejected, Some(Rejected));
    TransitionShape(Transition(o, ComplianceRejected, Some(Rejected)).value, OperationallyClosedUnsuccessful,
                    Some(Rejected));
  }

  lemma AfterScreeningKeepsRequests(o: Order)
    requires AfterScreening(o).Ok?
    ensures AfterScreening(o).value.order.cancellations == o.cancellations
  {
  }

  lemma FundingKeepsRequests(o: Order, item: nat, a: Answers, queued: bool)
    requires FundingHandler(o, item, a, queued).Ok?
    ensures FundingHandler(o, item, a, queued).value.order.cancellations == o.cancellations
  {
  }

  lemma TradeKeepsRequests(o: Order, x: nat, a: Answers)
    requires TradeHandler(o, x, a).Ok?
    ensures TradeHandler(o, x, a).value.order.cancellations == o.cancellations
  {
  }

  lemma MessageKeepsRequests(o: Order, a: Answers, queued: bool)
    requires MessageHandler(o, a, queued).Ok?
    ensures MessageHandler(o, a, queued).value.order.cancellations == o.cancellations
  {
  }

  lemma CompletionKeepsRequests(o: Order, a: Answers)
    requires CompletePayment(o, a).Ok?
    ensures CompletePayment(o, a).value.cancellations == o.cancellations
  {
    MoveIsPointwise(o, 0, a.consume, true);
    TransitionShape(CreditBeneficiary(MoveReserved(o, 0, a.consume, true)), CustomerCompleted, Some(Completed));
    TransitionShape(CompleteCustomer(o, a).value, OperationallyClosed, Some(Completed));
  }

  lemma ValueKeepsRequests(o: Order, a: Answers)
    requires ValueHandler(o, a).Ok?
    ensures ValueHandler(o, a).value.order.cancellations == o.cancellations
  {
    if o.leg.state != LegFinal && a.settlement == LegFinal {
      TransitionShape(SubmitValue(o, a), ValueSettlement, None);
      CompletionKeepsRequests(Transition(SubmitValue(o, a), ValueSettlement, None).value, a);
    }
  }

  /** Only the handler of the cancellation event answers. */
  lemma OthersKeepRequests(s: State, e: Event, a: Answers)
    requires e.aggregate.order < |s.orders| && e.topic != PaymentCancellation && Dispatch(s, e, a).Ok?
    ensures Dispatch(s, e, a).value.order.cancellations == s.orders[e.aggregate.order].cancellations
  {
    var k := e.aggregate.order;
    var o := s.orders[k];
    match e.topic
    case PaymentCreated => CreatedKeepsRequests(o, s.sandbox, a);
    case FundingReserve => FundingKeepsRequests(o, e.item, a, Queued(s.events, PaymentMessage, OrderKey(k)));
    case FxAccept => TradeKeepsRequests(o, e.item, a);
    case SettlementSubmit =>
    case PaymentMessage => MessageKeepsRequests(o, a, Queued(s.events, PaymentValue, OrderKey(k)));
    case PaymentValue => ValueKeepsRequests(o, a);
    case _ =>
  }

  predicate Answered(o: Order) {
    o.cancellations != [] && o.cancellations[0] != CancelRequested
  }

  lemma AnsweredIsHandled(s: State, j: nat, answers: set<ReservationState>)
    requires Inv(s, answers) && j < |s.orders| && Answered(s.orders[j])
    ensures Handled(s, PaymentCancellation, OrderKey(j)) && Enqueued(s.events, PaymentCancellation, OrderKey(j))
  {
    assert Sound(s.orders[j], HistoryOf(s, j), answers);
  }

  lemma HandlersKeepAnswers(s: State, id: nat, a: Answers, answers: set<ReservationState>, j: nat, after: Order)
    requires Inv(s, answers) && j < |s.orders| && Answered(s.orders[j]) && Handles(s, id, a, j, after)
    ensures after.cancellations == s.orders[j].cancellations
  {
    AnsweredIsHandled(s, j, answers);
    FreshMeansUnhandled(s, id);
    assert WellKeyed(s.events[id]);
    OthersKeepRequests(s, s.events[id], a);
  }

  lemma RequestsKeepAnswers(s: State, step: Step, answers: set<ReservationState>, j: nat, after: Order)
    requires Inv(s, answers) && j < |s.orders| && Answered(s.orders[j]) && Asks(s, step, j, after)
    ensures after.cancellations == s.orders[j].cancellations
  {
    AnsweredIsHandled(s, j, answers);
    RequestsAt(s, j);
  }

  lemma StepKeepsAnswers(s: State, step: Step, answers: set<ReservationState>, j: nat)
    requires Inv(s, answers) && j < |s.orders| && Answered(s.orders[j])
    ensures j < |Apply(s, step).orders| && Apply(s, step).orders[j].cancellations == s.orders[j].cancellations
  {
    StepOnOrder(s, step, j);
    var after := Apply(s, step).orders[j];
    if Asks(s, step, j, after) {
      RequestsKeepAnswers(s, step, answers, j, after);
    } else if after != s.orders[j] {
      HandlersKeepAnswers(s, step.event, step.answers, answers, j, after);
    }
  }

  /** The answer to a request never changes in any continuation of the run. */
  lemma {:induction false} AnswersAreFinal(now: int, sandbox: bool, before: seq<Step>, later: seq<Step>, j: nat)
    requires j < |Run(Start(now, sandbox), before).orders| && Answered(Run(Start(now, sandbox), before).orders[j])
    ensures
      var s, t := Run(Start(now, sandbox), before), Run(Start(now, sandbox), before + later);
      j < |t.orders| && t.orders[j].cancellations == s.orders[j].cancellations
    decreases |later|
  {
    if later == [] {
      assert before + later == before;
    } else {
      var n := |later| - 1;
      AnswersAreFinal(now, sandbox, before, later[..n], j);
      OneStepMore(Start(now, sandbox), before, later);
      Reachable(now, sandbox, before + later[..n]);
      StepKeepsAnswers(Run(Start(now, sandbox), before + later[..n]), later[n], AllReservationStates(), j);
    }
  }

  predicate Denied(o: Order) {
    o.cancellations == [CancelRejected] || o.cancellations == [CancelUnknown]
  }

  lemma DeniedNow(now: int, sandbox: bool, steps: seq<Step>, j: nat)
    requires j < |Run(Start(now, sandbox), steps).orders| && Denied(Run(Start(now, sandbox), steps).orders[j])
    ensures
      var t := Run(Start(now, sandbox), steps);
      RequestCancel(t, j).Err? && t.orders[j].outcome != Some(Cancelled)
  {
    Reachable(now, sandbox, steps);
    var t := Run(Start(now, sandbox), steps);
    RequestAcceptedExactlyWhen(now, sandbox, steps, j);
    assert Sound(t.orders[j], HistoryOf(t, j), AllReservationStates());
  }

  lemma DenialIsTheOnlyAnswer(o: Order)
    requires |o.cancellations| <= 1 && (CancelRejected in o.cancellations || CancelUnknown in o.cancellations)
    ensures Denied(o) && Answered(o)
  {
  }

  /** An order whose first request was answered REJECTED or UNKNOWN can never be cancelled by request: whatever
      follows, the answer stands, every further request is refused and the order does not end as CANCELLED. */
  lemma {:induction false} DeniedOrdersAreNeverCancelled(now: int, sandbox: bool, before: seq<Step>, later: seq<Step>,
                                                         j: nat)
    requires j < |Run(Start(now, sandbox), before).orders|
    requires
      var o := Run(Start(now, sandbox), before).orders[j];
      CancelRejected in o.cancellations || CancelUnknown in o.cancellations
    ensures
      var t := Run(Start(now, sandbox), before + later);
      && j < |t.orders| && RequestCancel(t, j).Err?
      && Denied(t.orders[j]) && t.orders[j].outcome != Some(Cancelled)
  {
    AskedAtMostOnce(now, sandbox, before, j);
    DenialIsTheOnlyAnswer(Run(Start(now, sandbox), before).orders[j]);
    AnswersAreFinal(now, sandbox, before, later, j);
    DeniedNow(now, sandbox, before + later, j);
  }
}

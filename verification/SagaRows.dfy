/** The rows events speak of, over whole runs: every event has its row, an accepted trade was funded, and every value
    event follows a delivered message. */
module SagaRows {
  import opened Results
  import opened Orders
  import opened Outbox
  import opened Handlers
  import opened Saga
  import opened SagaInvariant
  import opened SagaSteps
  import opened SagaTables
  import opened SagaEvents
  import opened SagaSafety

  // ----- rows are only added -----

  /** Reservations keep their purpose and amount; new ones have a purpose of their own. */
  predicate ReservationsGrow(o: Order, p: Order) {
    && |o.reservations| <= |p.reservations|
    && (forall i :: 0 <= i < |o.reservations| ==>
          p.reservations[i].intent == o.reservations[i].intent && p.reservations[i].amount == o.reservations[i].amount)
    && (forall i :: |o.reservations| <= i < |p.reservations| && p.reservations[i].intent.Some? ==>
          p.reservations[i].intent.value >= |o.intents|)
  }

  predicate Grows(o: Order, p: Order) {
    ReservationsGrow(o, p) && |o.intents| <= |p.intents| && |o.fxLegs| <= |p.fxLegs|
  }

  lemma SameRowsGrow(o: Order, p: Order)
    requires p.reservations == o.reservations && p.intents == o.intents && p.fxLegs == o.fxLegs
    ensures Grows(o, p)
  {
  }

  lemma GrowsOnward(o: Order, p: Order, q: Order)
    requires Grows(o, p) && q.reservations == p.reservations && q.intents == p.intents && q.fxLegs == p.fxLegs
    ensures Grows(o, q)
  {
  }

  lemma CreatedGrows(o: Order, sandbox: bool, a: Answers)
    requires PaymentCreatedHandler(o, sandbox, a).Ok?
    ensures Grows(o, PaymentCreatedHandler(o, sandbox, a).value.order)
  {
    var authorized := Authorized(o, sandbox, a);
    var o1 := NoteAuthorization(o, authorized);
    assert Grows(o, o1) && o1.reservations == o.reservations && o1.intents == o.intents && o1.fxLegs == o.fxLegs;
    if authorized {
      ScreenGrows(o1);
    } else {
      TransitionShape(o1, Suspended, Some(Rejected));
    }
  }

  lemma ScreenGrows(o: Order)
    requires Screen(o).Ok?
    ensures Grows(o, Screen(o).value.order)
  {
    var o2 := NoteCompliance(o);
    assert o2.reservations == o.reservations && o2.intents == o.intents && o2.fxLegs == o.fxLegs;
    if ScreenedOut(o) {
      TransitionShape(o2, ComplianceRejected, Some(Rejected));
      TransitionShape(Transition(o2, ComplianceRejected, Some(Rejected)).value, OperationallyClosedUnsuccessful,
                      Some(Rejected));
    } else {
      AfterScreeningGrows(o2);
    }
  }

  lemma AfterScreeningGrows(o: Order)
    requires AfterScreening(o).Ok?
    ensures Grows(o, AfterScreening(o).value.order)
  {
  }

  lemma FundingGrows(o: Order, item: nat, a: Answers, queued: bool)
    requires FundingHandler(o, item, a, queued).Ok?
    ensures Grows(o, FundingHandler(o, item, a, queued).value.order)
  {
    if o.reservations[item].state != Reserved {
      var o1, intent := TryReserve(o, item, a), o.reservations[item].intent;
      TryingWrites(o, item, a);
      assert Grows(o, o1);
      if AllReserved(o1, intent) {
        ProceedingGrows(o1, intent, queued);
      }
    }
  }

  lemma ProceedingGrows(o: Order, intent: Option<nat>, queued: bool)
    requires Proceed(o, intent, queued).Ok?
    ensures
      var p := Proceed(o, intent, queued).value.order;
      p.reservations == o.reservations && |p.intents| == |o.intents| && p.fxLegs == o.fxLegs
  {
  }

  lemma TradeGrows(o: Order, x: nat, a: Answers)
    requires TradeHandler(o, x, a).Ok?
    ensures Grows(o, TradeHandler(o, x, a).value.order)
  {
  }

  lemma SettlementGrows(o: Order, i: nat, a: Answers, queued: bool)
    requires SettlementHandler(o, i, a, queued).Ok?
    ensures Grows(o, SettlementHandler(o, i, a, queued).value.order)
  {
  }

  lemma MessageGrows(o: Order, a: Answers, queued: bool)
    requires MessageHandler(o, a, queued).Ok?
    ensures Grows(o, MessageHandler(o, a, queued).value.order)
  {
    var noted := AppendFact(o, Message, "payment-message");
    SameRowsGrow(o, noted);
    TransitionShape(noted, if a.delivery == Undelivered then Suspended else MessageDelivered, None);
  }

  lemma CompletionGrows(o: Order, a: Answers)
    requires CompletePayment(o, a).Ok?
    ensures Grows(o, CompletePayment(o, a).value)
  {
    MoveIsPointwise(o, 0, a.consume, true);
    var credited := CreditBeneficiary(MoveReserved(o, 0, a.consume, true));
    MovedRowsGrow(o, credited, a);
    CompletionKeepsRows(o, credited, a);
    GrowsOnward(o, credited, CompletePayment(o, a).value);
  }

  lemma MovedRowsGrow(o: Order, p: Order, a: Answers)
    requires |p.reservations| == |o.reservations| && p.intents == o.intents && p.fxLegs == o.fxLegs
    requires forall j :: 0 <= j < |o.reservations| ==> p.reservations[j] == Moved(o, 0, j, a.consume)
    ensures Grows(o, p)
  {
  }

  lemma CompletionKeepsRows(o: Order, credited: Order, a: Answers)
    requires CompletePayment(o, a).Ok? && credited == CreditBeneficiary(MoveReserved(o, 0, a.consume, true))
    ensures
      var p := CompletePayment(o, a).value;
      p.reservations == credited.reservations && p.intents == credited.intents && p.fxLegs == credited.fxLegs
  {
    TransitionShape(credited, CustomerCompleted, Some(Completed));
    TransitionShape(CompleteCustomer(o, a).value, OperationallyClosed, Some(Completed));
  }

  lemma ValueGrows(o: Order, a: Answers)
    requires ValueHandler(o, a).Ok?
    ensures Grows(o, ValueHandler(o, a).value.order)
  {
    if o.leg.state != LegFinal && a.settlement == LegFinal {
      TransitionShape(SubmitValue(o, a), ValueSettlement, None);
      CompletionGrows(Transition(SubmitValue(o, a), ValueSettlement, None).value, a);
    }
  }

  lemma CancellationGrows(o: Order, item: nat, a: Answers)
    requires CancellationHandler(o, item, a).Ok?
    ensures Grows(o, CancellationHandler(o, item, a).value.order)
  {
    var o1 := AppendFact(o, Cancellation, Numbered("can_", item));
    if a.cancel == CancelGranted && o1.leg.state != LegFinal {
      AcceptanceWrites(o1, item);
    }
  }

  lemma DispatchGrows(s: State, e: Event, a: Answers)
    requires e.aggregate.order < |s.orders| && Dispatch(s, e, a).Ok?
    ensures Grows(s.orders[e.aggregate.order], Dispatch(s, e, a).value.order)
  {
    var k := e.aggregate.order;
    var o := s.orders[k];
    match e.topic
    case PaymentCreated => CreatedGrows(o, s.sandbox, a);
    case FundingReserve => FundingGrows(o, e.item, a, Queued(s.events, PaymentMessage, OrderKey(k)));
    case FxAccept => TradeGrows(o, e.item, a);
    case SettlementSubmit => SettlementGrows(o, e.item, a, Queued(s.events, PaymentMessage, OrderKey(k)));
    case PaymentMessage => MessageGrows(o, a, Queued(s.events, PaymentValue, OrderKey(k)));
    case PaymentValue => ValueGrows(o, a);
    case PaymentCancellation => CancellationGrows(o, e.item, a);
  }

  lemma RequestGrowsRows(s: State, step: Step, j: nat, after: Order)
    requires j < |s.orders| && Asks(s, step, j, after)
    ensures Grows(s.orders[j], after)
  {
  }

  lemma StepGrows(s: State, step: Step, j: nat)
    requires j < |s.orders|
    ensures j < |Apply(s, step).orders| && Grows(s.orders[j], Apply(s, step).orders[j])
  {
    StepOnOrder(s, step, j);
    var after := Apply(s, step).orders[j];
    if Asks(s, step, j, after) {
      RequestGrowsRows(s, step, j, after);
    } else if after != s.orders[j] {
      DispatchGrows(s, s.events[step.event], step.answers);
    } else {
      SameRowsGrow(s.orders[j], after);
    }
  }

  // ----- every event has its row -----

  predicate HasRow(o: Order, topic: Topic, item: nat) {
    && (topic == FundingReserve ==> item < |o.reservations|)
    && (topic == FxAccept ==> item < |o.intents|)
    && (topic == SettlementSubmit ==> item < |o.fxLegs|)
  }

  predicate RowsExist(s: State) {
    forall i :: 0 <= i < |s.events| ==>
                  var e := s.events[i];
                  e.aggregate.order < |s.orders| && HasRow(s.orders[e.aggregate.order], e.topic, e.item)
  }

  lemma FundingJobsHaveRows(o: Order, item: nat, a: Answers, queued: bool, job: Job)
    requires FundingHandler(o, item, a, queued).Ok? && job in FundingHandler(o, item, a, queued).value.enqueued
    ensures HasRow(FundingHandler(o, item, a, queued).value.order, job.topic, job.item)
  {
  }

  lemma ScreenJobsHaveRows(o: Order, job: Job)
    requires Screen(o).Ok? && job in Screen(o).value.enqueued
    ensures HasRow(Screen(o).value.order, job.topic, job.item)
  {
    if !ScreenedOut(o) {
      RequestedFundsHaveRows(NoteCompliance(o), job);
    }
  }

  lemma RequestedFundsHaveRows(o: Order, job: Job)
    requires AfterScreening(o).Ok? && job in AfterScreening(o).value.enqueued
    ensures HasRow(AfterScreening(o).value.order, job.topic, job.item)
  {
  }

  lemma CreatedJobsHaveRows(o: Order, sandbox: bool, a: Answers, job: Job)
    requires PaymentCreatedHandler(o, sandbox, a).Ok? && job in PaymentCreatedHandler(o, sandbox, a).value.enqueued
    ensures HasRow(PaymentCreatedHandler(o, sandbox, a).value.order, job.topic, job.item)
  {
    if Authorized(o, sandbox, a) {
      ScreenJobsHaveRows(NoteAuthorization(o, true), job);
    }
  }

  lemma TradeJobsHaveRows(o: Order, x: nat, a: Answers, job: Job)
    requires TradeHandler(o, x, a).Ok? && job in TradeHandler(o, x, a).value.enqueued
    ensures HasRow(TradeHandler(o, x, a).value.order, job.topic, job.item)
  {
  }

  lemma DispatchJobsHaveRows(s: State, e: Event, a: Answers, job: Job)
    requires e.aggregate.order < |s.orders| && Dispatch(s, e, a).Ok? && job in Dispatch(s, e, a).value.enqueued
    ensures HasRow(Dispatch(s, e, a).value.order, job.topic, job.item)
  {
    var k := e.aggregate.order;
    var o := s.orders[k];
    match e.topic
    case PaymentCreated => CreatedJobsHaveRows(o, s.sandbox, a, job);
    case FundingReserve => FundingJobsHaveRows(o, e.item, a, Queued(s.events, PaymentMessage, OrderKey(k)), job);
    case FxAccept => TradeJobsHaveRows(o, e.item, a, job);
    case _ =>
  }

  /** A committed turn writes its order as the handler leaves it. */
  lemma CommittedOrder(s: State, w: Worker, id: nat, a: Answers, raced: bool, fault: bool)
    requires Commits(s, w, id, a, raced, fault) && id !in s.inbox
    ensures
      var t, k := WorkOn(s, w, id, a, raced, fault), s.events[id].aggregate.order;
      && k < |s.orders| && Dispatch(s, s.events[id], a).Ok?
      && t.orders == s.orders[k := Dispatch(s, s.events[id], a).value.order]
      && t.Desk() == Handle(s, id, a).value.Desk() && t.ran == s.ran + [id]
  {
    TurnWrites(s, w, id, a, raced, fault);
    HandleWrites(s, id, a);
    HandleRuns(s, id, a);
  }

  lemma HandleRuns(s: State, id: nat, a: Answers)
    requires id < |s.events| && Handle(s, id, a).Ok?
    ensures Handle(s, id, a).value.ran == s.ran + [id]
  {
  }

  lemma WorkAddsRows(s: State, w: Worker, id: nat, a: Answers, raced: bool, fault: bool, j: nat)
    requires |s.events| <= j < |WorkOn(s, w, id, a, raced, fault).events|
    ensures
      var t := WorkOn(s, w, id, a, raced, fault);
      var e := t.events[j];
      e.aggregate.order < |t.orders| && HasRow(t.orders[e.aggregate.order], e.topic, e.item)
  {
    var e := WorkOn(s, w, id, a, raced, fault).events[j];
    WorkExtends(s, w, id, a, raced, fault);
    WorkAdds(s, w, id, a, raced, fault, j);
    CommittedOrder(s, w, id, a, raced, fault);
    DispatchJobsHaveRows(s, s.events[id], a, Job(e.topic, e.item));
  }

  lemma QuoteAddsRows(s: State, k: nat, quote: nat, sold: nat, bought: nat, usable: bool, j: nat)
    requires AcceptFxQuote(s, k, quote, sold, bought, usable).Ok?
    requires |s.events| <= j < |AcceptFxQuote(s, k, quote, sold, bought, usable).value.events|
    ensures
      var t := AcceptFxQuote(s, k, quote, sold, bought, usable).value;
      var e := t.events[j];
      e.aggregate.order < |t.orders| && HasRow(t.orders[e.aggregate.order], e.topic, e.item)
  {
    QuoteAdds(s, k, quote, sold, bought, usable);
    QuoteWrites(s, k, quote, sold, bought, usable);
  }

  lemma NewEventsHaveRows(s: State, step: Step, j: nat)
    requires |s.events| <= j < |Apply(s, step).events|
    ensures
      var t := Apply(s, step);
      var e := t.events[j];
      e.aggregate.order < |t.orders| && HasRow(t.orders[e.aggregate.order], e.topic, e.item)
  {
    match step
    case Work(w, id, a, raced, fault) => WorkAddsRows(s, w, id, a, raced, fault, j);
    case AcceptQuote(k, quote, sold, bought, usable) =>
      QuoteAddsRows(s, k, quote, sold, bought, usable, j);
    case _ => OtherStepsAddRows(s, step, j);
  }

  lemma OtherStepsAddRows(s: State, step: Step, j: nat)
    requires !step.Work? && !step.AcceptQuote? && |s.events| <= j < |Apply(s, step).events|
    ensures
      var t := Apply(s, step);
      var e := t.events[j];
      e.aggregate.order < |t.orders| && HasRow(t.orders[e.aggregate.order], e.topic, e.item)
  {
    StepAdds(s, step);
    assert Adds(s, step, Apply(s, step).events[j]);
  }

  lemma StepKeepsRows(s: State, step: Step)
    requires RowsExist(s)
    ensures RowsExist(Apply(s, step))
  {
    var t := Apply(s, step);
    StepAdds(s, step);
    forall i | 0 <= i < |t.events|
      ensures
        var e := t.events[i];
        e.aggregate.order < |t.orders| && HasRow(t.orders[e.aggregate.order], e.topic, e.item)
    {
      if i < |s.events| {
        assert SameIdentity(s.events[i], t.events[i]);
        StepGrows(s, step, s.events[i].aggregate.order);
      } else {
        NewEventsHaveRows(s, step, i);
      }
    }
  }

  lemma {:induction false} RunKeepsRows(now: int, sandbox: bool, steps: seq<Step>)
    ensures RowsExist(Run(Start(now, sandbox), steps))
    decreases |steps|
  {
    if steps != [] {
      var n := |steps| - 1;
      RunKeepsRows(now, sandbox, steps[..n]);
      StepKeepsRows(Run(Start(now, sandbox), steps[..n]), steps[n]);
    }
  }

  // ----- every event is the first of its partition -----

  /** Its partition is its aggregate and its sequence number 1. */
  predicate OwnPartition(e: Event) {
    e.partition == e.aggregate && e.sequence == 1
  }

  predicate OwnPartitions(events: seq<Event>) {
    forall i :: 0 <= i < |events| ==> OwnPartition(events[i])
  }

  /** In every run each event has a partition of its aggregate alone and the number 1 in it. */
  lemma {:induction false} RunKeepsPartitions(now: int, sandbox: bool, steps: seq<Step>)
    ensures OwnPartitions(Run(Start(now, sandbox), steps).events)
    decreases |steps|
  {
    if steps != [] {
      var n := |steps| - 1;
      RunKeepsPartitions(now, sandbox, steps[..n]);
      StepKeepsPartitions(Run(Start(now, sandbox), steps[..n]), steps[n]);
    }
  }

  lemma StepKeepsPartitions(s: State, step: Step)
    requires OwnPartitions(s.events)
    ensures OwnPartitions(Apply(s, step).events)
  {
    var t := Apply(s, step);
    StepAdds(s, step);
    forall i | 0 <= i < |t.events|
      ensures OwnPartition(t.events[i])
    {
      if i < |s.events| {
        assert SameIdentity(s.events[i], t.events[i]);
      } else {
        assert Adds(s, step, t.events[i]);
      }
    }
  }

  // ----- what has run stays so -----

  lemma TurnRuns(s: State, w: Worker, id: nat, a: Answers, raced: bool, fault: bool)
    ensures s.ran <= WorkOn(s, w, id, a, raced, fault).ran
  {
    if Commits(s, w, id, a, raced, fault) && id !in s.inbox {
      CommittedOrder(s, w, id, a, raced, fault);
    } else if (w, id) in s.held && id < |s.events| {
      TurnWrites(s, w, id, a, raced, fault);
    }
  }

  lemma StepRuns(s: State, step: Step)
    ensures s.ran <= Apply(s, step).ran
  {
    if step.Work? {
      TurnRuns(s, step.worker, step.event, step.answers, step.raced, step.fault);
    }
  }

  lemma StepKeepsHandled(s: State, step: Step, topic: Topic, key: Key)
    requires Handled(s, topic, key)
    ensures Handled(Apply(s, step), topic, key)
  {
    var i :| i in s.ran && i < |s.events| && s.events[i].topic == topic && s.events[i].aggregate == key;
    StepRuns(s, step);
    StepAdds(s, step);
    assert SameIdentity(s.events[i], Apply(s, step).events[i]) && i in Apply(s, step).ran;
  }

  // ----- a trade is accepted once its reservations are all made -----

  /** Every reservation made for a trade whose acceptance was asked for has been tried. */
  predicate AcceptsAreFunded(s: State) {
    forall i, r :: 0 <= i < |s.events| && s.events[i].topic == FxAccept
                   && s.events[i].aggregate.order < |s.orders|
                   && 0 <= r < |s.orders[s.events[i].aggregate.order].reservations|
                   && s.orders[s.events[i].aggregate.order].reservations[r].intent == Some(s.events[i].item)
                   ==> Handled(s, FundingReserve, ReservationKey(s.events[i].aggregate.order, r))
  }

  predicate AllMade(o: Order, x: nat) {
    forall r :: 0 <= r < |o.reservations| && o.reservations[r].intent == Some(x) ==> o.reservations[r].state == Reserved
  }

  lemma FundingAccepts(o: Order, item: nat, a: Answers, queued: bool, job: Job)
    requires FundingHandler(o, item, a, queued).Ok? && job in FundingHandler(o, item, a, queued).value.enqueued
    requires job.topic == FxAccept
    ensures AllMade(FundingHandler(o, item, a, queued).value.order, job.item)
  {
    var o1, intent := TryReserve(o, item, a), o.reservations[item].intent;
    assert AllReserved(o1, intent) && intent == Some(job.item);
    ProceedingGrows(o1, intent, queued);
  }

  lemma OnlyFundingAccepts(s: State, e: Event, a: Answers, job: Job)
    requires e.aggregate.order < |s.orders| && Dispatch(s, e, a).Ok? && job in Dispatch(s, e, a).value.enqueued
    requires job.topic == FxAccept
    ensures AllMade(Dispatch(s, e, a).value.order, job.item)
  {
    var k := e.aggregate.order;
    var o := s.orders[k];
    match e.topic
    case FundingReserve => FundingAccepts(o, e.item, a, Queued(s.events, PaymentMessage, OrderKey(k)), job);
    case PaymentCreated => CreatedAcceptsNothing(o, s.sandbox, a, job);
    case _ =>
  }

  lemma CreatedAcceptsNothing(o: Order, sandbox: bool, a: Answers, job: Job)
    requires PaymentCreatedHandler(o, sandbox, a).Ok? && job in PaymentCreatedHandler(o, sandbox, a).value.enqueued
    ensures job.topic == FundingReserve
  {
  }

  lemma NewAcceptIsFunded(s: State, step: Step, j: nat)
    requires |s.events| <= j < |Apply(s, step).events| && Apply(s, step).events[j].topic == FxAccept
    ensures
      var t := Apply(s, step);
      var k := t.events[j].aggregate.order;
      k < |t.orders| && AllMade(t.orders[k], t.events[j].item)
  {
    StepAdds(s, step);
    var e := Apply(s, step).events[j];
    assert Adds(s, step, e) && step.Work?;
    WorkExtends(s, step.worker, step.event, step.answers, step.raced, step.fault);
    CommittedOrder(s, step.worker, step.event, step.answers, step.raced, step.fault);
    OnlyFundingAccepts(s, s.events[step.event], step.answers, Job(e.topic, e.item));
  }

  lemma ReservedIsHandled(t: State, answers: set<ReservationState>, k: nat, r: nat)
    requires Inv(t, answers) && k < |t.orders| && r < |t.orders[k].reservations|
    requires t.orders[k].reservations[r].state == Reserved
    ensures Handled(t, FundingReserve, ReservationKey(k, r))
  {
    assert Sound(t.orders[k], HistoryOf(t, k), answers);
    TriedIsFunded(t.orders[k], HistoryOf(t, k), r);
  }

  lemma TriedIsFunded(o: Order, h: History, r: nat)
    requires Trails(o, h) && r < |o.reservations| && o.reservations[r].state == Reserved
    ensures r in h.funded
  {
  }

  lemma OldAcceptStaysFunded(s: State, step: Step, j: nat, r: nat)
    requires AcceptsAreFunded(s) && RowsExist(s) && j < |s.events| && s.events[j].topic == FxAccept
    requires
      var t := Apply(s, step);
      var k := s.events[j].aggregate.order;
      k < |t.orders| && r < |t.orders[k].reservations| && t.orders[k].reservations[r].intent == Some(s.events[j].item)
    ensures Handled(Apply(s, step), FundingReserve, ReservationKey(s.events[j].aggregate.order, r))
  {
    var k := s.events[j].aggregate.order;
    StepGrows(s, step, k);
    assert s.events[j].item < |s.orders[k].intents|;
    assert r < |s.orders[k].reservations|;
    StepKeepsHandled(s, step, FundingReserve, ReservationKey(k, r));
  }

  lemma StepKeepsAccepts(s: State, step: Step)
    requires AcceptsAreFunded(s) && RowsExist(s) && Inv(Apply(s, step), AllReservationStates())
    ensures AcceptsAreFunded(Apply(s, step))
  {
    var t := Apply(s, step);
    StepAdds(s, step);
    forall i, r | 0 <= i < |t.events| && t.events[i].topic == FxAccept && t.events[i].aggregate.order < |t.orders|
                  && 0 <= r < |t.orders[t.events[i].aggregate.order].reservations|
                  && t.orders[t.events[i].aggregate.order].reservations[r].intent == Some(t.events[i].item)
      ensures Handled(t, FundingReserve, ReservationKey(t.events[i].aggregate.order, r))
    {
      if i < |s.events| {
        assert SameIdentity(s.events[i], t.events[i]);
        OldAcceptStaysFunded(s, step, i, r);
      } else {
        NewAcceptIsFunded(s, step, i);
        ReservedIsHandled(t, AllReservationStates(), t.events[i].aggregate.order, r);
      }
    }
  }

  lemma {:induction false} RunKeepsAccepts(now: int, sandbox: bool, steps: seq<Step>)
    ensures AcceptsAreFunded(Run(Start(now, sandbox), steps))
    decreases |steps|
  {
    if steps != [] {
      var n := |steps| - 1;
      RunKeepsAccepts(now, sandbox, steps[..n]);
      RunKeepsRows(now, sandbox, steps[..n]);
      Reachable(now, sandbox, steps);
      StepKeepsAccepts(Run(Start(now, sandbox), steps[..n]), steps[n]);
    }
  }

  // ----- every value event follows a delivered message -----

  /** The `i`-th step of the run is a committed turn on the message event of order `j`, answered as delivered. */
  predicate Delivers(s: State, steps: seq<Step>, i: nat, j: nat) {
    && i < |steps| && steps[i].Work?
    && var u, v, id := Run(s, steps[..i]), Run(s, steps[..i + 1]), steps[i].event;
       && id < |u.events| && u.events[id].topic == PaymentMessage && u.events[id].aggregate.order == j
       && id !in u.ran && id in v.ran
       && (steps[i].answers.delivery == Delivered || steps[i].answers.delivery == NetworkAcked)
  }

  lemma OnlyDeliveryPays(s: State, e: Event, a: Answers, job: Job)
    requires e.aggregate.order < |s.orders| && Dispatch(s, e, a).Ok? && job in Dispatch(s, e, a).value.enqueued
    requires job.topic == PaymentValue
    ensures e.topic == PaymentMessage && (a.delivery == Delivered || a.delivery == NetworkAcked)
  {
    match e.topic
    case PaymentCreated => CreatedAcceptsNothing(s.orders[e.aggregate.order], s.sandbox, a, job);
    case _ =>
  }

  lemma NewValueIsDelivered(s: State, step: Step, v: nat)
    requires ReceiptsHold(s) && |s.events| <= v < |Apply(s, step).events|
             && Apply(s, step).events[v].topic == PaymentValue
    ensures
      && step.Work? && step.event < |s.events| && s.events[step.event].topic == PaymentMessage
      && s.events[step.event].aggregate.order == Apply(s, step).events[v].aggregate.order
      && step.event !in s.ran && step.event in Apply(s, step).ran
      && (step.answers.delivery == Delivered || step.answers.delivery == NetworkAcked)
  {
    StepAdds(s, step);
    var e := Apply(s, step).events[v];
    assert Adds(s, step, e) && step.Work?;
    WorkExtends(s, step.worker, step.event, step.answers, step.raced, step.fault);
    CommittedOrder(s, step.worker, step.event, step.answers, step.raced, step.fault);
    OnlyDeliveryPays(s, s.events[step.event], step.answers, Job(e.topic, e.item));
  }

  /** In every run each value event was added by the turn on its order's message that was answered as delivered. */
  lemma {:induction false} ValueFollowsDelivery(now: int, sandbox: bool, steps: seq<Step>, v: nat) returns (i: nat)
    requires v < |Run(Start(now, sandbox), steps).events|
    requires Run(Start(now, sandbox), steps).events[v].topic == PaymentValue
    ensures Delivers(Start(now, sandbox), steps, i, Run(Start(now, sandbox), steps).events[v].aggregate.order)
    ensures |Run(Start(now, sandbox), steps[..i]).events| <= v < |Run(Start(now, sandbox), steps[..i + 1]).events|
    decreases |steps|
  {
    var n := |steps| - 1;
    var s := Run(Start(now, sandbox), steps[..n]);
    assert steps[..n + 1] == steps;
    if v < |s.events| {
      StepAdds(s, steps[n]);
      assert SameIdentity(s.events[v], Apply(s, steps[n]).events[v]);
      i := ValueFollowsDelivery(now, sandbox, steps[..n], v);
      assert steps[..n][..i] == steps[..i] && steps[..n][..i + 1] == steps[..i + 1];
    } else {
      Reachable(now, sandbox, steps[..n]);
      NewValueIsDelivered(s, steps[n], v);
      i := n;
    }
  }
}

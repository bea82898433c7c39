/** What one step of the saga does to one order, and to the limits. */
module SagaSteps {
  import opened Results
  import opened Orders
  import opened LimitDesk
  import opened Outbox
  import opened Handlers
  import opened Saga
  import opened SagaInvariant

  /** Event `id` of order `j` has no receipt yet, and its handler would leave the order as `after`. */
  predicate Handles(s: State, id: nat, a: Answers, j: nat, after: Order)
    requires j < |s.orders|
  {
    && id < |s.events| && id !in s.inbox && s.events[id].aggregate.order == j
    && var r := Dispatch(s, s.events[id], a);
       r.Ok? && r.value.order == after
  }

  /** The step is a request, or an event of the environment, about order `j`. */
  predicate Asks(s: State, step: Step, j: nat, after: Order)
    requires j < |s.orders|
  {
    match step
    case AcceptQuote(k, quote, sold, bought, usable) =>
      k == j && !s.orders[j].sameCurrency && after == WithIntent(s.orders[j], quote, sold, bought)
    case RequestCancellation(k) => k == j && RequestCancel(s, j).Ok? && after == Requested(s.orders[j])
    case PostJournal(k) => k == j && after == WithJournal(s.orders[j])
    case SetCases(k, open) => k == j && after == s.orders[j].(openCases := open)
    case _ => false
  }

  /** A worker's turn leaves orders and limits alone, or commits the handler of an event without receipt. */
  lemma WorkOnTables(s: State, w: Worker, id: nat, a: Answers, raced: bool, fault: bool)
    ensures
      var t := WorkOn(s, w, id, a, raced, fault);
      || t.Desk() == s.Desk()
      || (id < |s.events| && id !in s.inbox && Handle(s, id, a).Ok? && t.Desk() == Handle(s, id, a).value.Desk())
  {
    if (w, id) in s.held && id < |s.events| && !fault {
      ClaimsDoNotMatter(s, s.held - {(w, id)}, id, a);
    }
  }

  lemma DispatchIgnoresClaims(s: State, held: set<(Worker, nat)>, e: Event, a: Answers)
    requires e.aggregate.order < |s.orders|
    ensures Dispatch(s.(held := held), e, a) == Dispatch(s, e, a)
  {
  }

  lemma AbsorbIgnoresClaims(s: State, held: set<(Worker, nat)>, id: nat, outcome: Result<Effect>)
    requires id < |s.events| && s.events[id].aggregate.order < |s.orders|
    ensures
      var r := Absorb(s.(held := held), id, outcome);
      (r.Ok? <==> Absorb(s, id, outcome).Ok?) && (r.Ok? ==> r.value.Desk() == Absorb(s, id, outcome).value.Desk())
  {
  }

  lemma ClaimsDoNotMatter(s: State, held: set<(Worker, nat)>, id: nat, a: Answers)
    requires id < |s.events|
    ensures
      var r := Handle(s.(held := held), id, a);
      (r.Ok? <==> Handle(s, id, a).Ok?) && (r.Ok? ==> r.value.Desk() == Handle(s, id, a).value.Desk())
  {
    if s.events[id].aggregate.order < |s.orders| {
      DispatchIgnoresClaims(s, held, s.events[id], a);
      AbsorbIgnoresClaims(s, held, id, Dispatch(s, s.events[id], a));
    }
  }

  lemma HandleWrites(s: State, id: nat, a: Answers)
    requires id < |s.events| && Handle(s, id, a).Ok?
    ensures
      var k := s.events[id].aggregate.order;
      && k < |s.orders| && Dispatch(s, s.events[id], a).Ok?
      && Settle(s.Desk(), k, Dispatch(s, s.events[id], a).value.order) == Ok(Handle(s, id, a).value.Desk())
      && Handle(s, id, a).value.orders == s.orders[k := Dispatch(s, s.events[id], a).value.order]
  {
  }

  lemma WorkOnOrder(s: State, w: Worker, id: nat, a: Answers, raced: bool, fault: bool, j: nat)
    requires j < |s.orders|
    ensures
      var t := WorkOn(s, w, id, a, raced, fault);
      j < |t.orders| && (t.orders[j] == s.orders[j] || Handles(s, id, a, j, t.orders[j]))
  {
    var t := WorkOn(s, w, id, a, raced, fault);
    WorkOnTables(s, w, id, a, raced, fault);
    if t.Desk() != s.Desk() {
      HandleWrites(s, id, a);
      assert t.orders == t.Desk().orders;
    } else {
      assert t.orders == t.Desk().orders && s.orders == s.Desk().orders;
    }
  }

  lemma QuoteOnOrders(s: State, k: nat, quote: nat, sold: nat, bought: nat, usable: bool)
    ensures
      var r := AcceptFxQuote(s, k, quote, sold, bought, usable);
      r.Ok? ==> k < |s.orders| && !s.orders[k].sameCurrency
                && r.value.Desk() == s.Desk().(orders := s.orders[k := WithIntent(s.orders[k], quote, sold, bought)])
  {
  }

  lemma CancellationOnOrders(s: State, k: nat)
    ensures
      var r := RequestCancel(s, k);
      r.Ok? ==> k < |s.orders| && !Terminal(s.orders[k].state)
                && r.value.Desk() == s.Desk().(orders := s.orders[k := Requested(s.orders[k])])
  {
  }

  /** Order `j` is as before, or as the request of the step leaves it. */
  predicate AskedOnly(s: State, step: Step, j: nat, t: State)
    requires j < |s.orders|
  {
    j < |t.orders| && (t.orders[j] == s.orders[j] || Asks(s, step, j, t.orders[j]))
  }

  lemma QuoteOnOrder(s: State, k: nat, quote: nat, sold: nat, bought: nat, usable: bool, j: nat)
    requires j < |s.orders|
    ensures AskedOnly(s, AcceptQuote(k, quote, sold, bought, usable), j,
                      Committed(s, AcceptFxQuote(s, k, quote, sold, bought, usable)))
  {
    var t := Committed(s, AcceptFxQuote(s, k, quote, sold, bought, usable));
    QuoteOnOrders(s, k, quote, sold, bought, usable);
    assert t.orders == t.Desk().orders;
  }

  lemma CancellationOnOrder(s: State, k: nat, j: nat)
    requires j < |s.orders|
    ensures AskedOnly(s, RequestCancellation(k), j, Committed(s, RequestCancel(s, k)))
  {
    var t := Committed(s, RequestCancel(s, k));
    CancellationOnOrders(s, k);
    assert t.orders == t.Desk().orders;
  }

  lemma EnvironmentOnOrder(s: State, step: Step, j: nat)
    requires (step.PostJournal? || step.SetCases?) && j < |s.orders|
    ensures AskedOnly(s, step, j, Apply(s, step))
  {
  }

  lemma DeliveryOnOrders(s: State, step: Step)
    requires step.Tick? || step.Claim? || step.Heartbeat? || step.Crash? || step.CreateReplay? || step.ApproveReplay?
    ensures Apply(s, step).orders == s.orders
  {
  }

  lemma RequestOnOrder(s: State, step: Step, j: nat)
    requires !step.Work? && !step.Create? && j < |s.orders|
    ensures AskedOnly(s, step, j, Apply(s, step))
  {
    match step
    case AcceptQuote(k, quote, sold, bought, usable) => QuoteOnOrder(s, k, quote, sold, bought, usable, j);
    case RequestCancellation(k) => CancellationOnOrder(s, k, j);
    case PostJournal(_) => EnvironmentOnOrder(s, step, j);
    case SetCases(_, _) => EnvironmentOnOrder(s, step, j);
    case _ => DeliveryOnOrders(s, step);
  }

  /** A step leaves an order alone, handles one of its events, or carries out a request about it. */
  lemma StepOnOrder(s: State, step: Step, j: nat)
    requires j < |s.orders|
    ensures j < |Apply(s, step).orders|
    ensures
      var after := Apply(s, step).orders[j];
      || after == s.orders[j]
      || (step.Work? && Handles(s, step.event, step.answers, j, after))
      || Asks(s, step, j, after)
  {
    if step.Work? {
      WorkOnOrder(s, step.worker, step.event, step.answers, step.raced, step.fault, j);
    } else if step.Create? {
      CreationOnOrder(s, step.payment, j);
    } else {
      RequestOnOrder(s, step, j);
    }
  }

  lemma CreationOnOrder(s: State, p: Payment, j: nat)
    requires j < |s.orders|
    ensures j < |Apply(s, Create(p)).orders| && Apply(s, Create(p)).orders[j] == s.orders[j]
  {
    if CreateOrder(s, p).Ok? {
      assert CreateOrder(s, p).value.orders[..|s.orders|] == s.orders;
    }
  }

  // ----- what a handler writes is what the limits expect -----

  lemma WritesChain(o: Order, p: Order, q: Order)
    requires Writes(o, p) && Writes(p, q)
    ensures Writes(o, q)
  {
  }

  lemma TransitionWrites(o: Order, p: Order, target: OrderState, outcome: Option<Outcome>)
    requires Neutral(o, p) && Transition(p, target, outcome).Ok?
    ensures Writes(o, Transition(p, target, outcome).value)
  {
    TransitionShape(p, target, outcome);
  }

  lemma CreatedWrites(o: Order, sandbox: bool, a: Answers)
    requires PaymentCreatedHandler(o, sandbox, a).Ok?
    ensures Writes(o, PaymentCreatedHandler(o, sandbox, a).value.order)
  {
    var authorized := Authorized(o, sandbox, a);
    var o1 := NoteAuthorization(o, authorized);
    var o2 := NoteCompliance(o1);
    assert Neutral(o, o1) && Neutral(o, o2);
    if !authorized {
      TransitionWrites(o, o1, Suspended, Some(Rejected));
    } else if ScreenedOut(o1) {
      ScreenOutWrites(o2);
      WritesChain(o, o2, ScreenOut(o2).value.order);
    } else {
      AfterScreeningWrites(o2);
      WritesChain(o, o2, AfterScreening(o2).value.order);
    }
  }

  lemma ScreenOutWrites(o: Order)
    requires ScreenOut(o).Ok?
    ensures Writes(o, ScreenOut(o).value.order)
  {
    TransitionWrites(o, o, ComplianceRejected, Some(Rejected));
    var o1 := Transition(o, ComplianceRejected, Some(Rejected)).value;
    TransitionWrites(o1, o1, OperationallyClosedUnsuccessful, Some(Rejected));
    WritesChain(o, o1, Transition(o1, OperationallyClosedUnsuccessful, Some(Rejected)).value);
  }

  lemma AfterScreeningWrites(o: Order)
    requires AfterScreening(o).Ok?
    ensures Writes(o, AfterScreening(o).value.order)
  {
    if o.intents == [] {
      var target := if o.sameCurrency then ReservationPending else FxAcceptancePending;
      TransitionWrites(o, o, target, None);
    }
  }

  lemma FundingWrites(o: Order, item: nat, a: Answers, queued: bool)
    requires FundingHandler(o, item, a, queued).Ok?
    ensures Writes(o, FundingHandler(o, item, a, queued).value.order)
  {
    if o.reservations[item].state != Reserved {
      var o1, intent := TryReserve(o, item, a), o.reservations[item].intent;
      if AllReserved(o1, intent) && intent.Some? && intent.value < |o1.intents|
        && o1.intents[intent.value].state == Preparing {
        var ready := o1.(intents := o1.intents[intent.value := o1.intents[intent.value].(state := ReadyToAccept)]);
        TransitionWrites(o, ready, FxAcceptancePending, None);
      }
    }
  }

  lemma TradeWrites(o: Order, x: nat, a: Answers)
    requires TradeHandler(o, x, a).Ok?
    ensures Writes(o, TradeHandler(o, x, a).value.order)
  {
    if o.intents[x].state != TradeAccepted {
      TransitionWrites(o, o.(intents := o.intents[x := o.intents[x].(state := a.trade)]), FxAccepted, None);
    }
  }

  lemma SettlementWrites(o: Order, i: nat, a: Answers, queued: bool)
    requires SettlementHandler(o, i, a, queued).Ok?
    ensures Writes(o, SettlementHandler(o, i, a, queued).value.order)
  {
  }

  lemma MessageWrites(o: Order, a: Answers, queued: bool)
    requires MessageHandler(o, a, queued).Ok?
    ensures Writes(o, MessageHandler(o, a, queued).value.order)
  {
    var noted := AppendFact(o, Message, "payment-message");
    TransitionWrites(o, noted, if a.delivery == Undelivered then Suspended else MessageDelivered, None);
  }

  lemma CompletionWrites(o: Order, a: Answers)
    requires CompletePayment(o, a).Ok?
    ensures Writes(o, CompletePayment(o, a).value)
  {
    MoveIsPointwise(o, 0, a.consume, true);
    var credited := CreditBeneficiary(MoveReserved(o, 0, a.consume, true));
    TransitionWrites(o, credited, CustomerCompleted, Some(Completed));
    var reconciled := CompleteCustomer(o, a).value;
    assert Writes(o, reconciled);
    TransitionWrites(reconciled, reconciled, OperationallyClosed, Some(Completed));
    WritesChain(o, reconciled, CompletePayment(o, a).value);
  }

  lemma ValueWrites(o: Order, a: Answers)
    requires ValueHandler(o, a).Ok?
    ensures Writes(o, ValueHandler(o, a).value.order)
  {
    if o.leg.state != LegFinal && a.settlement == LegFinal {
      TransitionWrites(o, SubmitValue(o, a), ValueSettlement, None);
      var o1 := Transition(SubmitValue(o, a), ValueSettlement, None).value;
      CompletionWrites(o1, a);
      WritesChain(o, o1, CompletePayment(o1, a).value);
    }
  }

  lemma CancellationWrites(o: Order, item: nat, a: Answers)
    requires CancellationHandler(o, item, a).Ok?
    ensures Writes(o, CancellationHandler(o, item, a).value.order)
  {
    var o1 := AppendFact(o, Cancellation, Numbered("can_", item));
    if a.cancel == CancelGranted && o1.leg.state != LegFinal {
      AcceptanceWrites(o1, item);
    }
  }

  lemma DispatchWrites(s: State, e: Event, a: Answers)
    requires e.aggregate.order < |s.orders| && Dispatch(s, e, a).Ok?
    ensures Writes(s.orders[e.aggregate.order], Dispatch(s, e, a).value.order)
  {
    var k := e.aggregate.order;
    var o := s.orders[k];
    match e.topic
    case PaymentCreated => CreatedWrites(o, s.sandbox, a);
    case FundingReserve => FundingWrites(o, e.item, a, Queued(s.events, PaymentMessage, OrderKey(k)));
    case FxAccept => TradeWrites(o, e.item, a);
    case SettlementSubmit => SettlementWrites(o, e.item, a, Queued(s.events, PaymentMessage, OrderKey(k)));
    case PaymentMessage => MessageWrites(o, a, Queued(s.events, PaymentValue, OrderKey(k)));
    case PaymentValue => ValueWrites(o, a);
    case PaymentCancellation => CancellationWrites(o, e.item, a);
  }

  // ----- what a step does to the limits -----

  /** The tables of orders and limits after a step: as before, one order more, or one row written. */
  ghost predicate DeskMoves(d: Desk, step: Step, t: Desk) {
    || t == d
    || (step.Create? && AddOrder(d, step.payment.scope, step.payment.day, step.payment.amount,
                                 step.payment.sameCurrency,
                                 step.payment.screeningPasses, step.payment.profile) == Ok(t))
    || (exists k, p :: 0 <= k < |d.orders| && Writes(d.orders[k], p) && Settle(d, k, p) == Ok(t))
  }

  lemma WorkOnDesk(s: State, step: Step, w: Worker, id: nat, a: Answers, raced: bool, fault: bool)
    ensures DeskMoves(s.Desk(), step, WorkOn(s, w, id, a, raced, fault).Desk())
  {
    var t := WorkOn(s, w, id, a, raced, fault);
    WorkOnTables(s, w, id, a, raced, fault);
    if t.Desk() != s.Desk() {
      HandleWrites(s, id, a);
      DispatchWrites(s, s.events[id], a);
    }
  }

  lemma RowWritten(d: Desk, step: Step, k: nat, p: Order)
    requires k < |d.orders| && Neutral(d.orders[k], p)
    ensures DeskMoves(d, step, d.(orders := d.orders[k := p]))
  {
    PlainWrite(d, k, p);
  }

  lemma QuoteOnDesk(s: State, step: Step, k: nat, quote: nat, sold: nat, bought: nat, usable: bool)
    ensures DeskMoves(s.Desk(), step, Committed(s, AcceptFxQuote(s, k, quote, sold, bought, usable)).Desk())
  {
    QuoteOnOrders(s, k, quote, sold, bought, usable);
    if AcceptFxQuote(s, k, quote, sold, bought, usable).Ok? {
      RowWritten(s.Desk(), step, k, WithIntent(s.orders[k], quote, sold, bought));
    }
  }

  lemma CancellationOnDesk(s: State, step: Step, k: nat)
    ensures DeskMoves(s.Desk(), step, Committed(s, RequestCancel(s, k)).Desk())
  {
    CancellationOnOrders(s, k);
    if RequestCancel(s, k).Ok? {
      RowWritten(s.Desk(), step, k, Requested(s.orders[k]));
    }
  }

  lemma PostingOnDesk(s: State, step: Step, k: nat)
    ensures DeskMoves(s.Desk(), step, Posted(s, k).Desk())
  {
    if k < |s.orders| {
      RowWritten(s.Desk(), step, k, WithJournal(s.orders[k]));
    }
  }

  lemma CasesOnDesk(s: State, step: Step, k: nat, open: nat)
    ensures DeskMoves(s.Desk(), step, WithCases(s, k, open).Desk())
  {
    if k < |s.orders| {
      RowWritten(s.Desk(), step, k, s.orders[k].(openCases := open));
    }
  }

  lemma CreationOnDesk(s: State, p: Payment)
    ensures DeskMoves(s.Desk(), Create(p), Committed(s, CreateOrder(s, p)).Desk())
  {
  }

  lemma StepOnDesk(s: State, step: Step)
    ensures DeskMoves(s.Desk(), step, Apply(s, step).Desk())
  {
    match step
    case Work(w, id, a, raced, fault) => WorkOnDesk(s, step, w, id, a, raced, fault);
    case AcceptQuote(k, quote, sold, bought, usable) => QuoteOnDesk(s, step, k, quote, sold, bought, usable);
    case RequestCancellation(k) => CancellationOnDesk(s, step, k);
    case Create(payment) => CreationOnDesk(s, payment);
    case PostJournal(k) => PostingOnDesk(s, step, k);
    case SetCases(k, open) => CasesOnDesk(s, step, k, open);
    case _ =>
  }
}

/** The facts of an order over whole runs: they are only appended, and those of one kind and reference are numbered
    from 1 on. */
module SagaFacts {
  import opened Results
  import opened Orders
  import opened Outbox
  import opened Handlers
  import opened Saga
  import opened SagaInvariant
  import opened SagaSteps
  import opened SagaSafety
  import opened SagaCancellation

  function CountOf(facts: seq<Fact>, kind: FactKind, reference: string): nat {
    if facts == [] then 0
    else
      var n := |facts| - 1;
      CountOf(facts[..n], kind, reference) + if facts[n].kind == kind && facts[n].reference == reference then 1 else 0
  }

  /** The number of a fact is one more than the number of earlier facts of its kind and reference. */
  predicate Counted(facts: seq<Fact>) {
    forall i :: 0 <= i < |facts| ==> facts[i].sequence == CountOf(facts[..i], facts[i].kind, facts[i].reference) + 1
  }

  lemma {:induction false} LatestIsCount(facts: seq<Fact>, kind: FactKind, reference: string)
    requires Counted(facts)
    ensures LatestSequence(facts, kind, reference) == CountOf(facts, kind, reference)
    decreases |facts|
  {
    if facts != [] {
      var n := |facts| - 1;
      CountedPrefix(facts, n);
      LatestIsCount(facts[..n], kind, reference);
    }
  }

  lemma CountedPrefix(facts: seq<Fact>, n: nat)
    requires Counted(facts) && n <= |facts|
    ensures Counted(facts[..n])
  {
    forall i | 0 <= i < n
      ensures facts[..n][i].sequence == CountOf(facts[..n][..i], facts[..n][i].kind, facts[..n][i].reference) + 1
    {
      assert facts[..n][..i] == facts[..i];
    }
  }

  lemma CountedAppend(facts: seq<Fact>, f: Fact)
    requires Counted(facts) && f.sequence == CountOf(facts, f.kind, f.reference) + 1
    ensures Counted(facts + [f])
  {
    var all := facts + [f];
    forall i | 0 <= i < |all|
      ensures all[i].sequence == CountOf(all[..i], all[i].kind, all[i].reference) + 1
    {
      if i < |facts| {
        assert all[..i] == facts[..i];
      } else {
        assert all[..i] == facts;
      }
    }
  }

  /** Facts are appended under the next numbers, and none of them is about a cancellation. */
  predicate Continues(before: seq<Fact>, after: seq<Fact>) {
    && before <= after && (Counted(before) ==> Counted(after))
    && forall i :: |before| <= i < |after| ==> after[i].kind != Cancellation
  }

  lemma ContinuesOn(a: seq<Fact>, b: seq<Fact>, c: seq<Fact>)
    requires Continues(a, b) && Continues(b, c)
    ensures Continues(a, c)
  {
  }

  lemma AppendedCounts(o: Order, kind: FactKind, reference: string)
    requires Counted(o.facts)
    ensures Counted(AppendFact(o, kind, reference).facts)
  {
    NextIsCounted(o.facts, kind, reference);
    AppendedIs(o, kind, reference);
  }

  lemma NextIsCounted(facts: seq<Fact>, kind: FactKind, reference: string)
    requires Counted(facts)
    ensures Counted(facts + [Fact(kind, reference, LatestSequence(facts, kind, reference) + 1)])
  {
    LatestIsCount(facts, kind, reference);
    CountedAppend(facts, Fact(kind, reference, LatestSequence(facts, kind, reference) + 1));
  }

  lemma AppendedIs(o: Order, kind: FactKind, reference: string)
    ensures AppendFact(o, kind, reference).facts
            == o.facts + [Fact(kind, reference, LatestSequence(o.facts, kind, reference) + 1)]
  {
  }

  lemma AppendedFact(o: Order, kind: FactKind, reference: string)
    requires kind != Cancellation
    ensures Continues(o.facts, AppendFact(o, kind, reference).facts)
  {
    if Counted(o.facts) {
      AppendedCounts(o, kind, reference);
    }
    AppendedLast(o, kind, reference);
  }

  lemma AppendedLast(o: Order, kind: FactKind, reference: string)
    ensures
      var p := AppendFact(o, kind, reference);
      o.facts <= p.facts && |p.facts| == |o.facts| + 1 && p.facts[|o.facts|].kind == kind
  {
  }

  // ----- handlers -----

  lemma CreatedContinues(o: Order, sandbox: bool, a: Answers)
    requires PaymentCreatedHandler(o, sandbox, a).Ok?
    ensures Continues(o.facts, PaymentCreatedHandler(o, sandbox, a).value.order.facts)
  {
    var authorized := Authorized(o, sandbox, a);
    var o1 := NoteAuthorization(o, authorized);
    AppendedFact(o, Authorization, "authz_");
    if authorized {
      ScreenContinues(o1);
    } else {
      TransitionShape(o1, Suspended, Some(Rejected));
    }
  }

  lemma ScreenContinues(o: Order)
    requires Screen(o).Ok?
    ensures Continues(o.facts, Screen(o).value.order.facts)
  {
    AppendedFact(o, Compliance, "comp_");
    var o2 := NoteCompliance(o);
    if ScreenedOut(o) {
      TransitionShape(o2, ComplianceRejected, Some(Rejected));
      TransitionShape(Transition(o2, ComplianceRejected, Some(Rejected)).value, OperationallyClosedUnsuccessful,
                      Some(Rejected));
    } else {
      AfterScreeningKeepsFacts(o2);
    }
  }

  lemma AfterScreeningKeepsFacts(o: Order)
    requires AfterScreening(o).Ok?
    ensures AfterScreening(o).value.order.facts == o.facts
  {
  }

  lemma ProceedingKeepsFacts(o: Order, intent: Option<nat>, queued: bool)
    requires Proceed(o, intent, queued).Ok?
    ensures Proceed(o, intent, queued).value.order.facts == o.facts
  {
  }

  lemma FundingContinues(o: Order, item: nat, a: Answers, queued: bool)
    requires FundingHandler(o, item, a, queued).Ok?
    ensures Continues(o.facts, FundingHandler(o, item, a, queued).value.order.facts)
  {
    if o.reservations[item].state != Reserved {
      var moved := o.(reservations := o.reservations[item := o.reservations[item].Move(a.reserve)]);
      AppendedFact(moved, Funding, Numbered("res_", item));
      var o1, intent := TryReserve(o, item, a), o.reservations[item].intent;
      if AllReserved(o1, intent) {
        ProceedingKeepsFacts(o1, intent, queued);
      }
    }
  }

  lemma TradeContinues(o: Order, x: nat, a: Answers)
    requires TradeHandler(o, x, a).Ok?
    ensures Continues(o.facts, TradeHandler(o, x, a).value.order.facts)
  {
    var intent := o.intents[x];
    if intent.state != TradeAccepted {
      var o0 := o.(intents := o.intents[x := intent.(state := a.trade)]);
      TransitionShape(o0, FxAccepted, None);
      AppendedFact(Transition(o0, FxAccepted, None).value, Fx, Numbered("fxi_", x));
    }
  }

  lemma SettlementContinues(o: Order, i: nat, a: Answers, queued: bool)
    requires SettlementHandler(o, i, a, queued).Ok?
    ensures Continues(o.facts, SettlementHandler(o, i, a, queued).value.order.facts)
  {
    if o.fxLegs[i].state != LegFinal {
      AppendedFact(o.(fxLegs := o.fxLegs[i := o.fxLegs[i].(state := a.settlement)]), Settlement,
                   if i < 2 then FX_ROLES[i] else "");
    }
  }

  lemma MessageContinues(o: Order, a: Answers, queued: bool)
    requires MessageHandler(o, a, queued).Ok?
    ensures Continues(o.facts, MessageHandler(o, a, queued).value.order.facts)
  {
    AppendedFact(o, Message, "payment-message");
    TransitionShape(AppendFact(o, Message, "payment-message"),
                    if a.delivery == Undelivered then Suspended else MessageDelivered, None);
  }

  lemma {:induction false} MovingContinues(o: Order, i: nat, next: nat -> ReservationState)
    requires i <= |o.reservations|
    ensures Continues(o.facts, MoveReserved(o, i, next, true).facts)
    decreases |o.reservations| - i
  {
    if i < |o.reservations| {
      if o.reservations[i].state != Reserved {
        MovingContinues(o, i + 1, next);
      } else {
        var moved := o.(reservations := o.reservations[i := o.reservations[i].Move(next(i))]);
        AppendedFact(moved, Funding, Numbered("res_", i));
        var noted := AppendFact(moved, Funding, Numbered("res_", i));
        MovingContinues(noted, i + 1, next);
        ContinuesOn(o.facts, noted.facts, MoveReserved(noted, i + 1, next, true).facts);
      }
    }
  }

  lemma CustomerContinues(o: Order, a: Answers)
    requires CompleteCustomer(o, a).Ok?
    ensures Continues(o.facts, CompleteCustomer(o, a).value.facts)
  {
    var moved := MoveReserved(o, 0, a.consume, true);
    var paid := if moved.credits == [] then moved.(credits := [Credit(Credited, true)]) else moved;
    MovingContinues(o, 0, a.consume);
    AppendedFact(paid, Beneficiary, "credit_");
    var o1 := CreditBeneficiary(moved);
    ContinuesOn(o.facts, moved.facts, o1.facts);
    TransitionShape(o1, CustomerCompleted, Some(Completed));
    var o2 := Transition(o1, CustomerCompleted, Some(Completed)).value;
    AppendedFact(o2.(reconciliations := o2.reconciliations + [Matched]), Reconciliation, "recon_");
    ContinuesOn(o.facts, o2.facts, Reconcile(o2).facts);
  }

  lemma FinishContinues(o: Order, a: Answers)
    requires FinishPayment(o, a).Ok?
    ensures Continues(o.facts, FinishPayment(o, a).value.facts)
  {
    TransitionShape(o, ValueSettlement, None);
    var o1 := Transition(o, ValueSettlement, None).value;
    CustomerContinues(o1, a);
    TransitionShape(CompleteCustomer(o1, a).value, OperationallyClosed, Some(Completed));
  }

  lemma SubmissionContinues(o: Order, a: Answers)
    ensures Continues(o.facts, SubmitValue(o, a).facts)
  {
    AppendedFact(o.(leg := o.leg.(state := a.settlement)), Settlement, "PAYMENT_VALUE");
  }

  lemma ValueContinues(o: Order, a: Answers)
    requires ValueHandler(o, a).Ok?
    ensures Continues(o.facts, ValueHandler(o, a).value.order.facts)
  {
    SubmissionContinues(o, a);
    if o.leg.state != LegFinal && a.settlement == LegFinal {
      FinishContinues(SubmitValue(o, a), a);
      ContinuesOn(o.facts, SubmitValue(o, a).facts, FinishPayment(SubmitValue(o, a), a).value.facts);
    }
  }

  /** A handler other than that of a cancellation. */
  lemma OthersContinue(s: State, e: Event, a: Answers)
    requires e.aggregate.order < |s.orders| && e.topic != PaymentCancellation && Dispatch(s, e, a).Ok?
    ensures Continues(s.orders[e.aggregate.order].facts, Dispatch(s, e, a).value.order.facts)
  {
    var k := e.aggregate.order;
    var o := s.orders[k];
    match e.topic
    case PaymentCreated => CreatedContinues(o, s.sandbox, a);
    case FundingReserve => FundingContinues(o, e.item, a, Queued(s.events, PaymentMessage, OrderKey(k)));
    case FxAccept => TradeContinues(o, e.item, a);
    case SettlementSubmit => SettlementContinues(o, e.item, a, Queued(s.events, PaymentMessage, OrderKey(k)));
    case PaymentMessage => MessageContinues(o, a, Queued(s.events, PaymentValue, OrderKey(k)));
    case PaymentValue => ValueContinues(o, a);
    case _ =>
  }

  lemma CancellationFacts(o: Order, item: nat, a: Answers)
    requires CancellationHandler(o, item, a).Ok?
    ensures
      var p := CancellationHandler(o, item, a).value.order;
      && o.facts <= p.facts && (Counted(o.facts) ==> Counted(p.facts)) && p.cancellations != []
  {
    var o1 := AppendFact(o, Cancellation, Numbered("can_", item));
    if Counted(o.facts) {
      AppendedCounts(o, Cancellation, Numbered("can_", item));
    }
    if a.cancel == CancelGranted && o1.leg.state != LegFinal {
      AcceptanceWrites(o1, item);
    }
  }

  // ----- runs -----

  /** The facts are numbered, and speak of a cancellation only once it was asked for. */
  predicate FactsInOrder(o: Order) {
    && Counted(o.facts)
    && (o.cancellations == [] ==> forall i :: 0 <= i < |o.facts| ==> o.facts[i].kind != Cancellation)
  }

  lemma {:induction false} NoFactsCounted(facts: seq<Fact>, kind: FactKind, reference: string)
    requires forall i :: 0 <= i < |facts| ==> facts[i].kind != kind
    ensures CountOf(facts, kind, reference) == 0
    decreases |facts|
  {
    if facts != [] {
      NoFactsCounted(facts[..|facts| - 1], kind, reference);
    }
  }

  lemma HandledFacts(s: State, id: nat, a: Answers, j: nat, after: Order)
    requires j < |s.orders| && FactsInOrder(s.orders[j]) && Handles(s, id, a, j, after)
    ensures FactsInOrder(after) && s.orders[j].facts <= after.facts
  {
    var e := s.events[id];
    if e.topic == PaymentCancellation {
      CancellationFacts(s.orders[j], e.item, a);
    } else {
      OthersContinue(s, e, a);
      OthersKeepRequests(s, e, a);
    }
  }

  lemma RequestedFacts(o: Order)
    requires FactsInOrder(o) && o.cancellations == []
    ensures FactsInOrder(Saga.Requested(o)) && o.facts <= Saga.Requested(o).facts
  {
    NoFactsCounted(o.facts, Cancellation, Numbered("can_", 0));
    CountedAppend(o.facts, Fact(Cancellation, Numbered("can_", 0), 1));
  }

  lemma IntentFacts(o: Order, quote: nat, sold: nat, bought: nat)
    requires FactsInOrder(o)
    ensures FactsInOrder(WithIntent(o, quote, sold, bought)) && o.facts <= WithIntent(o, quote, sold, bought).facts
  {
    var x := |o.intents|;
    var reservations := [NewReservation(o.amount, Some(x)), NewReservation(bought, Some(x))];
    AppendedFact(o.(intents := o.intents + [Intent(quote, sold, bought, Preparing)],
                    reservations := o.reservations + reservations), Fx, Numbered("fxi_", x));
  }

  /** Facts of different kinds are each the first of its own. */
  lemma FirstFacts(facts: seq<Fact>)
    requires forall i, j :: 0 <= i < j < |facts| ==> facts[i].kind != facts[j].kind
    requires forall i :: 0 <= i < |facts| ==> facts[i].sequence == 1
    ensures Counted(facts)
  {
    forall i | 0 <= i < |facts|
      ensures facts[i].sequence == CountOf(facts[..i], facts[i].kind, facts[i].reference) + 1
    {
      NoFactsCounted(facts[..i], facts[i].kind, facts[i].reference);
    }
  }

  lemma NewFacts(amount: nat, same: bool, passes: bool, scope: Scope, counter: Option<LimitKey>)
    ensures FactsInOrder(NewOrder(amount, same, passes, scope, counter))
  {
    FirstFacts(NewOrder(amount, same, passes, scope, counter).facts);
  }

  lemma AskedFacts(s: State, step: Step, j: nat, after: Order)
    requires j < |s.orders| && FactsInOrder(s.orders[j]) && Asks(s, step, j, after)
    requires step.RequestCancellation? ==> s.orders[j].cancellations == []
    ensures FactsInOrder(after) && s.orders[j].facts <= after.facts
  {
    match step
    case AcceptQuote(k, quote, sold, bought, usable) => IntentFacts(s.orders[j], quote, sold, bought);
    case RequestCancellation(k) => RequestedFacts(s.orders[j]);
    case _ =>
  }

  lemma StepKeepsFacts(now: int, sandbox: bool, steps: seq<Step>, step: Step, j: nat)
    requires j < |Run(Start(now, sandbox), steps).orders|
    requires FactsInOrder(Run(Start(now, sandbox), steps).orders[j])
    ensures
      var s := Run(Start(now, sandbox), steps);
      var t := Apply(s, step);
      j < |t.orders| && FactsInOrder(t.orders[j]) && s.orders[j].facts <= t.orders[j].facts
  {
    var s := Run(Start(now, sandbox), steps);
    StepOnOrder(s, step, j);
    var after := Apply(s, step).orders[j];
    if Asks(s, step, j, after) {
      if step.RequestCancellation? {
        RequestAcceptedExactlyWhen(now, sandbox, steps, j);
      }
      AskedFacts(s, step, j, after);
    } else if after != s.orders[j] {
      HandledFacts(s, step.event, step.answers, j, after);
    }
  }

  lemma NewOrderFacts(s: State, step: Step, j: nat)
    requires |s.orders| <= j < |Apply(s, step).orders|
    ensures FactsInOrder(Apply(s, step).orders[j])
  {
    if step.Create? {
      var p := step.payment;
      var counter := CreateWrites(s, p);
      NewFacts(p.amount, p.sameCurrency, p.screeningPasses, p.scope, counter);
    } else {
      OnlyCreationAdds(s, step);
    }
  }

  lemma TurnAddsNoOrder(s: State, w: Worker, id: nat, a: Answers, raced: bool, fault: bool)
    ensures |WorkOn(s, w, id, a, raced, fault).orders| == |s.orders|
  {
    WorkOnTables(s, w, id, a, raced, fault);
    var t := WorkOn(s, w, id, a, raced, fault);
    assert t.orders == t.Desk().orders && s.orders == s.Desk().orders;
    if t.Desk() != s.Desk() {
      HandleWrites(s, id, a);
    }
  }

  lemma RequestsAddNoOrder(s: State, step: Step)
    requires step.AcceptQuote? || step.RequestCancellation?
    ensures |Apply(s, step).orders| == |s.orders|
  {
    var t := Apply(s, step);
    assert t.orders == t.Desk().orders && s.orders == s.Desk().orders;
    if step.AcceptQuote? {
      QuoteOnOrders(s, step.order, step.quote, step.sold, step.bought, step.usable);
    } else {
      CancellationOnOrders(s, step.order);
    }
  }

  lemma OnlyCreationAdds(s: State, step: Step)
    requires !step.Create?
    ensures |Apply(s, step).orders| == |s.orders|
  {
    match step
    case Work(w, id, a, raced, fault) => TurnAddsNoOrder(s, w, id, a, raced, fault);
    case AcceptQuote(_, _, _, _, _) => RequestsAddNoOrder(s, step);
    case RequestCancellation(_) => RequestsAddNoOrder(s, step);
    case PostJournal(_) =>
    case SetCases(_, _) =>
    case _ => DeliveryOnOrders(s, step);
  }

  /** In every run the facts of one kind and reference of an order are numbered 1, 2, 3 and so on. */
  lemma {:induction false} FactsAreNumbered(now: int, sandbox: bool, steps: seq<Step>, j: nat)
    requires j < |Run(Start(now, sandbox), steps).orders|
    ensures FactsInOrder(Run(Start(now, sandbox), steps).orders[j])
    decreases |steps|
  {
    if steps != [] {
      var n := |steps| - 1;
      var s := Run(Start(now, sandbox), steps[..n]);
      if j < |s.orders| {
        FactsAreNumbered(now, sandbox, steps[..n], j);
        StepKeepsFacts(now, sandbox, steps[..n], steps[n], j);
      } else {
        NewOrderFacts(s, steps[n], j);
      }
    }
  }

  /** No fact is ever changed or lost in any continuation of the run. */
  lemma {:induction false} FactsAreKept(now: int, sandbox: bool, before: seq<Step>, later: seq<Step>, j: nat)
    requires j < |Run(Start(now, sandbox), before).orders|
    ensures
      var s, t := Run(Start(now, sandbox), before), Run(Start(now, sandbox), before + later);
      j < |t.orders| && s.orders[j].facts <= t.orders[j].facts
    decreases |later|
  {
    if later == [] {
      assert before + later == before;
    } else {
      var n := |later| - 1;
      FactsAreKept(now, sandbox, before, later[..n], j);
      OneStepMore(Start(now, sandbox), before, later);
      FactsAreNumbered(now, sandbox, before + later[..n], j);
      StepKeepsFacts(now, sandbox, before + later[..n], later[n], j);
    }
  }
}

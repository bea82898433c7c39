/** What every handler keeps of one order, clause by clause. */
module SagaInvariant {
  import opened Results
  import opened Orders
  import opened Completion
  import opened Outbox
  import opened Handlers

  /** The committed states: the two steps of a successful close, and the two causes of an unsuccessful one,
      are only passed through inside a transaction. */
  predicate CommittedState(s: OrderState) {
    !s.ValueSettlement? && !s.CustomerCompleted? && !s.ComplianceRejected? && !s.ExecutionCancelled?
  }

  /** What the outbox and the receipts say about one order: the reservations whose funding event has been handled,
      whether a message or value event exists, and whether a cancellation event exists and has been handled. */
  datatype History = History(funded: iset<nat>, pursued: bool, cancelQueued: bool, cancelHandled: bool)

  /** How an order stands with its ending: value, credit, outcome and cancellation go with the state. */
  predicate Ends(o: Order) {
    && CommittedState(o.state)
    && (o.leg.state == LegFinal <==> o.state == OperationallyClosed)
    && (o.credits != [] <==> o.state == OperationallyClosed)
    && (o.outcome == Some(Completed) <==> o.state == OperationallyClosed)
    && (o.outcome == Some(Cancelled) ==> o.state == OperationallyClosedUnsuccessful)
    && (CancelAccepted in o.cancellations <==> o.outcome == Some(Cancelled))
    && (o.state == OperationallyClosed ==>
          o.credits == [Credit(Credited, true)] && Matched in o.reconciliations && o.postedJournals > 0)
  }

  /** A request waits, or has been accepted or rejected: no other answer is ever written. */
  predicate Answerable(s: CancelState) {
    s == CancelRequested || s == CancelAccepted || s == CancelRejected
  }

  /** An order is asked to be cancelled at most once, by one event, and only its handler answers. */
  predicate Asked(o: Order, h: History) {
    && |o.cancellations| <= 1
    && (o.cancellations != [] <==> h.cancelQueued)
    && (o.cancellations != [] ==> Answerable(o.cancellations[0]))
    && (o.cancellations != [] && o.cancellations[0] != CancelRequested ==> h.cancelHandled)
  }

  predicate Based(o: Order) {
    o.authorizations != [] && o.compliances != [] && HasBasicKinds(o.facts)
  }

  /** A reservation's trail ends in its state, and has not begun to move before its funding event is handled. */
  predicate Trails(o: Order, h: History) {
    forall i :: 0 <= i < |o.reservations| ==>
                  var r := o.reservations[i];
                  && r.trail != [] && r.trail[|r.trail| - 1] == r.state
                  && (i !in h.funded ==> r.trail == [ReservationRequested])
  }

  /** Reservations and trades go with the kind of order. */
  predicate Kinds(o: Order) {
    && (forall i :: 0 <= i < |o.reservations| ==>
          && (o.reservations[i].intent.Some? <==> !o.sameCurrency)
          && (o.reservations[i].intent.Some? ==> o.reservations[i].intent.value < |o.intents|))
    && (o.sameCurrency ==> o.intents == [] && o.fxLegs == [] && |o.reservations| <= 1 && o.leg.amount == o.amount)
  }

  /** The reservation exists, is for the order's amount and rests on both controls. */
  predicate Controlled(o: Order) {
    && |o.reservations| == 1
    && Last(o.authorizations) == Some(Passed)
    && Last(o.compliances) == Some(Passed)
    && o.reservations[0].amount == o.amount
  }

  /** Everything a successful same-currency close rests on; `answers` are the consumption answers that may occur. */
  predicate Fulfilled(o: Order, answers: set<ReservationState>) {
    && Controlled(o)
    && (exists x :: x in answers && x != Reserved && x != ReservationRequested
                    && o.reservations[0].trail == [ReservationRequested, Reserved, x])
  }

  /** The causal chain of a same-currency order. */
  predicate Chain(o: Order, h: History, answers: set<ReservationState>) {
    o.sameCurrency ==>
      && (o.reservations != [] ==> Controlled(o))
      && (h.pursued ==> 0 in h.funded && Controlled(o) && [ReservationRequested, Reserved] <= o.reservations[0].trail)
      && (h.pursued && !Terminal(o.state) ==> |o.reservations[0].trail| == 2)
      && (o.state == OperationallyClosed ==> h.pursued && Fulfilled(o, answers))
  }

  /** The legs of the trade are those of one accepted quote, and the value leg is for what the quote buys. */
  predicate Traded(o: Order) {
    && |o.fxLegs| == 2
    && exists x :: 0 <= x < |o.intents| && o.fxLegs[0].amount == o.intents[x].sold
                   && o.fxLegs[1].amount == o.intents[x].bought && o.leg.amount == o.intents[x].bought
  }

  /** The trade of a cross-currency order: no message goes out before both of its legs are final. */
  predicate Trade(o: Order, h: History) {
    !o.sameCurrency ==>
      && (o.fxLegs != [] ==> Traded(o))
      && (forall i :: 0 <= i < |o.fxLegs| && i < 2 && o.fxLegs[i].state != LegPending ==> Names(o.facts, FX_ROLES[i]))
      && (h.pursued ==> |o.fxLegs| == 2 && FxLegsFinal(o))
      && (o.state == OperationallyClosed ==> h.pursued)
  }

  predicate Sound(o: Order, h: History, answers: set<ReservationState>) {
    Ends(o) && Asked(o, h) && Based(o) && Trails(o, h) && Kinds(o) && Chain(o, h, answers) && Trade(o, h)
  }

  // ----- facts only accumulate -----

  lemma FactsGrow(facts: seq<Fact>, more: seq<Fact>)
    requires facts <= more
    ensures HasBasicKinds(facts) ==> HasBasicKinds(more)
    ensures forall reference :: Names(facts, reference) ==> Names(more, reference)
  {
    forall kind | HasKind(facts, kind)
      ensures HasKind(more, kind)
    {
      var i :| 0 <= i < |facts| && facts[i].kind == kind;
      assert more[i] == facts[i];
    }
    forall reference | Names(facts, reference)
      ensures Names(more, reference)
    {
      var i :| 0 <= i < |facts| && facts[i].reference == reference;
      assert more[i] == facts[i];
    }
  }

  /** Facts added to a row keep it sound. */
  lemma NotingKeepsSound(o: Order, p: Order, h: History, answers: set<ReservationState>)
    requires Sound(o, h, answers) && o.facts <= p.facts && p == o.(facts := p.facts)
    ensures Sound(p, h, answers)
  {
    FactsGrow(o.facts, p.facts);
    if p.fxLegs != [] && !p.sameCurrency {
      assert Traded(o);
    }
  }

  // ----- changes of state -----

  /** A move to an open committed state keeps everything but the state. */
  lemma MovingKeepsSound(o: Order, target: OrderState, outcome: Option<Outcome>, h: History,
                         answers: set<ReservationState>)
    requires Sound(o, h, answers) && Transition(o, target, outcome).Ok?
    requires CommittedState(target) && !Terminal(target) && (outcome == None || outcome == Some(Rejected))
    ensures Sound(Transition(o, target, outcome).value, h, answers)
    ensures !Terminal(o.state)
  {
    TransitionShape(o, target, outcome);
    OpenEditKeepsSound(o, Transition(o, target, outcome).value, h, answers);
  }

  lemma TransitionShape(o: Order, target: OrderState, outcome: Option<Outcome>)
    requires Transition(o, target, outcome).Ok?
    ensures var p := Transition(o, target, outcome).value;
            && (Terminal(o.state) ==> target == o.state && p == o)
            && (!Terminal(o.state) ==>
                  p == o.(state := target, version := o.version + 1,
                          outcome := if outcome.Some? then outcome else o.outcome, closedWith := p.closedWith))
  {
  }

  /** An open order's state, version and refusal may change. */
  lemma OpenEditKeepsSound(o: Order, p: Order, h: History, answers: set<ReservationState>)
    requires Sound(o, h, answers) && !Terminal(o.state) && !Terminal(p.state) && CommittedState(p.state)
    requires p == o.(state := p.state, version := p.version, outcome := p.outcome, closedWith := p.closedWith)
    requires p.outcome == o.outcome || p.outcome == Some(Rejected)
    ensures Sound(p, h, answers)
  {
    TradeFrame(o, p);
  }

  lemma TradeFrame(o: Order, p: Order)
    requires p.fxLegs == o.fxLegs && p.intents == o.intents && p.leg.amount == o.leg.amount
    ensures Traded(p) <==> Traded(o)
  {
  }

  // ----- controls -----

  /** A new decision keeps an order sound, if it does not take back a passed one. */
  lemma DecisionKeepsSound(o: Order, p: Order, h: History, answers: set<ReservationState>)
    requires Sound(o, h, answers) && o.facts <= p.facts
    requires p == o.(facts := p.facts, authorizations := p.authorizations, compliances := p.compliances)
    requires p.authorizations != []
             && (Last(o.authorizations) == Some(Passed) ==> Last(p.authorizations) == Some(Passed))
    requires p.compliances != [] && (Last(o.compliances) == Some(Passed) ==> Last(p.compliances) == Some(Passed))
    ensures Sound(p, h, answers)
  {
    FactsGrow(o.facts, p.facts);
    TradeFrame(o, p);
  }

  lemma AuthorizationWrites(o: Order, passed: bool)
    requires o.authorizations != []
    ensures
      var p := NoteAuthorization(o, passed);
      && o.facts <= p.facts && p == o.(facts := p.facts, authorizations := p.authorizations) && p.authorizations != []
      && (Last(o.authorizations) == Some(Passed) || passed ==> Last(p.authorizations) == Some(Passed))
  {
  }

  lemma ComplianceWrites(o: Order)
    requires o.compliances != []
    ensures
      var p := NoteCompliance(o);
      && o.facts <= p.facts && p == o.(facts := p.facts, compliances := p.compliances) && p.compliances != []
      && (Last(o.compliances) == Some(Passed) || !ScreenedOut(o) ==> Last(p.compliances) == Some(Passed))
  {
  }

  lemma AuthorizationKeepsSound(o: Order, passed: bool, h: History, answers: set<ReservationState>)
    requires Sound(o, h, answers)
    ensures Sound(NoteAuthorization(o, passed), h, answers)
    ensures passed ==> Last(NoteAuthorization(o, passed).authorizations) == Some(Passed)
  {
    AuthorizationWrites(o, passed);
    DecisionKeepsSound(o, NoteAuthorization(o, passed), h, answers);
  }

  lemma ComplianceKeepsSound(o: Order, h: History, answers: set<ReservationState>)
    requires Sound(o, h, answers)
    ensures Sound(NoteCompliance(o), h, answers) && NoteCompliance(o).authorizations == o.authorizations
    ensures !ScreenedOut(o) ==> Last(NoteCompliance(o).compliances) == Some(Passed)
  {
    ComplianceWrites(o);
    DecisionKeepsSound(o, NoteCompliance(o), h, answers);
  }

  /** An open order may end without success and without a cancellation. */
  lemma RefusalKeepsSound(o: Order, p: Order, h: History, answers: set<ReservationState>)
    requires Sound(o, h, answers) && !Terminal(o.state)
    requires p == o.(state := OperationallyClosedUnsuccessful, version := p.version, outcome := Some(Rejected),
                     closedWith := p.closedWith)
    ensures Sound(p, h, answers)
  {
    TradeFrame(o, p);
  }

  lemma ScreeningOutKeepsSound(o: Order, h: History, answers: set<ReservationState>)
    requires Sound(o, h, answers) && ScreenOut(o).Ok?
    ensures Sound(ScreenOut(o).value.order, h, answers) && ScreenOut(o).value.enqueued == []
  {
    TransitionShape(o, ComplianceRejected, Some(Rejected));
    var o1 := Transition(o, ComplianceRejected, Some(Rejected)).value;
    TransitionShape(o1, OperationallyClosedUnsuccessful, Some(Rejected));
    RefusalKeepsSound(o, ScreenOut(o).value.order, h, answers);
  }

  predicate OnlyFunds(jobs: seq<Job>) {
    jobs == [] || jobs == [Job(FundingReserve, 0)]
  }

  lemma FirstReservationKeepsSound(o: Order, h: History, answers: set<ReservationState>)
    requires Sound(o, h, answers) && o.reservations == [] && o.sameCurrency
    requires Last(o.authorizations) == Some(Passed) && Last(o.compliances) == Some(Passed)
    ensures Sound(o.(reservations := [NewReservation(o.amount, None)]), h, answers)
  {
    assert !h.pursued;
  }

  lemma RequestingFundsKeepsSound(o: Order, h: History, answers: set<ReservationState>)
    requires Sound(o, h, answers) && o.sameCurrency && RequestFunds(o).Ok?
    requires Last(o.authorizations) == Some(Passed) && Last(o.compliances) == Some(Passed)
    ensures Sound(RequestFunds(o).value.order, h, answers) && OnlyFunds(RequestFunds(o).value.enqueued)
  {
    MovingKeepsSound(o, ReservationPending, None, h, answers);
    TransitionShape(o, ReservationPending, None);
    var o1 := Transition(o, ReservationPending, None).value;
    if o1.reservations == [] {
      FirstReservationKeepsSound(o1, h, answers);
    }
  }

  lemma ScreenedInKeepsSound(o: Order, h: History, answers: set<ReservationState>)
    requires Sound(o, h, answers) && AfterScreening(o).Ok?
    requires Last(o.authorizations) == Some(Passed) && Last(o.compliances) == Some(Passed)
    ensures Sound(AfterScreening(o).value.order, h, answers) && OnlyFunds(AfterScreening(o).value.enqueued)
  {
    if o.intents == [] {
      if o.sameCurrency {
        RequestingFundsKeepsSound(o, h, answers);
      } else {
        MovingKeepsSound(o, FxAcceptancePending, None, h, answers);
      }
    }
  }

  lemma ScreeningKeepsSound(o: Order, h: History, answers: set<ReservationState>)
    requires Sound(o, h, answers) && Last(o.authorizations) == Some(Passed)
    requires Screen(o).Ok?
    ensures Sound(Screen(o).value.order, h, answers) && OnlyFunds(Screen(o).value.enqueued)
  {
    ComplianceKeepsSound(o, h, answers);
    if ScreenedOut(o) {
      ScreeningOutKeepsSound(NoteCompliance(o), h, answers);
    } else {
      ScreenedInKeepsSound(NoteCompliance(o), h, answers);
    }
  }

  lemma SuspensionKeepsSound(o: Order, h: History, answers: set<ReservationState>)
    requires Sound(o, h, answers) && Suspend(o).Ok?
    ensures Sound(Suspend(o).value.order, h, answers) && OnlyFunds(Suspend(o).value.enqueued)
  {
    MovingKeepsSound(o, Suspended, Some(Rejected), h, answers);
  }

  lemma CreatedKeepsSound(o: Order, sandbox: bool, a: Answers, h: History, answers: set<ReservationState>)
    requires Sound(o, h, answers) && PaymentCreatedHandler(o, sandbox, a).Ok?
    ensures var r := PaymentCreatedHandler(o, sandbox, a).value; Sound(r.order, h, answers) && OnlyFunds(r.enqueued)
  {
    var authorized := Authorized(o, sandbox, a);
    var o1 := NoteAuthorization(o, authorized);
    AuthorizationKeepsSound(o, authorized, h, answers);
    if authorized {
      ScreeningKeepsSound(o1, h, answers);
    } else {
      SuspensionKeepsSound(o1, h, answers);
    }
  }

  // ----- funding -----

  /** The history after reservation `item` was funded; `messaged` if that queued the message. */
  function Funded(h: History, item: nat, messaged: bool): History {
    h.(funded := h.funded + iset{item}, pursued := h.pursued || messaged)
  }

  predicate Messages(jobs: seq<Job>) {
    jobs == [Job(PaymentMessage, 0)]
  }

  lemma TryingWrites(o: Order, item: nat, a: Answers)
    requires item < |o.reservations|
    ensures
      var p := TryReserve(o, item, a);
      && o.facts <= p.facts && p == o.(facts := p.facts, reservations := p.reservations)
      && p.reservations == o.reservations[item := o.reservations[item].Move(a.reserve)]
  {
  }

  lemma TryingKeepsTrails(o: Order, item: nat, a: Answers, h: History)
    requires Trails(o, h) && Kinds(o) && item < |o.reservations| && item !in h.funded
    ensures Trails(TryReserve(o, item, a), Funded(h, item, false)) && Kinds(TryReserve(o, item, a))
    ensures TryReserve(o, item, a).reservations[item].trail == [ReservationRequested, a.reserve]
  {
  }

  /** A reservation whose event has not been handled moves from PENDING; the order is funded by it, not yet pursued. */
  lemma TryingKeepsSound(o: Order, item: nat, a: Answers, h: History, answers: set<ReservationState>)
    requires Sound(o, h, answers) && item < |o.reservations| && item !in h.funded
    ensures Sound(TryReserve(o, item, a), Funded(h, item, false), answers)
    ensures TryReserve(o, item, a).reservations[item].trail == [ReservationRequested, a.reserve]
    ensures o.sameCurrency ==> !h.pursued && item == 0
  {
    var p := TryReserve(o, item, a);
    TryingWrites(o, item, a);
    FactsGrow(o.facts, p.facts);
    TryingKeepsTrails(o, item, a, h);
    TradeFrame(o, p);
  }

  /** Fully reserved, a same-currency order may send its message. */
  lemma PursuingKeepsSound(o: Order, h: History, answers: set<ReservationState>)
    requires Sound(o, h, answers) && o.sameCurrency && !Terminal(o.state) && 0 in h.funded
    requires |o.reservations| == 1 && o.reservations[0].trail == [ReservationRequested, Reserved]
    ensures Sound(o, h.(pursued := true), answers)
  {
  }

  /** An ended order may still be pursued by the message of a late reservation. */
  lemma LatePursuitKeepsSound(o: Order, h: History, answers: set<ReservationState>)
    requires Sound(o, h, answers) && o.sameCurrency && Terminal(o.state) && 0 in h.funded
    requires |o.reservations| == 1 && o.reservations[0].trail == [ReservationRequested, Reserved]
    ensures Sound(o, h.(pursued := true), answers)
  {
  }

  lemma ReadyingKeepsSound(o: Order, x: nat, h: History, answers: set<ReservationState>)
    requires Sound(o, h, answers) && x < |o.intents|
    ensures Sound(o.(intents := o.intents[x := o.intents[x].(state := ReadyToAccept)]), h, answers)
  {
    IntentEditKeepsSound(o, x, ReadyToAccept, h, answers);
  }

  lemma IntentEditKeepsSound(o: Order, x: nat, state: IntentState, h: History, answers: set<ReservationState>)
    requires Sound(o, h, answers) && x < |o.intents|
    ensures Sound(o.(intents := o.intents[x := o.intents[x].(state := state)]), h, answers)
  {
    var p := o.(intents := o.intents[x := o.intents[x].(state := state)]);
    if o.fxLegs != [] && !o.sameCurrency {
      var y :| 0 <= y < |o.intents| && o.fxLegs[0].amount == o.intents[y].sold
               && o.fxLegs[1].amount == o.intents[y].bought && o.leg.amount == o.intents[y].bought;
      assert p.intents[y].sold == o.intents[y].sold && p.intents[y].bought == o.intents[y].bought;
    }
  }

  lemma MessagingKeepsSound(o: Order, queued: bool, h: History, answers: set<ReservationState>)
    requires Sound(o, h, answers) && o.sameCurrency && 0 in h.funded
    requires |o.reservations| == 1 && o.reservations[0].trail == [ReservationRequested, Reserved]
    ensures Sound(o, h.(pursued := h.pursued || !queued), answers)
  {
    if queued {
      assert h.(pursued := h.pursued || !queued) == h;
    } else if Terminal(o.state) {
      LatePursuitKeepsSound(o, h, answers);
    } else {
      PursuingKeepsSound(o, h, answers);
    }
  }

  lemma AcceptingKeepsSound(o: Order, x: nat, queued: bool, h: History, answers: set<ReservationState>)
    requires Sound(o, h, answers) && x < |o.intents| && Proceed(o, Some(x), queued).Ok?
    ensures
      var r := Proceed(o, Some(x), queued).value;
      Sound(r.order, h, answers) && (r.enqueued == [] || r.enqueued == [Job(FxAccept, x)])
  {
    if o.intents[x].state == Preparing {
      var o1 := o.(intents := o.intents[x := o.intents[x].(state := ReadyToAccept)]);
      ReadyingKeepsSound(o, x, h, answers);
      MovingKeepsSound(o1, FxAcceptancePending, None, h, answers);
    }
  }

  lemma ProceedingKeepsSound(o: Order, intent: Option<nat>, queued: bool, h: History, answers: set<ReservationState>)
    requires Sound(o, h, answers) && Proceed(o, intent, queued).Ok?
    requires o.sameCurrency ==>
               && intent.None? && 0 in h.funded
               && |o.reservations| == 1 && o.reservations[0].trail == [ReservationRequested, Reserved]
    requires !o.sameCurrency ==> intent.Some? && intent.value < |o.intents|
    ensures
      var r := Proceed(o, intent, queued).value;
      && Sound(r.order, h.(pursued := h.pursued || Messages(r.enqueued)), answers)
      && (r.enqueued == [] || Messages(r.enqueued) || (intent.Some? && r.enqueued == [Job(FxAccept, intent.value)]))
  {
    if o.sameCurrency {
      MessagingKeepsSound(o, queued, h, answers);
    } else {
      AcceptingKeepsSound(o, intent.value, queued, h, answers);
      assert h.(pursued := h.pursued || false) == h;
    }
  }

  lemma FundingKeepsSound(o: Order, item: nat, a: Answers, queued: bool, h: History, answers: set<ReservationState>)
    requires Sound(o, h, answers) && item !in h.funded && FundingHandler(o, item, a, queued).Ok?
    ensures
      var r := FundingHandler(o, item, a, queued).value;
      && Sound(r.order, Funded(h, item, Messages(r.enqueued)), answers)
      && (r.enqueued == [] || Messages(r.enqueued) || (|r.enqueued| == 1 && r.enqueued[0].topic == FxAccept))
  {
    assert o.reservations[item].trail == [ReservationRequested];
    TryingKeepsSound(o, item, a, h, answers);
    var o1, intent := TryReserve(o, item, a), o.reservations[item].intent;
    if AllReserved(o1, intent) {
      assert o1.reservations[item].state == Reserved;
      ProceedingKeepsSound(o1, intent, queued, Funded(h, item, false), answers);
    }
  }

  // ----- the trade -----

  predicate OnlySettles(jobs: seq<Job>) {
    jobs == [] || jobs == [Job(SettlementSubmit, 0), Job(SettlementSubmit, 1)]
  }

  lemma TradeNotes(o: Order, x: nat, state: IntentState, h: History, answers: set<ReservationState>)
    requires Sound(o, h, answers) && x < |o.intents|
    requires Transition(o.(intents := o.intents[x := o.intents[x].(state := state)]), FxAccepted, None).Ok?
    ensures
      var o1 := Transition(o.(intents := o.intents[x := o.intents[x].(state := state)]), FxAccepted, None).value;
      var p := AppendFact(o1, Fx, Numbered("fxi_", x));
      && Sound(p, h, answers) && p.fxLegs == o.fxLegs && p.leg == o.leg && |p.intents| == |o.intents|
      && p.intents[x].sold == o.intents[x].sold && p.intents[x].bought == o.intents[x].bought
  {
    var o0 := o.(intents := o.intents[x := o.intents[x].(state := state)]);
    IntentEditKeepsSound(o, x, state, h, answers);
    MovingKeepsSound(o0, FxAccepted, None, h, answers);
    TransitionShape(o0, FxAccepted, None);
    var o1 := Transition(o0, FxAccepted, None).value;
    NotingKeepsSound(o1, AppendFact(o1, Fx, Numbered("fxi_", x)), h, answers);
  }

  lemma TradeKeepsSound(o: Order, x: nat, a: Answers, h: History, answers: set<ReservationState>)
    requires Sound(o, h, answers) && TradeHandler(o, x, a).Ok?
    ensures
      var r := TradeHandler(o, x, a).value;
      Sound(r.order, h, answers) && OnlySettles(r.enqueued)
  {
    var intent := o.intents[x];
    if intent.state != TradeAccepted {
      TradeNotes(o, x, a.trade, h, answers);
      var o1 := Transition(o.(intents := o.intents[x := intent.(state := a.trade)]), FxAccepted, None).value;
      LegsKeepSound(AppendFact(o1, Fx, Numbered("fxi_", x)), x, h, answers);
    }
  }

  /** The legs of the trade enter with the amounts of the accepted quote. */
  lemma LegsKeepSound(o: Order, x: nat, h: History, answers: set<ReservationState>)
    requires Sound(o, h, answers) && x < |o.intents| && o.fxLegs == []
    ensures Sound(o.(leg := o.leg.(amount := o.intents[x].bought),
                     fxLegs := [Leg(o.intents[x].sold, LegPending), Leg(o.intents[x].bought, LegPending)]), h, answers)
  {
    assert !o.sameCurrency && !h.pursued;
  }

  lemma LegSubmissionKeepsSound(o: Order, i: nat, a: Answers, h: History, answers: set<ReservationState>)
    requires Sound(o, h, answers) && i < |o.fxLegs| && o.fxLegs[i].state != LegFinal
    ensures Sound(SubmitFxLeg(o, i, a), h, answers) && !h.pursued
  {
    var p := SubmitFxLeg(o, i, a);
    FactsGrow(o.facts, p.facts);
    assert p.facts[|o.facts|].reference == FX_ROLES[i];
    assert Names(p.facts, FX_ROLES[i]);
    assert p.fxLegs[0].amount == o.fxLegs[0].amount && p.fxLegs[1].amount == o.fxLegs[1].amount;
  }

  lemma SettlementKeepsSound(o: Order, i: nat, a: Answers, queued: bool, h: History, answers: set<ReservationState>)
    requires Sound(o, h, answers) && SettlementHandler(o, i, a, queued).Ok?
    ensures
      var r := SettlementHandler(o, i, a, queued).value;
      && Sound(r.order, h.(pursued := h.pursued || Messages(r.enqueued)), answers)
      && (r.enqueued == [] || Messages(r.enqueued))
  {
    if o.fxLegs[i].state != LegFinal {
      LegSubmissionKeepsSound(o, i, a, h, answers);
      var o1 := SubmitFxLeg(o, i, a);
      if FxLegsFinal(o1) && !queued {
        TradedPursuitKeepsSound(o1, h, answers);
      }
    }
  }

  lemma TradedPursuitKeepsSound(o: Order, h: History, answers: set<ReservationState>)
    requires Sound(o, h, answers) && o.fxLegs != [] && FxLegsFinal(o)
    ensures Sound(o, h.(pursued := true), answers)
  {
  }

  /** The row with a new intent and its two reservations. */
  predicate AddsIntent(o: Order, p: Order, intent: Intent) {
    && o.facts <= p.facts
    && p == o.(facts := p.facts, intents := o.intents + [intent],
               reservations := o.reservations + [NewReservation(o.amount, Some(|o.intents|)),
                                                 NewReservation(intent.bought, Some(|o.intents|))])
  }

  lemma IntentKeepsTrails(o: Order, p: Order, intent: Intent, h: History)
    requires Trails(o, h) && Kinds(o) && !o.sameCurrency && AddsIntent(o, p, intent)
    ensures Trails(p, h) && Kinds(p)
  {
  }

  lemma IntentKeepsTraded(o: Order, p: Order, intent: Intent)
    requires Traded(o) && AddsIntent(o, p, intent)
    ensures Traded(p)
  {
    var y :| 0 <= y < |o.intents| && o.fxLegs[0].amount == o.intents[y].sold
             && o.fxLegs[1].amount == o.intents[y].bought && o.leg.amount == o.intents[y].bought;
    assert p.intents[y] == o.intents[y];
  }

  /** A new intent and its reservations keep a cross-currency order sound, whatever its state. */
  lemma IntentKeepsSound(o: Order, p: Order, intent: Intent, h: History, answers: set<ReservationState>)
    requires Sound(o, h, answers) && !o.sameCurrency && AddsIntent(o, p, intent)
    ensures Sound(p, h, answers)
  {
    FactsGrow(o.facts, p.facts);
    IntentKeepsTrails(o, p, intent, h);
    if o.fxLegs != [] {
      IntentKeepsTraded(o, p, intent);
    }
  }

  // ----- message -----

  predicate OnlyPays(jobs: seq<Job>) {
    jobs == [] || jobs == [Job(PaymentValue, 0)]
  }

  lemma MessageKeepsSound(o: Order, a: Answers, queued: bool, h: History, answers: set<ReservationState>)
    requires Sound(o, h, answers) && MessageHandler(o, a, queued).Ok?
    ensures
      var r := MessageHandler(o, a, queued).value;
      Sound(r.order, h, answers) && OnlyPays(r.enqueued)
  {
    var o1 := AppendFact(o, Message, "payment-message");
    NotingKeepsSound(o, o1, h, answers);
    if a.delivery == Undelivered {
      MovingKeepsSound(o1, Suspended, None, h, answers);
    } else {
      MovingKeepsSound(o1, MessageDelivered, None, h, answers);
    }
  }

  // ----- moving reservations -----

  function Moved(o: Order, i: nat, j: nat, next: nat -> ReservationState): Reservation
    requires j < |o.reservations|
  {
    if i <= j && o.reservations[j].state == Reserved then o.reservations[j].Move(next(j)) else o.reservations[j]
  }

  /** The loop over reservations moves exactly the RESERVED ones, each once, and touches nothing but facts besides. */
  lemma {:induction false} MoveIsPointwise(o: Order, i: nat, next: nat -> ReservationState, noted: bool)
    requires i <= |o.reservations|
    ensures
      var r := MoveReserved(o, i, next, noted);
      && |r.reservations| == |o.reservations|
      && (forall j :: 0 <= j < |o.reservations| ==> r.reservations[j] == Moved(o, i, j, next))
      && o.facts <= r.facts && (!noted ==> r.facts == o.facts)
      && r == o.(reservations := r.reservations, facts := r.facts)
    decreases |o.reservations| - i
  {
    if i < |o.reservations| {
      if o.reservations[i].state != Reserved {
        MoveIsPointwise(o, i + 1, next, noted);
      } else {
        var moved := o.(reservations := o.reservations[i := o.reservations[i].Move(next(i))]);
        MoveIsPointwise(if noted then AppendFact(moved, Funding, Numbered("res_", i)) else moved, i + 1, next, noted);
      }
    }
  }

  // ----- value and completion -----

  /** What the customer side of a close writes, row by row. */
  lemma CustomerSideWrites(o: Order, a: Answers)
    requires o.credits == [] && o.state == ValueSettlement
    ensures CompleteCustomer(o, a).Ok?
    ensures
      var r := CompleteCustomer(o, a).value;
      && o.facts <= r.facts && |r.reservations| == |o.reservations|
      && (forall j :: 0 <= j < |o.reservations| ==> r.reservations[j] == Moved(o, 0, j, a.consume))
      && r == o.(state := CustomerCompleted, outcome := Some(Completed), version := r.version, facts := r.facts,
                 reservations := r.reservations, credits := [Credit(Credited, true)],
                 reconciliations := o.reconciliations + [Matched])
  {
    MoveIsPointwise(o, 0, a.consume, true);
    TransitionShape(CreditBeneficiary(MoveReserved(o, 0, a.consume, true)), CustomerCompleted, Some(Completed));
  }

  /** No reservation is RESERVED or PENDING once the RESERVED ones have got their consumption answers. */
  predicate Frees(o: Order, a: Answers) {
    forall j :: 0 <= j < |o.reservations| ==>
                  var after := if o.reservations[j].state == Reserved then a.consume(j) else o.reservations[j].state;
                  after != Reserved && after != ReservationRequested
  }

  /** The facts the order's profile asks for are there. */
  predicate Documented(o: Order) {
    HasBasicKinds(o.facts) && (!o.sameCurrency ==> Names(o.facts, "FX_SELL") && Names(o.facts, "FX_BUY"))
  }

  lemma DocumentedSuffices(o: Order)
    requires Documented(o)
    ensures FactsShown(o)
  {
    FactsShownExactly(o);
    if o.sameCurrency {
      BasicKindsSuffice(o.facts);
    } else {
      FxFactsSuffice(o.facts);
    }
  }

  lemma ClosingIsLegal(o: Order)
    ensures Transition(o, OperationallyClosed, Some(Completed)).Ok? <==>
            o.state == CustomerCompleted || o.state == OperationallyClosed
    ensures o.state == CustomerCompleted ==>
              Transition(o, OperationallyClosed, Some(Completed))
              == Ok(o.(state := OperationallyClosed, outcome := Some(Completed), version := o.version + 1,
                       closedWith := Some(Completed)))
  {
  }

  lemma ClosingCall(o: Order)
    ensures SingleCredit(o) && Allows(o, ProfileOf(o)) ==>
              CloseOperationally(o) == Transition(o, OperationallyClosed, Some(Completed))
    ensures !(SingleCredit(o) && Allows(o, ProfileOf(o))) ==> CloseOperationally(o).Err?
  {
  }

  /** The closing call goes through exactly when the customer side is complete (or the order is closed already), the
      facts are there, no reservation is RESERVED or PENDING, no case is open, a reconciliation is MATCHED, every leg is
      final, exactly one credited row exists and is evidenced, and a journal is posted. */
  lemma GateOpensExactlyWhen(o: Order)
    ensures CloseOperationally(o).Ok? <==>
            (o.state == CustomerCompleted || o.state == OperationallyClosed) && MayClose(o)
    ensures CloseOperationally(o).Ok? && o.state == CustomerCompleted ==>
              CloseOperationally(o).value == o.(state := OperationallyClosed, outcome := Some(Completed),
                                                version := o.version + 1, closedWith := Some(Completed))
  {
    PolicyInRows(o);
    ClosingIsLegal(o);
    ClosingCall(o);
  }

  lemma GateForCompleted(o: Order)
    requires o.credits == [Credit(Credited, true)] && Matched in o.reconciliations && Documented(o)
    requires o.state == CustomerCompleted && AllLegsFinal(o)
    ensures CloseOperationally(o).Ok? <==>
            && (forall i :: 0 <= i < |o.reservations| ==>
                  o.reservations[i].state != Reserved && o.reservations[i].state != ReservationRequested)
            && o.openCases == 0 && o.postedJournals > 0
    ensures CloseOperationally(o).Ok? ==>
              CloseOperationally(o).value == o.(state := OperationallyClosed, outcome := Some(Completed),
                                                version := o.version + 1, closedWith := Some(Completed))
  {
    DocumentedSuffices(o);
    GateOpensExactlyWhen(o);
    assert o.credits[0] == Credit(Credited, true);
  }

  /** The rows of a close, against those before it. */
  predicate ClosedRows(o: Order, p: Order, a: Answers) {
    && o.facts <= p.facts && |p.reservations| == |o.reservations|
    && (forall j :: 0 <= j < |o.reservations| ==> p.reservations[j] == Moved(o, 0, j, a.consume))
    && p == o.(state := OperationallyClosed, outcome := Some(Completed), closedWith := Some(Completed),
               version := p.version, facts := p.facts, reservations := p.reservations,
               leg := o.leg.(state := LegFinal), credits := [Credit(Credited, true)],
               reconciliations := o.reconciliations + [Matched])
  }

  lemma FreedMeansNoneOpen(o: Order, p: Order, a: Answers)
    requires |p.reservations| == |o.reservations|
    requires forall j :: 0 <= j < |o.reservations| ==> p.reservations[j] == Moved(o, 0, j, a.consume)
    ensures Frees(o, a) <==>
            forall j :: 0 <= j < |p.reservations| ==>
                          p.reservations[j].state != Reserved && p.reservations[j].state != ReservationRequested
  {
    forall j | 0 <= j < |o.reservations|
      ensures p.reservations[j].state
              == if o.reservations[j].state == Reserved then a.consume(j) else o.reservations[j].state
    {
      assert p.reservations[j] == Moved(o, 0, j, a.consume);
    }
  }

  /** The close of an order whose value is final, and the rows it leaves. */
  lemma CompletionCloses(o: Order, a: Answers)
    requires o.credits == [] && o.state == ValueSettlement && AllLegsFinal(o) && Documented(o)
    ensures CompletePayment(o, a).Ok? <==> Frees(o, a) && o.openCases == 0 && o.postedJournals > 0
    ensures CompletePayment(o, a).Ok? ==> ClosedRows(o, CompletePayment(o, a).value, a)
  {
    CustomerSideWrites(o, a);
    var o1 := CompleteCustomer(o, a).value;
    FactsGrow(o.facts, o1.facts);
    FreedMeansNoneOpen(o, o1, a);
    GateForCompleted(o1);
  }

  lemma SubmissionKeepsSound(o: Order, a: Answers, h: History, answers: set<ReservationState>)
    requires Sound(o, h, answers) && o.leg.state != LegFinal && a.settlement != LegFinal
    ensures Sound(SubmitValue(o, a), h, answers)
  {
    var p := SubmitValue(o, a);
    FactsGrow(o.facts, p.facts);
    TradeFrame(o, p);
  }

  /** A pursued order has everything its profile asks for. */
  lemma PursuedIsDocumented(o: Order, h: History, answers: set<ReservationState>)
    requires Sound(o, h, answers) && h.pursued
    ensures Documented(o) && FxLegsFinal(o)
  {
    if !o.sameCurrency {
      assert o.fxLegs[0].state == LegFinal && o.fxLegs[1].state == LegFinal;
      assert Names(o.facts, FX_ROLES[0]) && Names(o.facts, FX_ROLES[1]);
    }
  }

  /** The rows of a close, against those before an earlier step of the same transaction. */
  lemma ClosedRowsFrom(o: Order, o1: Order, p: Order, a: Answers)
    requires o.facts <= o1.facts && o1.leg.amount == o.leg.amount && ClosedRows(o1, p, a)
    requires o1 == o.(facts := o1.facts, leg := o1.leg, state := o1.state, version := o1.version,
                      outcome := o1.outcome, closedWith := o1.closedWith)
    ensures ClosedRows(o, p, a)
  {
    SubmittingKeepsMoves(o, o1, a);
  }

  lemma SettlingIsLegal(o: Order)
    requires CommittedState(o.state) && !Terminal(o.state)
    ensures Transition(o, ValueSettlement, None).Ok? <==> o.state == MessageDelivered || o.state == Suspended
  {
  }

  lemma FinishStarts(o: Order, a: Answers, r: Result<Order>)
    requires r == Transition(o, ValueSettlement, None)
    ensures r.Err? ==> FinishPayment(o, a).Err?
    ensures r.Ok? ==> FinishPayment(o, a) == CompletePayment(r.value, a)
  {
  }

  lemma FinishCloses(o: Order, a: Answers)
    requires o.credits == [] && AllLegsFinal(o) && Documented(o) && CommittedState(o.state) && !Terminal(o.state)
    ensures FinishPayment(o, a).Ok? <==>
            && (o.state == MessageDelivered || o.state == Suspended)
            && Frees(o, a) && o.openCases == 0 && o.postedJournals > 0
    ensures FinishPayment(o, a).Ok? ==> ClosedRows(o, FinishPayment(o, a).value, a)
  {
    SettlingIsLegal(o);
    FinishStarts(o, a, Transition(o, ValueSettlement, None));
    if o.state == MessageDelivered || o.state == Suspended {
      TransitionShape(o, ValueSettlement, None);
      var o1 := Transition(o, ValueSettlement, None).value;
      CompletionCloses(o1, a);
      SubmittingKeepsMoves(o, o1, a);
      if CompletePayment(o1, a).Ok? {
        ClosedRowsFrom(o, o1, CompletePayment(o1, a).value, a);
      }
    }
  }

  lemma SubmissionWrites(o: Order, a: Answers)
    requires a.settlement == LegFinal
    ensures
      var p := SubmitValue(o, a);
      o.facts <= p.facts && p == o.(facts := p.facts, leg := o.leg.(state := LegFinal))
    ensures o.leg.state != LegFinal ==>
              var r := FinishPayment(SubmitValue(o, a), a);
              && (ValueHandler(o, a).Ok? <==> r.Ok?)
              && (r.Ok? ==> ValueHandler(o, a).value == Effect(r.value, []))
  {
  }

  /** A final answer for the value leg closes an open pursued order exactly when the message has gone out (or the order
      was parked), no reservation stays open, no case is open and a journal is posted. */
  lemma FinalityCloses(o: Order, a: Answers, h: History, answers: set<ReservationState>)
    requires Sound(o, h, answers) && h.pursued && !Terminal(o.state) && a.settlement == LegFinal
    ensures ValueHandler(o, a).Ok? <==>
            && (o.state == MessageDelivered || o.state == Suspended)
            && Frees(o, a) && o.openCases == 0 && o.postedJournals > 0
    ensures ValueHandler(o, a).Ok? ==> Closes(o, ValueHandler(o, a).value, a)
  {
    PursuedIsDocumented(o, h, answers);
    var o1 := SubmitValue(o, a);
    SubmissionWrites(o, a);
    FactsGrow(o.facts, o1.facts);
    FinishCloses(o1, a);
    SubmittingKeepsMoves(o, o1, a);
    if FinishPayment(o1, a).Ok? {
      ClosedRowsFrom(o, o1, FinishPayment(o1, a).value, a);
    }
  }

  lemma SubmittingKeepsMoves(o: Order, p: Order, a: Answers)
    requires p.reservations == o.reservations
    ensures Frees(p, a) <==> Frees(o, a)
    ensures forall j :: 0 <= j < |o.reservations| ==> Moved(p, 0, j, a.consume) == Moved(o, 0, j, a.consume)
  {
    assert forall j :: 0 <= j < |o.reservations| ==> Moved(p, 0, j, a.consume) == Moved(o, 0, j, a.consume);
  }

  /** The outcome of a close: its rows, no event, and what it rests on. */
  predicate Closes(o: Order, r: Effect, a: Answers) {
    r.enqueued == [] && ClosedRows(o, r.order, a) && Frees(o, a) && o.postedJournals > 0
  }

  lemma ClosingKeepsSound(o: Order, r: Effect, a: Answers, h: History, answers: set<ReservationState>)
    requires Sound(o, h, answers) && h.pursued && !Terminal(o.state) && Closes(o, r, a)
    requires forall j :: a.consume(j) in answers
    ensures Sound(r.order, h, answers)
  {
    var p := r.order;
    FactsGrow(o.facts, p.facts);
    TradeFrame(o, p);
    ClosingKeepsTrails(o, r, a, h);
    if o.sameCurrency {
      assert o.reservations[0].trail == [ReservationRequested, Reserved];
      assert p.reservations[0] == o.reservations[0].Move(a.consume(0));
      assert p.reservations[0].trail == [ReservationRequested, Reserved, a.consume(0)];
    }
  }

  lemma ClosingKeepsTrails(o: Order, r: Effect, a: Answers, h: History)
    requires Trails(o, h) && Kinds(o) && Closes(o, r, a)
    ensures Trails(r.order, h) && Kinds(r.order)
  {
    forall j | 0 <= j < |r.order.reservations|
      ensures var q := r.order.reservations[j];
              && q.trail != [] && q.trail[|q.trail| - 1] == q.state && q.intent == o.reservations[j].intent
              && (j !in h.funded ==> q.trail == [ReservationRequested])
    {
      assert r.order.reservations[j] == Moved(o, 0, j, a.consume);
    }
  }

  lemma ValueKeepsSound(o: Order, a: Answers, h: History, answers: set<ReservationState>)
    requires Sound(o, h, answers) && h.pursued && ValueHandler(o, a).Ok?
    requires forall j :: a.consume(j) in answers
    ensures Sound(ValueHandler(o, a).value.order, h, answers) && ValueHandler(o, a).value.enqueued == []
  {
    if o.leg.state != LegFinal {
      if a.settlement != LegFinal {
        SubmissionKeepsSound(o, a, h, answers);
      } else if Terminal(o.state) {
        TerminalStaysPut(SubmitValue(o, a), ValueSettlement, None);
        assert false;
      } else {
        FinalityCloses(o, a, h, answers);
        ClosingKeepsSound(o, ValueHandler(o, a).value, a, h, answers);
      }
    }
  }

  lemma TerminalStaysPut(o: Order, target: OrderState, outcome: Option<Outcome>)
    requires Terminal(o.state) && target != o.state
    ensures Transition(o, target, outcome).Err?
  {
  }

  // ----- cancellation -----

  /** An accepted cancellation ends an open order, and releases what is RESERVED. */
  lemma AcceptanceWrites(o: Order, item: nat)
    requires item < |o.cancellations| && AcceptCancellation(o, item).Ok?
    ensures !Terminal(o.state) && Acceptable(o.cancellations[item])
    ensures
      var r := AcceptCancellation(o, item).value;
      && |r.reservations| == |o.reservations|
      && (forall j :: 0 <= j < |o.reservations| ==> r.reservations[j] == Moved(o, 0, j, ToReleased()))
      && r == o.(state := OperationallyClosedUnsuccessful, outcome := Some(Cancelled), closedWith := Some(Cancelled),
                 version := r.version, reservations := r.reservations,
                 cancellations := o.cancellations[item := CancelAccepted])
  {
    var o2 := o.(cancellations := o.cancellations[item := CancelAccepted]);
    assert o.cancellations[item := CancelSent][item := CancelAccepted] == o2.cancellations;
    MoveIsPointwise(o2, 0, ToReleased(), false);
    var o3 := MoveReserved(o2, 0, ToReleased(), false);
    TransitionShape(o3, ExecutionCancelled, Some(Cancelled));
    var o4 := Transition(o3, ExecutionCancelled, Some(Cancelled)).value;
    TransitionShape(o4, OperationallyClosedUnsuccessful, Some(Cancelled));
    assert forall j :: 0 <= j < |o.reservations| ==> Moved(o2, 0, j, ToReleased()) == Moved(o, 0, j, ToReleased());
  }

  function Answered(h: History): History {
    h.(cancelHandled := true)
  }

  /** The rows of an accepted cancellation, against those before it. */
  predicate AcceptedRows(o: Order, p: Order) {
    && |p.reservations| == |o.reservations|
    && (forall j :: 0 <= j < |o.reservations| ==> p.reservations[j] == Moved(o, 0, j, ToReleased()))
    && p == o.(state := OperationallyClosedUnsuccessful, outcome := Some(Cancelled), closedWith := Some(Cancelled),
               version := p.version, reservations := p.reservations, cancellations := [CancelAccepted])
  }

  lemma AcceptedKeepsChain(o: Order, p: Order, h: History, answers: set<ReservationState>)
    requires Chain(o, h, answers) && AcceptedRows(o, p) && !Terminal(o.state)
    ensures Chain(p, Answered(h), answers)
  {
    if o.sameCurrency && h.pursued {
      assert p.reservations[0] == Moved(o, 0, 0, ToReleased());
    }
  }

  lemma AcceptedKeepsSound(o: Order, p: Order, h: History, answers: set<ReservationState>)
    requires Sound(o, h, answers) && !Terminal(o.state) && o.cancellations != [] && AcceptedRows(o, p)
    ensures Sound(p, Answered(h), answers)
  {
    TradeFrame(o, p);
    ReleasingKeepsTrails(o, p, h);
    AcceptedKeepsChain(o, p, h, answers);
  }

  lemma AcceptanceKeepsSound(o: Order, h: History, answers: set<ReservationState>)
    requires Sound(o, h, answers) && o.cancellations != [] && AcceptCancellation(o, 0).Ok?
    ensures Sound(AcceptCancellation(o, 0).value, Answered(h), answers)
  {
    AcceptanceWrites(o, 0);
    assert o.cancellations[0 := CancelAccepted] == [CancelAccepted];
    AcceptedKeepsSound(o, AcceptCancellation(o, 0).value, h, answers);
  }

  lemma ReleasingKeepsTrails(o: Order, p: Order, h: History)
    requires Trails(o, h) && Kinds(o) && |p.reservations| == |o.reservations|
    requires forall j :: 0 <= j < |o.reservations| ==> p.reservations[j] == Moved(o, 0, j, ToReleased())
    requires p.sameCurrency == o.sameCurrency && p.intents == o.intents && p.fxLegs == o.fxLegs
    requires p.leg == o.leg && p.amount == o.amount
    ensures Trails(p, h) && Kinds(p)
  {
  }

  lemma DenialKeepsSound(o: Order, h: History, answers: set<ReservationState>)
    requires Sound(o, h, answers) && o.cancellations != [] && MoveCancellation(o, 0, CancelRejected).Ok?
    ensures Sound(MoveCancellation(o, 0, CancelRejected).value, Answered(h), answers)
  {
    var p := MoveCancellation(o, 0, CancelRejected).value;
    assert p.cancellations == [CancelRejected] && o.cancellations == [o.cancellations[0]];
    assert o.cancellations[0] != CancelAccepted;
    TradeFrame(o, p);
  }

  /** An undecided answer fits no state a request can be in, so its handler raises. */
  lemma UndecidedIsRefused(o: Order, h: History)
    requires Asked(o, h) && o.cancellations != []
    ensures MoveCancellation(o, 0, CancelUnknown).Err?
  {
  }

  lemma AnswerKeepsSound(o: Order, a: Answers, h: History, answers: set<ReservationState>)
    requires Sound(o, h, answers) && o.cancellations != [] && AnswerCancellation(o, 0, a).Ok?
    ensures Sound(AnswerCancellation(o, 0, a).value, Answered(h), answers)
  {
    UndecidedIsRefused(o, h);
    if a.cancel == CancelGranted && o.leg.state != LegFinal {
      AcceptanceKeepsSound(o, h, answers);
    } else if a.cancel == CancelDenied {
      DenialKeepsSound(o, h, answers);
    } else {
      HandlingKeepsSound(o, h, answers);
    }
  }

  lemma CancellationKeepsSound(o: Order, a: Answers, h: History, answers: set<ReservationState>)
    requires Sound(o, h, answers) && CancellationHandler(o, 0, a).Ok?
    ensures Sound(CancellationHandler(o, 0, a).value.order, Answered(h), answers)
    ensures CancellationHandler(o, 0, a).value.enqueued == []
  {
    var o1 := AppendFact(o, Cancellation, Numbered("can_", 0));
    NotingKeepsSound(o, o1, h, answers);
    AnswerKeepsSound(o1, a, h, answers);
  }

  lemma HandlingKeepsSound(o: Order, h: History, answers: set<ReservationState>)
    requires Sound(o, h, answers)
    ensures Sound(o, Answered(h), answers)
  {
  }

  /** A first request adds its row and its fact, and its event. */
  lemma RequestKeepsSound(o: Order, p: Order, h: History, answers: set<ReservationState>)
    requires Sound(o, h, answers) && o.cancellations == [] && o.facts <= p.facts
    requires p == o.(facts := p.facts, cancellations := [CancelRequested])
    ensures Sound(p, h.(cancelQueued := true), answers)
  {
    FactsGrow(o.facts, p.facts);
    TradeFrame(o, p);
  }
}

/** The turns on a new payment and on its reservations, in every run. */
module SagaControlTurns {
  import opened Results
  import opened Orders
  import opened LimitDesk
  import opened Outbox
  import opened Handlers
  import opened Saga
  import opened SagaInvariant
  import opened SagaTables
  import opened SagaSafety
  import opened SagaRows
  import opened SagaLimits
  import opened SagaTurns

  // ----- controls -----

  /** The payment may go on: in the sandbox, by an earlier decision, or because the authorization service says so. */
  predicate Permitted(o: Order, sandbox: bool, a: Answers)
    requires o.authorizations != []
  {
    sandbox || o.authorizations[|o.authorizations| - 1] == Passed || a.authorizes
  }

  /** Screening lets the payment pass, earlier or now. */
  predicate Clean(o: Order)
    requires o.compliances != []
  {
    o.compliances[|o.compliances| - 1] == Passed || o.screeningPasses
  }

  /** The decisions with a new one, unless the last one passed. */
  function Decided(decisions: seq<Decision>, passed: bool): seq<Decision>
    requires decisions != []
  {
    if decisions[|decisions| - 1] == Passed then decisions else decisions + [if passed then Passed else Refused]
  }

  lemma AuthorizationOutcome(o: Order, sandbox: bool, a: Answers)
    requires o.authorizations != []
    ensures Authorized(o, sandbox, a) == Permitted(o, sandbox, a)
    ensures
      var p := NoteAuthorization(o, Permitted(o, sandbox, a));
      p == o.(authorizations := Decided(o.authorizations, Permitted(o, sandbox, a)), facts := p.facts)
  {
  }

  lemma ComplianceOutcome(o: Order)
    requires o.compliances != []
    ensures ScreenedOut(o) == !Clean(o)
    ensures
      var p := NoteCompliance(o);
      p == o.(compliances := Decided(o.compliances, o.screeningPasses), facts := p.facts)
  {
  }

  lemma SuspendOutcome(o: Order)
    requires CommittedState(o.state)
    ensures
      var r := Suspend(o);
      if o.state !in {OperationallyClosed, OperationallyClosedUnsuccessful} then
        r.Ok? && r.value.enqueued == [] && StaysAsItEnds(o, r.value.order)
        && r.value.order == o.(state := Suspended, outcome := Some(Rejected), version := o.version + 1)
      else r.Err?
  {
    Predecessors(o.state);
  }

  lemma ScreenOutOutcome(o: Order)
    requires CommittedState(o.state)
    ensures
      var r := ScreenOut(o);
      if o.state == ControlChecks then
        r.Ok? && r.value.enqueued == []
        && r.value.order == o.(state := OperationallyClosedUnsuccessful, outcome := Some(Rejected),
                               closedWith := Some(Rejected), version := o.version + 2)
      else r.Err?
  {
    Predecessors(o.state);
    Predecessors(ComplianceRejected);
  }

  const NO_TRADE: Option<nat> := None

  lemma FundsOutcome(o: Order)
    requires CommittedState(o.state) && o.sameCurrency && o.intents == []
    ensures
      var r := AfterScreening(o);
      if o.state !in {ControlChecks, ReservationPending, Suspended} then r.Err?
      else
        r.Ok? && StaysAsItEnds(o, r.value.order)
        && r.value.enqueued == (if o.reservations == [] then [Job(FundingReserve, 0)] else [])
        && r.value.order == o.(state := ReservationPending, version := o.version + 1,
                               reservations := if o.reservations != [] then o.reservations
                                               else [Reservation(o.amount, NO_TRADE, ReservationRequested,
                                                                 [ReservationRequested])])
  {
    Predecessors(o.state);
  }

  lemma BarrierOutcome(o: Order)
    requires CommittedState(o.state) && !o.sameCurrency && o.intents == []
    ensures
      var r := AfterScreening(o);
      if o.state !in {ControlChecks, FxAcceptancePending, Suspended} then r.Err?
      else r.Ok? && r.value.enqueued == [] && StaysAsItEnds(o, r.value.order)
           && r.value.order == o.(state := FxAcceptancePending, version := o.version + 1)
  {
    Predecessors(o.state);
  }

  /** What a permitted and clean payment becomes: a trade under way goes on, an order in one currency asks for its
      funds, one in two waits at the FX barrier. */
  predicate Continued(s: State, t: State, id: nat, k: nat, o: Order)
    requires id < |s.events| && k < |s.orders|
  {
    if o.intents != [] then Wrote(s, t, id, k, o, [])
    else if o.sameCurrency && o.state in {ControlChecks, ReservationPending, Suspended} then
      if o.reservations != [] then
        Wrote(s, t, id, k, o.(state := ReservationPending, version := o.version + 1), [])
      else
        var requested := Reservation(o.amount, NO_TRADE, ReservationRequested, [ReservationRequested]);
        Wrote(s, t, id, k, o.(state := ReservationPending, version := o.version + 1, reservations := [requested]),
              [NewEvent(FundingReserve, ReservationKey(k, 0), 0, s.now)])
    else if !o.sameCurrency && o.state in {ControlChecks, FxAcceptancePending, Suspended} then
      Wrote(s, t, id, k, o.(state := FxAcceptancePending, version := o.version + 1), [])
    else Raised(s, t, id)
  }

  /** A payment found by the screening ends as REJECTED, unless it has left its controls or overdraws its scope. */
  predicate ScreenEnds(s: State, t: State, id: nat, k: nat, o: Order)
    requires id < |s.events| && k < |s.orders|
  {
    if o.state == ControlChecks && !Overdrawn(s.Desk(), s.orders[k]) then
      Wrote(s, t, id, k, o.(state := OperationallyClosedUnsuccessful, outcome := Some(Rejected),
                            closedWith := Some(Rejected), version := o.version + 2), [])
    else Raised(s, t, id)
  }

  /** What the turn on a new payment comes to: without permission the order is SUSPENDED and refused; found by the
      screening it ends, unless it overdraws its scope; otherwise it goes on. The decisions are recorded. */
  predicate CreatedTurned(s: State, t: State, id: nat, k: nat, a: Answers)
    requires id < |s.events| && k < |s.orders| && s.orders[k].authorizations != [] && s.orders[k].compliances != []
  {
    k < |t.orders|
    && var o := s.orders[k];
       var permitted := Permitted(o, s.sandbox, a);
       var o1 := o.(authorizations := Decided(o.authorizations, permitted), facts := t.orders[k].facts);
       var o2 := o1.(compliances := Decided(o.compliances, o.screeningPasses));
       if !permitted then
         if o.state !in {OperationallyClosed, OperationallyClosedUnsuccessful} then
           Wrote(s, t, id, k, o1.(state := Suspended, outcome := Some(Rejected), version := o.version + 1), [])
         else Raised(s, t, id)
       else if !Clean(o) then ScreenEnds(s, t, id, k, o2)
       else Continued(s, t, id, k, o2)
  }

  lemma CreatedDispatch(s: State, id: nat, a: Answers, k: nat)
    requires Waiting(s, id, PaymentCreated, k) && k < |s.orders| && s.orders[k].authorizations != []
    ensures
      var o := s.orders[k];
      var permitted := Permitted(o, s.sandbox, a);
      var noted := NoteAuthorization(o, permitted);
      Dispatch(s, s.events[id], a) == if permitted then Screen(noted) else Suspend(noted)
  {
    AuthorizationOutcome(s.orders[k], s.sandbox, a);
  }

  /** An order as the controls need it: committed, and with both decisions pending or taken. */
  predicate Decidable(o: Order) {
    CommittedState(o.state) && o.authorizations != [] && o.compliances != []
  }

  lemma RefusedTurnAt(s: State, w: Worker, id: nat, a: Answers, k: nat)
    requires ReceiptsHold(s) && Leased(s, w, id, PaymentCreated, k) && Decidable(s.orders[k])
    requires !Permitted(s.orders[k], s.sandbox, a)
    ensures CreatedTurned(s, Turn(s, w, id, a), id, k, a)
  {
    var o := s.orders[k];
    var noted := NoteAuthorization(o, false);
    AuthorizationOutcome(o, s.sandbox, a);
    CreatedDispatch(s, id, a, k);
    SuspendOutcome(noted);
    if Suspend(noted).Ok? {
      QuietTurnWrites(s, w, id, PaymentCreated, a, k, Suspend(noted).value.order);
    } else {
      OutcomeIsRefused(s, w, id, PaymentCreated, a, k);
    }
  }

  lemma ScreenDispatch(s: State, id: nat, a: Answers, k: nat)
    requires Waiting(s, id, PaymentCreated, k) && k < |s.orders| && Decidable(s.orders[k])
    requires Permitted(s.orders[k], s.sandbox, a)
    ensures
      var noted := NoteCompliance(NoteAuthorization(s.orders[k], true));
      && Dispatch(s, s.events[id], a) == (if Clean(s.orders[k]) then AfterScreening(noted) else ScreenOut(noted))
      && noted == s.orders[k].(authorizations := Decided(s.orders[k].authorizations, true),
                               compliances := Decided(s.orders[k].compliances, s.orders[k].screeningPasses),
                               facts := noted.facts)
  {
    CreatedDispatch(s, id, a, k);
    AuthorizationOutcome(s.orders[k], s.sandbox, a);
    ComplianceOutcome(NoteAuthorization(s.orders[k], true));
  }

  lemma ScreenEndsAt(s: State, w: Worker, id: nat, a: Answers, k: nat, noted: Order)
    requires ReceiptsHold(s) && CountersAgree(s.Desk()) && Leased(s, w, id, PaymentCreated, k)
    requires Dispatch(s, s.events[id], a) == ScreenOut(noted) && CommittedState(noted.state)
    requires noted.state == s.orders[k].state
    ensures ScreenEnds(s, Turn(s, w, id, a), id, k, noted)
  {
    ScreenOutOutcome(noted);
    if ScreenOut(noted).Ok? {
      EndingTurnWrites(s, w, id, PaymentCreated, a, k, ScreenOut(noted).value.order);
    } else {
      OutcomeIsRefused(s, w, id, PaymentCreated, a, k);
    }
  }

  lemma ScreenEndsFacts(s: State, t: State, id: nat, k: nat, o: Order)
    requires id < |s.events| && k < |s.orders| && ScreenEnds(s, t, id, k, o)
    ensures k < |t.orders| && ScreenEnds(s, t, id, k, o.(facts := t.orders[k].facts))
  {
    if Raised(s, t, id) {
      assert t.Desk().orders == s.Desk().orders;
    }
  }

  lemma ScreenedOutTurnAt(s: State, w: Worker, id: nat, a: Answers, k: nat)
    requires ReceiptsHold(s) && CountersAgree(s.Desk())
    requires Leased(s, w, id, PaymentCreated, k) && Decidable(s.orders[k])
    requires Permitted(s.orders[k], s.sandbox, a) && !Clean(s.orders[k])
    ensures CreatedTurned(s, Turn(s, w, id, a), id, k, a)
  {
    var noted := NoteCompliance(NoteAuthorization(s.orders[k], true));
    ScreenDispatch(s, id, a, k);
    ScreenEndsAt(s, w, id, a, k, noted);
    ScreenEndsFacts(s, Turn(s, w, id, a), id, k, noted);
  }

  lemma TradeUnderWayTurnAt(s: State, w: Worker, id: nat, a: Answers, k: nat, noted: Order)
    requires ReceiptsHold(s) && Leased(s, w, id, PaymentCreated, k) && noted.intents != []
    requires Dispatch(s, s.events[id], a) == AfterScreening(noted) && StaysAsItEnds(s.orders[k], noted)
    ensures Continued(s, Turn(s, w, id, a), id, k, noted)
  {
    assert AfterScreening(noted) == Ok(Effect(noted, []));
    QuietTurnWrites(s, w, id, PaymentCreated, a, k, noted);
  }

  lemma ContinuesAt(s: State, w: Worker, id: nat, a: Answers, k: nat, noted: Order)
    requires ReceiptsHold(s) && RowsExist(s) && AllWellKeyed(s.events) && Leased(s, w, id, PaymentCreated, k)
    requires Dispatch(s, s.events[id], a) == AfterScreening(noted) && StaysAsItEnds(s.orders[k], noted)
    requires CommittedState(noted.state) && noted.state == s.orders[k].state
    requires noted.reservations == s.orders[k].reservations
    ensures Continued(s, Turn(s, w, id, a), id, k, noted)
  {
    if noted.intents != [] {
      TradeUnderWayTurnAt(s, w, id, a, k, noted);
    } else if noted.sameCurrency {
      FundsTurnAt(s, w, id, a, k, noted);
    } else {
      BarrierTurnAt(s, w, id, a, k, noted);
    }
  }

  /** The facts are whatever the turn leaves. */
  lemma ContinuedFacts(s: State, t: State, id: nat, k: nat, o: Order)
    requires id < |s.events| && k < |s.orders| && Continued(s, t, id, k, o)
    ensures k < |t.orders| && Continued(s, t, id, k, o.(facts := t.orders[k].facts))
  {
    if Raised(s, t, id) {
      assert t.Desk().orders == s.Desk().orders;
    }
  }

  lemma ContinuedTurnAt(s: State, w: Worker, id: nat, a: Answers, k: nat)
    requires ReceiptsHold(s) && RowsExist(s) && AllWellKeyed(s.events)
    requires Leased(s, w, id, PaymentCreated, k) && Decidable(s.orders[k])
    requires Permitted(s.orders[k], s.sandbox, a) && Clean(s.orders[k])
    ensures CreatedTurned(s, Turn(s, w, id, a), id, k, a)
  {
    var noted := NoteCompliance(NoteAuthorization(s.orders[k], true));
    ScreenDispatch(s, id, a, k);
    ContinuesAt(s, w, id, a, k, noted);
    ContinuedFacts(s, Turn(s, w, id, a), id, k, noted);
  }

  lemma BarrierTurnAt(s: State, w: Worker, id: nat, a: Answers, k: nat, noted: Order)
    requires ReceiptsHold(s) && Leased(s, w, id, PaymentCreated, k)
    requires Dispatch(s, s.events[id], a) == AfterScreening(noted) && StaysAsItEnds(s.orders[k], noted)
    requires CommittedState(noted.state) && !noted.sameCurrency && noted.intents == []
             && noted.state == s.orders[k].state
    ensures
      var t := Turn(s, w, id, a);
      if noted.state in {ControlChecks, FxAcceptancePending, Suspended} then
        Wrote(s, t, id, k, noted.(state := FxAcceptancePending, version := noted.version + 1), [])
      else Raised(s, t, id)
  {
    BarrierOutcome(noted);
    if AfterScreening(noted).Ok? {
      QuietTurnWrites(s, w, id, PaymentCreated, a, k, AfterScreening(noted).value.order);
    } else {
      OutcomeIsRefused(s, w, id, PaymentCreated, a, k);
    }
  }

  lemma FundsTurnAt(s: State, w: Worker, id: nat, a: Answers, k: nat, noted: Order)
    requires ReceiptsHold(s) && RowsExist(s) && AllWellKeyed(s.events) && Leased(s, w, id, PaymentCreated, k)
    requires Dispatch(s, s.events[id], a) == AfterScreening(noted) && StaysAsItEnds(s.orders[k], noted)
    requires CommittedState(noted.state) && noted.sameCurrency && noted.intents == []
             && noted.state == s.orders[k].state
    requires noted.reservations == s.orders[k].reservations
    ensures Continued(s, Turn(s, w, id, a), id, k, noted)
  {
    FundsOutcome(noted);
    var r := AfterScreening(noted);
    if r.Err? {
      OutcomeIsRefused(s, w, id, PaymentCreated, a, k);
    } else if noted.reservations != [] {
      QuietTurnWrites(s, w, id, PaymentCreated, a, k, r.value.order);
    } else {
      NoEventWithoutRow(s, k, FundingReserve, 0);
      JobTurnWrites(s, w, id, PaymentCreated, a, k, r.value.order, Job(FundingReserve, 0));
    }
  }

  lemma CreatedTurnAt(s: State, w: Worker, id: nat, a: Answers, k: nat)
    requires ReceiptsHold(s) && RowsExist(s) && AllWellKeyed(s.events) && CountersAgree(s.Desk())
    requires Leased(s, w, id, PaymentCreated, k) && Decidable(s.orders[k])
    ensures CreatedTurned(s, Turn(s, w, id, a), id, k, a)
  {
    if !Permitted(s.orders[k], s.sandbox, a) {
      RefusedTurnAt(s, w, id, a, k);
    } else if !Clean(s.orders[k]) {
      ScreenedOutTurnAt(s, w, id, a, k);
    } else {
      ContinuedTurnAt(s, w, id, a, k);
    }
  }

  /** The turn on a new payment, in every run. */
  lemma {:induction false} CreatedTurn(now: int, sandbox: bool, steps: seq<Step>, w: Worker, id: nat, a: Answers,
                                       k: nat)
    requires Leased(Run(Start(now, sandbox), steps), w, id, PaymentCreated, k)
    ensures
      var s := Run(Start(now, sandbox), steps);
      && s.orders[k].authorizations != [] && s.orders[k].compliances != []
      && CreatedTurned(s, Turn(s, w, id, a), id, k, a)
  {
    TablesOf(now, sandbox, steps, k);
    SagaCountersMatchOrders(now, sandbox, steps);
    CreatedTurnAt(Run(Start(now, sandbox), steps), w, id, a, k);
  }

  lemma TablesOf(now: int, sandbox: bool, steps: seq<Step>, k: nat)
    requires k < |Run(Start(now, sandbox), steps).orders|
    ensures
      var s := Run(Start(now, sandbox), steps);
      TablesHold(s) && RowsExist(s) && Decidable(s.orders[k])
  {
    Reachable(now, sandbox, steps);
    RunKeepsRows(now, sandbox, steps);
    var s := Run(Start(now, sandbox), steps);
    assert Sound(s.orders[k], HistoryOf(s, k), AllReservationStates());
  }
}

/** The turns on the reservations of an order, in every run. */
module SagaFundingTurns {
  import opened Results
  import opened Orders
  import opened Outbox
  import opened Handlers
  import opened Saga
  import opened SagaInvariant
  import opened SagaTables
  import opened SagaSafety
  import opened SagaRows
  import opened SagaLimits
  import opened SagaTurns

  /** Reservation `item` gets the answer of the funding account; its history is PENDING and the answer. */
  function WithAnswer(o: Order, item: nat, answer: ReservationState): seq<Reservation>
    requires item < |o.reservations|
  {
    o.reservations[item := o.reservations[item].(state := answer, trail := [ReservationRequested, answer])]
  }

  /** Every reservation of this purpose is RESERVED. */
  predicate AllMadeFor(reservations: seq<Reservation>, intent: Option<nat>) {
    forall i :: 0 <= i < |reservations| && reservations[i].intent == intent ==> reservations[i].state == Reserved
  }

  /** A reservation that waits for its answer, in a row as every run leaves it. */
  predicate Unfunded(o: Order, item: nat) {
    && CommittedState(o.state) && item < |o.reservations|
    && o.reservations[item].state == ReservationRequested && o.reservations[item].trail == [ReservationRequested]
    && (o.reservations[item].intent.Some? ==> o.reservations[item].intent.value < |o.intents|)
  }

  lemma TriedOutcome(o: Order, item: nat, a: Answers)
    requires Unfunded(o, item)
    ensures
      var p := TryReserve(o, item, a);
      && p == o.(reservations := WithAnswer(o, item, a.reserve), facts := p.facts)
      && OneFact(o.facts, p.facts, Funding, Numbered("res_", item))
      && AllReserved(p, o.reservations[item].intent)
         == AllMadeFor(WithAnswer(o, item, a.reserve), o.reservations[item].intent)
  {
    assert [ReservationRequested] + [a.reserve] == [ReservationRequested, a.reserve];
  }

  lemma AcceptanceOutcome(o: Order, x: nat, queued: bool)
    requires CommittedState(o.state) && x < |o.intents|
    ensures
      var r := Proceed(o, Some(x), queued);
      if o.intents[x].state != Preparing then r == Ok(Effect(o, []))
      else if o.state in {ControlChecks, FxAcceptancePending, Suspended} then
        r.Ok? && r.value.enqueued == [Job(FxAccept, x)] && StaysAsItEnds(o, r.value.order)
        && r.value.order == o.(state := FxAcceptancePending, version := o.version + 1,
                               intents := o.intents[x := o.intents[x].(state := ReadyToAccept)])
      else r.Err?
  {
    Predecessors(o.state);
  }

  /** What completing the reservations of a trade comes to: its acceptance is asked for, once. */
  predicate TradeProceeds(s: State, t: State, id: nat, k: nat, o: Order, x: nat)
    requires id < |s.events| && k < |s.orders| && x < |o.intents|
  {
    if o.intents[x].state != Preparing then Wrote(s, t, id, k, o, [])
    else if o.state in {ControlChecks, FxAcceptancePending, Suspended} then
      Wrote(s, t, id, k, o.(state := FxAcceptancePending, version := o.version + 1,
                            intents := o.intents[x := o.intents[x].(state := ReadyToAccept)]),
            [NewEvent(FxAccept, IntentKey(k, x), x, s.now)])
    else Raised(s, t, id)
  }

  predicate FundsProceed(s: State, t: State, id: nat, k: nat, o: Order, intent: Option<nat>)
    requires id < |s.events| && k < |s.orders| && (intent.Some? ==> intent.value < |o.intents|)
  {
    if !AllMadeFor(o.reservations, intent) then Wrote(s, t, id, k, o, [])
    else if intent.None? then Wrote(s, t, id, k, o, [NewEvent(PaymentMessage, OrderKey(k), 0, s.now)])
    else TradeProceeds(s, t, id, k, o, intent.value)
  }

  /** What the turn on a reservation comes to. The reservation takes the answer. When that makes all reservations of
      its purpose RESERVED, the message goes out, or the acceptance of the trade is asked for. */
  predicate FundingTurned(s: State, t: State, id: nat, k: nat, a: Answers)
    requires id < |s.events| && k < |s.orders| && Unfunded(s.orders[k], s.events[id].item)
  {
    k < |t.orders|
    && var o, item := s.orders[k], s.events[id].item;
       && FundsProceed(s, t, id, k, o.(reservations := WithAnswer(o, item, a.reserve), facts := t.orders[k].facts),
                       o.reservations[item].intent)
       && (id in t.ran ==> OneFact(o.facts, t.orders[k].facts, Funding, Numbered("res_", item)))
  }

  /** Neither a message nor the acceptance of the trade has been asked for. */
  predicate Unasked(s: State, k: nat, intent: Option<nat>) {
    if intent.None? then !Enqueued(s.events, PaymentMessage, OrderKey(k))
    else !Enqueued(s.events, FxAccept, IntentKey(k, intent.value))
  }

  lemma TradeProceedsAt(s: State, w: Worker, id: nat, a: Answers, k: nat, tried: Order, x: nat, queued: bool)
    requires ReceiptsHold(s) && Leased(s, w, id, FundingReserve, k) && x < |tried.intents|
    requires CommittedState(tried.state) && StaysAsItEnds(s.orders[k], tried) && tried.state == s.orders[k].state
    requires Dispatch(s, s.events[id], a) == Proceed(tried, Some(x), queued) && Unasked(s, k, Some(x))
    ensures TradeProceeds(s, Turn(s, w, id, a), id, k, tried, x)
  {
    AcceptanceOutcome(tried, x, queued);
    var r := Proceed(tried, Some(x), queued);
    if r.Err? {
      OutcomeIsRefused(s, w, id, FundingReserve, a, k);
    } else if r.value.enqueued == [] {
      QuietTurnWrites(s, w, id, FundingReserve, a, k, r.value.order);
    } else {
      JobTurnWrites(s, w, id, FundingReserve, a, k, r.value.order, Job(FxAccept, x));
    }
  }

  lemma FundsProceedAt(s: State, w: Worker, id: nat, a: Answers, k: nat, tried: Order, intent: Option<nat>)
    requires ReceiptsHold(s) && Leased(s, w, id, FundingReserve, k)
    requires intent.Some? ==> intent.value < |tried.intents|
    requires CommittedState(tried.state) && StaysAsItEnds(s.orders[k], tried) && tried.state == s.orders[k].state
    requires Unasked(s, k, intent)
    requires Dispatch(s, s.events[id], a)
             == if AllMadeFor(tried.reservations, intent)
                then Proceed(tried, intent, Queued(s.events, PaymentMessage, OrderKey(k))) else Ok(Effect(tried, []))
    ensures FundsProceed(s, Turn(s, w, id, a), id, k, tried, intent)
  {
    if !AllMadeFor(tried.reservations, intent) {
      QuietTurnWrites(s, w, id, FundingReserve, a, k, tried);
    } else if intent.None? {
      assert !Queued(s.events, PaymentMessage, OrderKey(k));
      JobTurnWrites(s, w, id, FundingReserve, a, k, tried, Job(PaymentMessage, 0));
    } else {
      TradeProceedsAt(s, w, id, a, k, tried, intent.value, Queued(s.events, PaymentMessage, OrderKey(k)));
    }
  }

  lemma FundsFacts(s: State, t: State, id: nat, k: nat, o: Order, intent: Option<nat>)
    requires id < |s.events| && k < |s.orders| && (intent.Some? ==> intent.value < |o.intents|)
    requires FundsProceed(s, t, id, k, o, intent) && id !in s.ran
    ensures k < |t.orders| && FundsProceed(s, t, id, k, o.(facts := t.orders[k].facts), intent)
    ensures id in t.ran ==> t.orders[k].facts == o.facts
  {
    if Raised(s, t, id) {
      assert t.Desk().orders == s.Desk().orders;
    }
  }

  lemma FundingDispatch(s: State, id: nat, a: Answers, k: nat)
    requires Waiting(s, id, FundingReserve, k) && k < |s.orders| && Unfunded(s.orders[k], s.events[id].item)
    ensures
      var item := s.events[id].item;
      var tried, intent := TryReserve(s.orders[k], item, a), s.orders[k].reservations[item].intent;
      Dispatch(s, s.events[id], a)
      == if AllMadeFor(tried.reservations, intent)
         then Proceed(tried, intent, Queued(s.events, PaymentMessage, OrderKey(k))) else Ok(Effect(tried, []))
  {
    TriedOutcome(s.orders[k], s.events[id].item, a);
  }

  lemma FundingTurnAt(s: State, w: Worker, id: nat, a: Answers, k: nat)
    requires ReceiptsHold(s) && Leased(s, w, id, FundingReserve, k) && Unfunded(s.orders[k], s.events[id].item)
    requires Unasked(s, k, s.orders[k].reservations[s.events[id].item].intent)
    ensures FundingTurned(s, Turn(s, w, id, a), id, k, a)
  {
    var item := s.events[id].item;
    var tried, intent := TryReserve(s.orders[k], item, a), s.orders[k].reservations[item].intent;
    FundingDispatch(s, id, a, k);
    TriedOutcome(s.orders[k], item, a);
    FundsProceedAt(s, w, id, a, k, tried, intent);
    FundsFacts(s, Turn(s, w, id, a), id, k, tried, intent);
  }

  lemma UnfundedAt(o: Order, h: History, item: nat)
    requires Sound(o, h, AllReservationStates()) && item < |o.reservations| && item !in h.funded
    ensures Unfunded(o, item)
    ensures o.reservations[item].intent.None? ==> !h.pursued
  {
  }

  lemma WaitingIsUnfunded(s: State, id: nat, k: nat)
    requires Inv(s, AllReservationStates()) && Waiting(s, id, FundingReserve, k) && k < |s.orders|
    ensures s.events[id].item !in HistoryOf(s, k).funded
  {
    WaitingIsUnhandled(s, id, FundingReserve, k);
  }

  /** The acceptance of a trade is asked for when the last of its reservations is made. */
  lemma AcceptanceWaits(s: State, id: nat, k: nat, x: nat)
    requires AcceptsAreFunded(s) && TablesHold(s) && Waiting(s, id, FundingReserve, k) && k < |s.orders|
    requires s.events[id].item < |s.orders[k].reservations|
    requires s.orders[k].reservations[s.events[id].item].intent == Some(x)
    ensures !Enqueued(s.events, FxAccept, IntentKey(k, x))
  {
    WaitingIsUnhandled(s, id, FundingReserve, k);
    forall i | 0 <= i < |s.events| && s.events[i].topic == FxAccept
      ensures s.events[i].aggregate != IntentKey(k, x)
    {
      assert WellKeyed(s.events[i]);
    }
  }

  lemma FundingIsUnasked(s: State, id: nat, k: nat)
    requires Inv(s, AllReservationStates()) && RowsExist(s) && AcceptsAreFunded(s)
    requires Waiting(s, id, FundingReserve, k) && k < |s.orders|
    ensures Unfunded(s.orders[k], s.events[id].item)
    ensures Unasked(s, k, s.orders[k].reservations[s.events[id].item].intent)
  {
    var o, item := s.orders[k], s.events[id].item;
    assert HasRow(o, FundingReserve, item);
    assert Sound(o, HistoryOf(s, k), AllReservationStates());
    WaitingIsUnfunded(s, id, k);
    UnfundedAt(o, HistoryOf(s, k), item);
    if o.reservations[item].intent.Some? {
      AcceptanceWaits(s, id, k, o.reservations[item].intent.value);
    }
  }

  /** The turn on a waiting reservation, in every run. */
  lemma {:induction false} FundingTurn(now: int, sandbox: bool, steps: seq<Step>, w: Worker, id: nat, a: Answers,
                                       k: nat)
    requires Leased(Run(Start(now, sandbox), steps), w, id, FundingReserve, k)
    ensures
      var s := Run(Start(now, sandbox), steps);
      Unfunded(s.orders[k], s.events[id].item) && FundingTurned(s, Turn(s, w, id, a), id, k, a)
  {
    Reachable(now, sandbox, steps);
    RunKeepsRows(now, sandbox, steps);
    RunKeepsAccepts(now, sandbox, steps);
    FundingIsUnasked(Run(Start(now, sandbox), steps), id, k);
    FundingTurnAt(Run(Start(now, sandbox), steps), w, id, a, k);
  }
}

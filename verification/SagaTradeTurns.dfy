/** The turns on the trade of a cross-currency order, in every run: its acceptance and the settlement of its legs. */
module SagaTradeTurns {
  import opened Results
  import opened Orders
  import opened Outbox
  import opened Handlers
  import opened Saga
  import opened SagaInvariant
  import opened SagaTables
  import opened SagaSafety
  import opened SagaRows
  import opened SagaLimits
  import opened SagaTurns

  // ----- acceptance -----

  /** The row of an accepted trade: the intent has its answer, the value leg is for what is bought, and one leg pays
      what is sold and the other takes what is bought. */
  function AcceptedTrade(o: Order, x: nat, answer: IntentState, facts: seq<Fact>): Order
    requires x < |o.intents|
  {
    o.(state := FxAccepted, version := o.version + 1, facts := facts,
       intents := o.intents[x := o.intents[x].(state := answer)],
       leg := o.leg.(amount := o.intents[x].bought),
       fxLegs := [Leg(o.intents[x].sold, LegPending), Leg(o.intents[x].bought, LegPending)])
  }

  lemma TradeOutcome(o: Order, x: nat, a: Answers)
    requires CommittedState(o.state) && x < |o.intents| && o.intents[x].state != TradeAccepted
    ensures
      var r := TradeHandler(o, x, a);
      if o.state in {FxAcceptancePending, FxAccepted} && o.fxLegs == [] then
        && r.Ok? && r.value.enqueued == [Job(SettlementSubmit, 0), Job(SettlementSubmit, 1)]
        && OneFact(o.facts, r.value.order.facts, Fx, Numbered("fxi_", x))
        && r.value.order == AcceptedTrade(o, x, a.trade, r.value.order.facts)
      else r.Err?
  {
    Predecessors(o.state);
  }

  /** What the turn on a trade comes to: an accepted trade stays; an order at the FX barrier without legs takes the
      answer and gets its two legs, each with its event; otherwise the turn fails. */
  predicate TradeTurned(s: State, t: State, id: nat, k: nat, a: Answers)
    requires id < |s.events| && k < |s.orders| && s.events[id].item < |s.orders[k].intents|
  {
    var o, x := s.orders[k], s.events[id].item;
    if o.intents[x].state == TradeAccepted then Wrote(s, t, id, k, o, [])
    else if o.state in {FxAcceptancePending, FxAccepted} && o.fxLegs == [] then
      && k < |t.orders| && OneFact(o.facts, t.orders[k].facts, Fx, Numbered("fxi_", x))
      && Wrote(s, t, id, k, AcceptedTrade(o, x, a.trade, t.orders[k].facts),
               [NewEvent(SettlementSubmit, LegKey(k, 0), 0, s.now), NewEvent(SettlementSubmit, LegKey(k, 1), 1, s.now)])
    else Raised(s, t, id)
  }

  lemma NoLegsNoEvents(s: State, k: nat)
    requires RowsExist(s) && AllWellKeyed(s.events) && k < |s.orders| && s.orders[k].fxLegs == []
    ensures !Enqueued(s.events, SettlementSubmit, LegKey(k, 0)) && !Enqueued(s.events, SettlementSubmit, LegKey(k, 1))
  {
    NoEventWithoutRow(s, k, SettlementSubmit, 0);
    NoEventWithoutRow(s, k, SettlementSubmit, 1);
  }

  lemma LegsTurnAt(s: State, w: Worker, id: nat, a: Answers, k: nat, after: Order)
    requires ReceiptsHold(s) && RowsExist(s) && AllWellKeyed(s.events) && Leased(s, w, id, FxAccept, k)
    requires s.orders[k].fxLegs == [] && StaysAsItEnds(s.orders[k], after)
    requires Dispatch(s, s.events[id], a) == Ok(Effect(after, [Job(SettlementSubmit, 0), Job(SettlementSubmit, 1)]))
    ensures Wrote(s, Turn(s, w, id, a), id, k, after,
                  [NewEvent(SettlementSubmit, LegKey(k, 0), 0, s.now),
                   NewEvent(SettlementSubmit, LegKey(k, 1), 1, s.now)])
  {
    NoLegsNoEvents(s, k);
    TwoJobsTurnWrites(s, w, id, FxAccept, a, k, after, Job(SettlementSubmit, 0), Job(SettlementSubmit, 1));
  }

  lemma TradeTurnAt(s: State, w: Worker, id: nat, a: Answers, k: nat)
    requires ReceiptsHold(s) && RowsExist(s) && AllWellKeyed(s.events) && Leased(s, w, id, FxAccept, k)
    requires s.events[id].item < |s.orders[k].intents| && CommittedState(s.orders[k].state)
    ensures TradeTurned(s, Turn(s, w, id, a), id, k, a)
  {
    var o, x := s.orders[k], s.events[id].item;
    assert Dispatch(s, s.events[id], a) == TradeHandler(o, x, a);
    if o.intents[x].state == TradeAccepted {
      QuietTurnWrites(s, w, id, FxAccept, a, k, o);
    } else {
      TradeOutcome(o, x, a);
      var r := TradeHandler(o, x, a);
      if r.Err? {
        OutcomeIsRefused(s, w, id, FxAccept, a, k);
      } else {
        LegsTurnAt(s, w, id, a, k, r.value.order);
      }
    }
  }

  /** The turn on a waiting acceptance, in every run. */
  lemma {:induction false} TradeTurn(now: int, sandbox: bool, steps: seq<Step>, w: Worker, id: nat, a: Answers, k: nat)
    requires Leased(Run(Start(now, sandbox), steps), w, id, FxAccept, k)
    ensures
      var s := Run(Start(now, sandbox), steps);
      s.events[id].item < |s.orders[k].intents| && TradeTurned(s, Turn(s, w, id, a), id, k, a)
  {
    CommittedOrders(now, sandbox, steps, k);
    Reachable(now, sandbox, steps);
    RunKeepsRows(now, sandbox, steps);
    var s := Run(Start(now, sandbox), steps);
    assert HasRow(s.orders[k], FxAccept, s.events[id].item);
    TradeTurnAt(s, w, id, a, k);
  }

  // ----- the legs -----

  function SettledLegs(o: Order, i: nat, answer: LegState): seq<Leg>
    requires i < |o.fxLegs|
  {
    o.fxLegs[i := o.fxLegs[i].(state := answer)]
  }

  predicate AllFinal(legs: seq<Leg>) {
    forall i :: 0 <= i < |legs| ==> legs[i].state == LegFinal
  }

  function RoleOf(i: nat): string {
    if i == 0 then "FX_SELL" else if i == 1 then "FX_BUY" else ""
  }

  lemma LegOutcome(o: Order, i: nat, a: Answers)
    requires i < |o.fxLegs| && o.fxLegs[i].state != LegFinal
    ensures
      var r := SettlementHandler(o, i, a, false);
      && r.Ok? && OneFact(o.facts, r.value.order.facts, Settlement, RoleOf(i))
      && r.value.order == o.(fxLegs := SettledLegs(o, i, a.settlement), facts := r.value.order.facts)
      && r.value.enqueued == if AllFinal(SettledLegs(o, i, a.settlement)) then [Job(PaymentMessage, 0)] else []
  {
  }

  /** What the turn on a leg comes to: a final leg stays; otherwise it takes the answer, and the message goes out if
      and only if that makes both legs final. */
  predicate LegTurned(s: State, t: State, id: nat, k: nat, a: Answers)
    requires id < |s.events| && k < |s.orders| && s.events[id].item < |s.orders[k].fxLegs|
  {
    var o, i := s.orders[k], s.events[id].item;
    if o.fxLegs[i].state == LegFinal then Wrote(s, t, id, k, o, [])
    else
      && k < |t.orders| && OneFact(o.facts, t.orders[k].facts, Settlement, RoleOf(i))
      && Wrote(s, t, id, k, o.(fxLegs := SettledLegs(o, i, a.settlement), facts := t.orders[k].facts),
               if AllFinal(SettledLegs(o, i, a.settlement)) then [NewEvent(PaymentMessage, OrderKey(k), 0, s.now)]
               else [])
  }

  lemma LegTurnAt(s: State, w: Worker, id: nat, a: Answers, k: nat)
    requires ReceiptsHold(s) && Leased(s, w, id, SettlementSubmit, k) && s.events[id].item < |s.orders[k].fxLegs|
    requires
      s.orders[k].fxLegs[s.events[id].item].state != LegFinal ==> !Enqueued(s.events, PaymentMessage, OrderKey(k))
    ensures LegTurned(s, Turn(s, w, id, a), id, k, a)
  {
    var o, i := s.orders[k], s.events[id].item;
    if o.fxLegs[i].state == LegFinal {
      QuietTurnWrites(s, w, id, SettlementSubmit, a, k, o);
    } else {
      LegOutcome(o, i, a);
      assert !Queued(s.events, PaymentMessage, OrderKey(k));
      var after := SettlementHandler(o, i, a, false).value.order;
      if AllFinal(SettledLegs(o, i, a.settlement)) {
        JobTurnWrites(s, w, id, SettlementSubmit, a, k, after, Job(PaymentMessage, 0));
      } else {
        QuietTurnWrites(s, w, id, SettlementSubmit, a, k, after);
      }
    }
  }

  lemma OpenLegMeansNoMessage(s: State, id: nat, k: nat)
    requires Inv(s, AllReservationStates()) && k < |s.orders| && Waiting(s, id, SettlementSubmit, k)
    requires s.events[id].item < |s.orders[k].fxLegs| && s.orders[k].fxLegs[s.events[id].item].state != LegFinal
    ensures !Enqueued(s.events, PaymentMessage, OrderKey(k))
  {
    assert Sound(s.orders[k], HistoryOf(s, k), AllReservationStates());
    OpenLegIsUnpursued(s.orders[k], HistoryOf(s, k), s.events[id].item);
  }

  lemma OpenLegIsUnpursued(o: Order, h: History, i: nat)
    requires Sound(o, h, AllReservationStates()) && i < |o.fxLegs| && o.fxLegs[i].state != LegFinal
    ensures !h.pursued
  {
  }

  /** The turn on a waiting leg, in every run. */
  lemma {:induction false} LegTurn(now: int, sandbox: bool, steps: seq<Step>, w: Worker, id: nat, a: Answers, k: nat)
    requires Leased(Run(Start(now, sandbox), steps), w, id, SettlementSubmit, k)
    ensures
      var s := Run(Start(now, sandbox), steps);
      s.events[id].item < |s.orders[k].fxLegs| && LegTurned(s, Turn(s, w, id, a), id, k, a)
  {
    Reachable(now, sandbox, steps);
    RunKeepsRows(now, sandbox, steps);
    var s := Run(Start(now, sandbox), steps);
    assert HasRow(s.orders[k], SettlementSubmit, s.events[id].item);
    if s.orders[k].fxLegs[s.events[id].item].state != LegFinal {
      OpenLegMeansNoMessage(s, id, k);
    }
    LegTurnAt(s, w, id, a, k);
  }
}

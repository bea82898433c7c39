/** What requests from outside do, in every run: a payment is created, a quote is accepted, a cancellation is asked
    for, or nothing changes. */
module SagaRequests {
  import opened Results
  import opened Orders
  import opened LimitDesk
  import opened Outbox
  import opened Handlers
  import opened Saga
  import opened SagaTables
  import opened SagaEvents
  import opened SagaSafety
  import opened SagaRows
  import opened SagaTurns
  import opened SagaCancellation
  import opened SagaCompletion

  // ----- a payment -----

  const NEW_FACTS: set<FactKind> :=
    {Message, Authorization, Compliance, Funding, Fx, Settlement, Beneficiary, Reconciliation}

  /** The row of a new payment: its controls are pending, its value leg waits, and each kind of fact has its first. */
  predicate NewRow(o: Order, p: Payment) {
    && o == Order(ControlChecks, None, 1, p.amount, p.sameCurrency, p.screeningPasses, p.scope,
                  if p.profile.Some? then Some(LimitKey(p.scope, p.day)) else None, None,
                  [Undecided], [Undecided], o.facts, [], [], Leg(p.amount, LegPending), [], [], [], 0, 0, [])
    && (forall kind :: kind in NEW_FACTS <==> exists i :: 0 <= i < |o.facts| && o.facts[i].kind == kind)
    && (forall i :: 0 <= i < |o.facts| ==> o.facts[i].sequence == 1)
  }

  /** The amount is reserved on the counter of its scope and day, and on the position of its scope if limited. */
  predicate LimitsTaken(d: Desk, t: Desk, p: Payment) {
    if p.profile.None? then t.counters == d.counters && t.positions == d.positions
    else
      var key := LimitKey(p.scope, p.day);
      && key in t.counters
      && t.counters == d.counters[key := t.counters[key]]
      && t.counters[key].reserved == p.amount + (if key in d.counters then d.counters[key].reserved else 0)
      && t.counters[key].consumed == (if key in d.counters then d.counters[key].consumed else 0)
      && if p.profile.value.exposure.None? then t.positions == d.positions
         else
           && p.scope in t.positions
           && t.positions == d.positions[p.scope := t.positions[p.scope]]
           && t.positions[p.scope].exposure
              == p.amount + (if p.scope in d.positions then d.positions[p.scope].exposure else 0)
  }

  /** A payment is created if and only if its amount is positive and fits into its limits. */
  predicate Created(s: State, t: State, p: Payment) {
    if p.amount > 0 && Fits(s.Desk(), p) then
      && |t.orders| == |s.orders| + 1 && s.orders <= t.orders && NewRow(t.orders[|s.orders|], p)
      && LimitsTaken(s.Desk(), t.Desk(), p)
      && t.events == s.events + [NewEvent(PaymentCreated, OrderKey(|s.orders|), 0, s.now)]
    else t == s
  }

  lemma NewRowIs(p: Payment)
    ensures NewRow(NewOrder(p.amount, p.sameCurrency, p.screeningPasses, p.scope,
                            if p.profile.Some? then Some(LimitKey(p.scope, p.day)) else None), p)
  {
    var o := NewOrder(p.amount, p.sameCurrency, p.screeningPasses, p.scope,
                      if p.profile.Some? then Some(LimitKey(p.scope, p.day)) else None);
    assert o.facts[0].kind == Message && o.facts[1].kind == Authorization && o.facts[2].kind == Compliance
           && o.facts[3].kind == Funding && o.facts[4].kind == Fx && o.facts[5].kind == Settlement
           && o.facts[6].kind == Beneficiary && o.facts[7].kind == Reconciliation && |o.facts| == 8;
  }

  lemma AdditionExactly(d: Desk, p: Payment)
    ensures
      var r := AddOrder(d, p.scope, p.day, p.amount, p.sameCurrency, p.screeningPasses, p.profile);
      && (r.Ok? <==> p.amount > 0 && Fits(d, p))
      && (r.Ok? ==>
            && LimitsTaken(d, r.value, p)
            && r.value.orders
               == d.orders + [NewOrder(p.amount, p.sameCurrency, p.screeningPasses, p.scope,
                                       if p.profile.Some? then Some(LimitKey(p.scope, p.day)) else None)])
  {
  }

  lemma CreationExactly(s: State, p: Payment)
    requires EventsHaveOrders(s)
    ensures
      var d := AddOrder(s.Desk(), p.scope, p.day, p.amount, p.sameCurrency, p.screeningPasses, p.profile);
      && (CreateOrder(s, p).Ok? <==> d.Ok?)
      && (d.Ok? ==> CreateOrder(s, p).value.Desk() == d.value
                    && CreateOrder(s, p).value.events
                       == s.events + [NewEvent(PaymentCreated, OrderKey(|s.orders|), 0, s.now)])
  {
  }

  lemma CreationAt(s: State, p: Payment)
    requires EventsHaveOrders(s)
    ensures Created(s, Apply(s, Create(p)), p)
  {
    CreationExactly(s, p);
    AdditionExactly(s.Desk(), p);
    NewRowIs(p);
    var t := Apply(s, Create(p));
    assert t.orders == t.Desk().orders;
  }

  lemma {:induction false} CreatedExactlyWhen(now: int, sandbox: bool, steps: seq<Step>, p: Payment)
    ensures
      var s := Run(Start(now, sandbox), steps);
      Created(s, Apply(s, Create(p)), p)
  {
    Reachable(now, sandbox, steps);
    CreationAt(Run(Start(now, sandbox), steps), p);
  }

  // ----- a quote -----

  /** No order has an intent for this quote. */
  predicate Unused(orders: seq<Order>, quote: nat) {
    forall j :: 0 <= j < |orders| ==>
                  forall x :: 0 <= x < |orders[j].intents| ==> orders[j].intents[x].quote != quote
  }

  /** A quote is accepted if and only if it is usable, never used before and for a cross-currency order. The order gets
      an intent, and a reservation for each of its two amounts, with the events that fund them. */
  predicate QuoteAccepted(s: State, t: State, k: nat, quote: nat, sold: nat, bought: nat, usable: bool) {
    if k < |s.orders| && usable && !s.orders[k].sameCurrency && Unused(s.orders, quote) then
      && k < |t.orders| && t.ran == s.ran
      && var o, x, n := s.orders[k], |s.orders[k].intents|, |s.orders[k].reservations|;
         && OneFact(o.facts, t.orders[k].facts, Fx, Numbered("fxi_", x))
         && t.Desk() == s.Desk().(orders := s.orders[k := t.orders[k]])
         && t.orders[k]
            == o.(facts := t.orders[k].facts, intents := o.intents + [Intent(quote, sold, bought, Preparing)],
                  reservations := o.reservations
                                  + [Reservation(o.amount, Some(x), ReservationRequested, [ReservationRequested]),
                                     Reservation(bought, Some(x), ReservationRequested, [ReservationRequested])])
         && t.events == s.events + [NewEvent(FundingReserve, ReservationKey(k, n), n, s.now),
                                    NewEvent(FundingReserve, ReservationKey(k, n + 1), n + 1, s.now)]
    else t == s
  }

  lemma IntentRow(o: Order, quote: nat, sold: nat, bought: nat)
    ensures
      var p, x := WithIntent(o, quote, sold, bought), |o.intents|;
      && OneFact(o.facts, p.facts, Fx, Numbered("fxi_", x))
      && p == o.(facts := p.facts, intents := o.intents + [Intent(quote, sold, bought, Preparing)],
                 reservations := o.reservations
                                 + [Reservation(o.amount, Some(x), ReservationRequested, [ReservationRequested]),
                                    Reservation(bought, Some(x), ReservationRequested, [ReservationRequested])])
  {
  }

  lemma TwoFundingsEnqueued(s: State, k: nat)
    requires RowsExist(s) && AllWellKeyed(s.events) && k < |s.orders|
    ensures EnqueueAll(s.events, IntentJobs(s.orders[k]), k, s.now).Ok?
  {
    var n := |s.orders[k].reservations|;
    var i, j := Job(FundingReserve, n), Job(FundingReserve, n + 1);
    NoEventWithoutRow(s, k, FundingReserve, n);
    NoEventWithoutRow(s, k, FundingReserve, n + 1);
    EnqueuedAfterAppend(s.events, EventOf(i, k, s.now), FundingReserve, ReservationKey(k, n + 1));
    EnqueueOne(s.events + [EventOf(i, k, s.now)], j, k, s.now);
    assert [i, j][1..] == [j];
  }

  lemma QuoteExactly(s: State, k: nat, quote: nat, sold: nat, bought: nat, usable: bool)
    requires RowsExist(s) && AllWellKeyed(s.events)
    ensures AcceptFxQuote(s, k, quote, sold, bought, usable).Ok? <==>
            k < |s.orders| && usable && !s.orders[k].sameCurrency && Unused(s.orders, quote)
  {
    assert Unused(s.orders, quote) == !QuoteTaken(s.orders, quote);
    if k < |s.orders| {
      TwoFundingsEnqueued(s, k);
    }
  }

  lemma QuoteAt(s: State, k: nat, quote: nat, sold: nat, bought: nat, usable: bool)
    requires RowsExist(s) && AllWellKeyed(s.events)
    ensures QuoteAccepted(s, Apply(s, AcceptQuote(k, quote, sold, bought, usable)), k, quote, sold, bought, usable)
  {
    QuoteExactly(s, k, quote, sold, bought, usable);
    if AcceptFxQuote(s, k, quote, sold, bought, usable).Ok? {
      QuoteAdds(s, k, quote, sold, bought, usable);
      IntentRow(s.orders[k], quote, sold, bought);
    }
  }

  lemma {:induction false} QuoteAcceptedExactlyWhen(now: int, sandbox: bool, steps: seq<Step>, k: nat, quote: nat,
                                                    sold: nat, bought: nat, usable: bool)
    ensures
      var s := Run(Start(now, sandbox), steps);
      QuoteAccepted(s, Apply(s, AcceptQuote(k, quote, sold, bought, usable)), k, quote, sold, bought, usable)
  {
    Reachable(now, sandbox, steps);
    RunKeepsRows(now, sandbox, steps);
    QuoteAt(Run(Start(now, sandbox), steps), k, quote, sold, bought, usable);
  }

  // ----- a cancellation -----

  /** A request is recorded, with its fact and its event, if and only if the order is open and was never asked. */
  predicate CancellationAsked(s: State, t: State, k: nat) {
    if k < |s.orders| && s.orders[k].cancellations == []
       && s.orders[k].state !in {OperationallyClosed, OperationallyClosedUnsuccessful} then
      && k < |t.orders| && t.ran == s.ran
      && t.Desk() == s.Desk().(orders := s.orders[k := t.orders[k]])
      && t.orders[k] == s.orders[k].(facts := s.orders[k].facts + [Fact(Cancellation, "can_", 1)],
                                     cancellations := [CancelRequested])
      && t.events == s.events + [NewEvent(PaymentCancellation, OrderKey(k), 0, s.now)]
    else t == s
  }

  lemma {:induction false} AskedExactlyWhen(now: int, sandbox: bool, steps: seq<Step>, k: nat)
    ensures
      var s := Run(Start(now, sandbox), steps);
      CancellationAsked(s, Apply(s, RequestCancellation(k)), k)
  {
    RequestAcceptedExactlyWhen(now, sandbox, steps, k);
    AskingWrites(Run(Start(now, sandbox), steps), k);
  }

  lemma AskingWrites(s: State, k: nat)
    requires
      RequestCancel(s, k).Ok? <==>
      k < |s.orders| && !Terminal(s.orders[k].state) && s.orders[k].cancellations == []
    ensures CancellationAsked(s, Apply(s, RequestCancellation(k)), k)
  {
    assert Numbered("can_", 0) == "can_";
  }
}

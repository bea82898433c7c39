/** Every payment in one currency can be completed: from any state a run can reach, its own ten steps close it. */
module SagaCompletion {
  import opened Results
  import opened Orders
  import opened LimitDesk
  import opened Outbox
  import opened Handlers
  import opened Saga
  import opened SagaTables
  import opened SagaFailures
  import opened SagaSafety
  import opened SagaRows
  import opened SagaLimits
  import opened SagaTurns
  import opened SagaControlTurns
  import opened SagaFundingTurns
  import opened SagaEndingTurns

  // ----- the payment and its answers -----

  /** A payment in one currency that screening lets pass and that fits into the limits in force for it. */
  predicate Payable(d: Desk, p: Payment) {
    && p.amount > 0 && p.sameCurrency && p.screeningPasses && Fits(d, p)
  }

  /** The counter of the scope and day has room for the amount, and so has the position of the scope. */
  predicate Fits(d: Desk, p: Payment) {
    p.profile.Some? ==>
      && var key, limits := LimitKey(p.scope, p.day), p.profile.value;
         && (limits.daily.Some? ==>
               (if key in d.counters then d.counters[key].reserved + d.counters[key].consumed else 0) + p.amount
               <= limits.daily.value)
         && (limits.exposure.Some? ==>
               (if p.scope in d.positions then d.positions[p.scope].exposure else 0) + p.amount
               <= limits.exposure.value)
  }

  /** Every connector says yes, and the consumption of the first reservation leaves it neither RESERVED nor PENDING. */
  predicate Favourable(a: Answers) {
    && a.reserve == Reserved && (a.delivery == Delivered || a.delivery == NetworkAcked) && a.settlement == LegFinal
    && a.consume(0) != Reserved && a.consume(0) != ReservationRequested
  }

  /** The ids of the events before this one. */
  function Before(id: nat): (ids: set<nat>)
    ensures forall i: nat :: i in ids <==> i < id
  {
    if id == 0 then {} else Before(id - 1) + {id - 1}
  }

  /** The claim that takes event `id` and leaves the earlier ones to others. */
  function TakeOnly(w: Worker, id: nat): Step {
    Claim(w, 1, Before(id))
  }

  function WorkOff(w: Worker, id: nat, a: Answers): Step {
    Work(w, id, a, false, false)
  }

  // ----- how the order stands between two steps -----

  /** Event `id` is the newest one; it is about row 0 of order `k` and waits to be claimed. */
  predicate Ready(s: State, topic: Topic, k: nat, id: nat) {
    && k < |s.orders| && |s.events| == id + 1 && id !in s.ran
    && s.events[id] == NewEvent(topic, KeyOf(topic, k, 0), 0, s.now)
  }

  /** The row of the payment, with these reservations. */
  predicate StandsAt(o: Order, p: Payment, state: OrderState, reservations: seq<Reservation>) {
    && o.state == state && o.reservations == reservations && o.amount == p.amount && o.sameCurrency && o.screeningPasses
    && o.scope == p.scope && o.leg.amount == p.amount && o.intents == [] && o.openCases == 0
    && o.reconciliations == [] && o.cancellations == []
  }

  /** The tables hold the orders of before, and the payment's own. */
  predicate Added(s: State, before: seq<Order>, p: Payment, state: OrderState, reservations: seq<Reservation>) {
    && |s.orders| == |before| + 1 && s.orders[..|before|] == before
    && StandsAt(s.orders[|before|], p, state, reservations)
  }

  lemma AddedRow(s: State, t: State, before: seq<Order>, p: Payment, state: OrderState, row: seq<Reservation>,
                 after: Order)
    requires |s.orders| == |before| + 1 && s.orders[..|before|] == before
    requires t.orders == s.orders[|before| := after] && StandsAt(after, p, state, row)
    ensures Added(t, before, p, state, row)
  {
    assert t.orders[..|before|] == s.orders[..|before|];
  }

  /** A committed turn leaves its order with the event it has asked for. */
  lemma ReadyAfter(s: State, w: Worker, id: nat, was: Topic, a: Answers, k: nat, after: Order, topic: Topic)
    requires ReceiptsHold(s) && Leased(s, w, id, was, k) && |s.events| == id + 1
    requires Wrote(s, Turn(s, w, id, a), id, k, after, [NewEvent(topic, KeyOf(topic, k, 0), 0, s.now)])
    ensures Ready(Turn(s, w, id, a), topic, k, id + 1)
  {
    TurnKeepsClock(s, w, id, a, false, false);
    TurnRunsOnce(s, w, id, was, a, k);
  }

  lemma TurnRunsOnce(s: State, w: Worker, id: nat, topic: Topic, a: Answers, k: nat)
    requires ReceiptsHold(s) && Leased(s, w, id, topic, k)
    ensures Turn(s, w, id, a).ran <= s.ran + [id]
  {
    if Handle(s, id, a).Ok? {
      CommittedOrder(s, w, id, a, false, false);
    } else {
      LeasedTurnRaises(s, w, id, topic, a, k);
    }
  }

  lemma NewestIsTaken(events: seq<Event>, now: int, id: nat)
    requires OwnPartitions(events) && |events| == id + 1
    requires events[id].status == Pending && events[id].availableAt <= now
    ensures id in ClaimBatch(events, now, 1, Before(id))
  {
    var ahead := set j: nat | j < id && Claimable(events, now, j) && j !in Before(id);
    assert ahead == {};
    ClaimedExactlyWhen(events, now, 1, Before(id), id);
  }

  lemma TakenIsHeld(s: State, w: Worker, limit: int, locked: set<nat>, id: nat)
    requires id < |s.events| && id in ClaimBatch(s.events, s.now, limit, locked)
    ensures
      var t := ClaimStep(s, w, limit, locked);
      && (w, id) in t.held && t.orders == s.orders && t.sandbox == s.sandbox && t.ran == s.ran
      && |t.events| == |s.events|
      && t.events[id] == s.events[id].(status := Processing, attempts := s.events[id].attempts + 1,
                                       leaseOwner := Some(w), leaseUntil := Some(s.now + 60))
  {
    ClaimWrites(s.events, s.now, limit, locked, w, id);
  }

  /** The claim leases the newest event to the worker and touches no order. */
  lemma TakingLeases(s: State, w: Worker, topic: Topic, k: nat, id: nat)
    requires Ready(s, topic, k, id) && OwnPartitions(s.events)
    ensures
      var t := Apply(s, TakeOnly(w, id));
      && Leased(t, w, id, topic, k) && |t.events| == id + 1 && t.events[id].item == 0
      && t.orders == s.orders && t.sandbox == s.sandbox
  {
    NewestIsTaken(s.events, s.now, id);
    TakenIsHeld(s, w, 1, Before(id), id);
    TakingIsClaiming(s, w, id);
    assert s.events[id].aggregate.order == k;
  }

  lemma TakingIsClaiming(s: State, w: Worker, id: nat)
    ensures Apply(s, TakeOnly(w, id)) == ClaimStep(s, w, 1, Before(id))
  {
  }

  lemma RunOneMore(s: State, steps: seq<Step>, step: Step)
    ensures Run(s, steps + [step]) == Apply(Run(s, steps), step)
  {
    var all := steps + [step];
    assert all[..|all| - 1] == steps;
    RunEndsWith(s, all);
  }

  lemma RunTurn(now: int, sandbox: bool, steps: seq<Step>, w: Worker, id: nat, a: Answers)
    ensures Run(Start(now, sandbox), steps + [WorkOff(w, id, a)]) == Turn(Run(Start(now, sandbox), steps), w, id, a)
  {
    RunOneMore(Start(now, sandbox), steps, WorkOff(w, id, a));
  }

  // ----- the ten steps -----

  /** The worker holds event `id`, the newest one, about row 0 of the payment's order, which stands as given. */
  predicate Held(s: State, w: Worker, topic: Topic, id: nat, before: seq<Order>, p: Payment, state: OrderState,
                 reservations: seq<Reservation>) {
    && Leased(s, w, id, topic, |before|) && |s.events| == id + 1 && s.events[id].item == 0
    && Added(s, before, p, state, reservations)
  }

  lemma TakeStage(now: int, sandbox: bool, steps: seq<Step>, w: Worker, topic: Topic, id: nat, before: seq<Order>,
                  p: Payment, state: OrderState, row: seq<Reservation>)
    requires
      var s := Run(Start(now, sandbox), steps);
      Ready(s, topic, |before|, id) && Added(s, before, p, state, row)
    ensures
      var s, t := Run(Start(now, sandbox), steps), Run(Start(now, sandbox), steps + [TakeOnly(w, id)]);
      Held(t, w, topic, id, before, p, state, row) && t.orders == s.orders && t.sandbox == s.sandbox
  {
    RunKeepsPartitions(now, sandbox, steps);
    TakingLeases(Run(Start(now, sandbox), steps), w, topic, |before|, id);
    RunOneMore(Start(now, sandbox), steps, TakeOnly(w, id));
  }

  lemma CreationFits(s: State, p: Payment)
    requires Payable(s.Desk(), p) && EventsHaveOrders(s)
    ensures CreateOrder(s, p).Ok?
  {
  }

  lemma CreationStage(now: int, sandbox: bool, steps: seq<Step>, p: Payment)
    requires Payable(Run(Start(now, sandbox), steps).Desk(), p)
    ensures
      var s, t := Run(Start(now, sandbox), steps), Run(Start(now, sandbox), steps + [Create(p)]);
      && Ready(t, PaymentCreated, |s.orders|, |s.events|) && Added(t, s.orders, p, ControlChecks, [])
      && t.sandbox == s.sandbox && t.orders[|s.orders|].postedJournals == 0
  {
    var s := Run(Start(now, sandbox), steps);
    Reachable(now, sandbox, steps);
    CreationFits(s, p);
    var counter := CreateWrites(s, p);
    RunOneMore(Start(now, sandbox), steps, Create(p));
  }

  function Asked(p: Payment): seq<Reservation> {
    [Reservation(p.amount, None, ReservationRequested, [ReservationRequested])]
  }

  /** The row of the payment once its funds are asked for. */
  function AskingForFunds(o: Order, p: Payment, after: Order): Order {
    o.(state := ReservationPending, version := o.version + 1, reservations := Asked(p), facts := after.facts,
       authorizations := after.authorizations, compliances := after.compliances)
  }

  lemma CreatedContinues(s: State, t: State, id: nat, k: nat, a: Answers, p: Payment)
    requires id < |s.events| && k < |s.orders| && StandsAt(s.orders[k], p, ControlChecks, [])
    requires s.orders[k].authorizations != [] && s.orders[k].compliances != []
    requires CreatedTurned(s, t, id, k, a) && (s.sandbox || a.authorizes)
    ensures k < |t.orders|
            && Wrote(s, t, id, k, AskingForFunds(s.orders[k], p, t.orders[k]),
                     [NewEvent(FundingReserve, ReservationKey(k, 0), 0, s.now)])
  {
    assert t.orders[k] == AskingForFunds(s.orders[k], p, t.orders[k]);
  }

  lemma CreatedStage(now: int, sandbox: bool, steps: seq<Step>, w: Worker, id: nat, a: Answers, before: seq<Order>,
                     p: Payment)
    requires
      var s := Run(Start(now, sandbox), steps);
      Held(s, w, PaymentCreated, id, before, p, ControlChecks, []) && (s.sandbox || a.authorizes)
    ensures
      var s, t := Run(Start(now, sandbox), steps), Run(Start(now, sandbox), steps + [WorkOff(w, id, a)]);
      && Ready(t, FundingReserve, |before|, id + 1) && Added(t, before, p, ReservationPending, Asked(p))
      && t.orders[|before|].postedJournals == s.orders[|before|].postedJournals
  {
    var s, k := Run(Start(now, sandbox), steps), |before|;
    var t := Turn(s, w, id, a);
    RunTurn(now, sandbox, steps, w, id, a);
    CommittedOrders(now, sandbox, steps, k);
    CreatedTurn(now, sandbox, steps, w, id, a, k);
    CreatedContinues(s, t, id, k, a, p);
    var after := AskingForFunds(s.orders[k], p, t.orders[k]);
    AddedRow(s, t, before, p, ReservationPending, Asked(p), after);
    ReadyAfter(s, w, id, PaymentCreated, a, k, after, FundingReserve);
  }

  function Funded(p: Payment): seq<Reservation> {
    [Reservation(p.amount, None, Reserved, [ReservationRequested, Reserved])]
  }

  lemma FundingContinues(s: State, t: State, id: nat, k: nat, a: Answers, p: Payment)
    requires id < |s.events| && k < |s.orders| && s.events[id].item == 0
    requires StandsAt(s.orders[k], p, ReservationPending, Asked(p)) && a.reserve == Reserved
    requires Unfunded(s.orders[k], 0) && FundingTurned(s, t, id, k, a)
    ensures k < |t.orders|
            && StandsAt(t.orders[k], p, ReservationPending, Funded(p))
            && t.orders[k].postedJournals == s.orders[k].postedJournals
            && Wrote(s, t, id, k, t.orders[k], [NewEvent(PaymentMessage, OrderKey(k), 0, s.now)])
  {
    assert WithAnswer(s.orders[k], 0, Reserved) == Funded(p);
  }

  lemma FundingStage(now: int, sandbox: bool, steps: seq<Step>, w: Worker, id: nat, a: Answers, before: seq<Order>,
                     p: Payment)
    requires Held(Run(Start(now, sandbox), steps), w, FundingReserve, id, before, p, ReservationPending, Asked(p))
    requires a.reserve == Reserved
    ensures
      var s, t := Run(Start(now, sandbox), steps), Run(Start(now, sandbox), steps + [WorkOff(w, id, a)]);
      && Ready(t, PaymentMessage, |before|, id + 1) && Added(t, before, p, ReservationPending, Funded(p))
      && t.orders[|before|].postedJournals == s.orders[|before|].postedJournals
  {
    var s, k := Run(Start(now, sandbox), steps), |before|;
    var t := Turn(s, w, id, a);
    RunTurn(now, sandbox, steps, w, id, a);
    CommittedOrders(now, sandbox, steps, k);
    FundingTurn(now, sandbox, steps, w, id, a, k);
    FundingContinues(s, t, id, k, a, p);
    AddedRow(s, t, before, p, ReservationPending, Funded(p), t.orders[k]);
    ReadyAfter(s, w, id, FundingReserve, a, k, t.orders[k], PaymentMessage);
  }

  lemma MessageContinues(s: State, t: State, id: nat, k: nat, a: Answers, p: Payment)
    requires id < |s.events| && k < |s.orders| && StandsAt(s.orders[k], p, ReservationPending, Funded(p))
    requires MessageTurned(s, t, id, k, a) && Sent(a)
    ensures k < |t.orders| && StandsAt(t.orders[k], p, MessageDelivered, Funded(p))
            && t.orders[k].postedJournals == s.orders[k].postedJournals
            && Wrote(s, t, id, k, t.orders[k], [NewEvent(PaymentValue, OrderKey(k), 0, s.now)])
  {
  }

  lemma MessageStage(now: int, sandbox: bool, steps: seq<Step>, w: Worker, id: nat, a: Answers, before: seq<Order>,
                     p: Payment)
    requires Held(Run(Start(now, sandbox), steps), w, PaymentMessage, id, before, p, ReservationPending, Funded(p))
    requires Sent(a)
    ensures
      var s, t := Run(Start(now, sandbox), steps), Run(Start(now, sandbox), steps + [WorkOff(w, id, a)]);
      && Ready(t, PaymentValue, |before|, id + 1) && Added(t, before, p, MessageDelivered, Funded(p))
      && t.orders[|before|].postedJournals == s.orders[|before|].postedJournals
  {
    var s, k := Run(Start(now, sandbox), steps), |before|;
    var t := Turn(s, w, id, a);
    RunTurn(now, sandbox, steps, w, id, a);
    CommittedOrders(now, sandbox, steps, k);
    MessageTurn(now, sandbox, steps, w, id, a, k);
    MessageContinues(s, t, id, k, a, p);
    AddedRow(s, t, before, p, MessageDelivered, Funded(p), t.orders[k]);
    ReadyAfter(s, w, id, PaymentMessage, a, k, t.orders[k], PaymentValue);
  }

  lemma JournalStage(now: int, sandbox: bool, steps: seq<Step>, id: nat, before: seq<Order>, p: Payment)
    requires
      var s := Run(Start(now, sandbox), steps);
      Ready(s, PaymentValue, |before|, id) && Added(s, before, p, MessageDelivered, Funded(p))
    ensures
      var t := Run(Start(now, sandbox), steps + [PostJournal(|before|)]);
      && Ready(t, PaymentValue, |before|, id) && Added(t, before, p, MessageDelivered, Funded(p))
      && t.orders[|before|].postedJournals > 0
  {
    RunOneMore(Start(now, sandbox), steps, PostJournal(|before|));
    var s := Run(Start(now, sandbox), steps);
    var o := s.orders[|before|];
    AddedRow(s, Apply(s, PostJournal(|before|)), before, p, MessageDelivered, Funded(p),
             o.(postedJournals := o.postedJournals + 1));
  }

  /** The row of the payment once it is closed. */
  predicate ClosedRow(o: Order, p: Payment, a: Answers) {
    && o.state == OperationallyClosed && o.outcome == Some(Completed) && o.amount == p.amount
    && o.leg == Leg(p.amount, LegFinal) && o.credits == [Credit(Credited, true)] && o.reconciliations == [Matched]
    && o.reservations
       == [Reservation(p.amount, None, a.consume(0), [ReservationRequested, Reserved, a.consume(0)])]
  }

  /** The tables hold the orders of before, and the payment's own, closed. */
  predicate Closed(s: State, before: seq<Order>, p: Payment, a: Answers) {
    && |s.orders| == |before| + 1 && s.orders[..|before|] == before && ClosedRow(s.orders[|before|], p, a)
  }

  lemma ClosedFrom(o: Order, q: Order, p: Payment, a: Answers)
    requires StandsAt(o, p, MessageDelivered, Funded(p)) && ClosedAs(o, q, a)
    ensures ClosedRow(q, p, a)
  {
    assert q.reservations[0] == o.reservations[0].(state := a.consume(0), trail := o.reservations[0].trail
                                                   + [a.consume(0)]);
    assert [ReservationRequested, Reserved] + [a.consume(0)] == [ReservationRequested, Reserved, a.consume(0)];
    assert o.reconciliations + [Matched] == [Matched];
  }

  lemma FundedFinishes(o: Order, p: Payment, a: Answers)
    requires StandsAt(o, p, MessageDelivered, Funded(p)) && o.postedJournals > 0 && Favourable(a)
    ensures Finishes(o, a)
  {
  }

  /** The worker holds the value event of the payment, whose message has gone out and which has a journal. */
  predicate Due(s: State, w: Worker, id: nat, before: seq<Order>, p: Payment) {
    && Held(s, w, PaymentValue, id, before, p, MessageDelivered, Funded(p)) && s.orders[|before|].postedJournals > 0
  }

  lemma ValueStage(now: int, sandbox: bool, steps: seq<Step>, w: Worker, id: nat, a: Answers, before: seq<Order>,
                   p: Payment)
    requires
      var s := Run(Start(now, sandbox), steps);
      Due(s, w, id, before, p) && !Overdrawn(s.Desk(), s.orders[|before|])
    requires Favourable(a)
    ensures
      var t := Run(Start(now, sandbox), steps + [WorkOff(w, id, a)]);
      Closed(t, before, p, a)
  {
    var s, k := Run(Start(now, sandbox), steps), |before|;
    RunTurn(now, sandbox, steps, w, id, a);
    ValueTurn(now, sandbox, steps, w, id, a, k);
    FinalWrites(s, w, id, before, p, a);
  }

  lemma FinalWrites(s: State, w: Worker, id: nat, before: seq<Order>, p: Payment, a: Answers)
    requires id < |s.events| && Added(s, before, p, MessageDelivered, Funded(p)) && Favourable(a)
    requires ValueTurned(s, Turn(s, w, id, a), id, |before|, a) && s.orders[|before|].postedJournals > 0
    requires !Overdrawn(s.Desk(), s.orders[|before|])
    ensures Closed(Turn(s, w, id, a), before, p, a)
  {
    var t, k := Turn(s, w, id, a), |before|;
    FundedFinishes(s.orders[k], p, a);
    assert t.orders[..k] == s.orders[..k];
    ClosedFrom(s.orders[k], t.orders[k], p, a);
  }

  // ----- the whole run -----

  /** The payment, and the turns that reserve its funds. */
  function FundingSteps(p: Payment, n: nat, w: Worker, a: Answers): seq<Step> {
    [Create(p), TakeOnly(w, n), WorkOff(w, n, a), TakeOnly(w, n + 1), WorkOff(w, n + 1, a)]
  }

  /** The turn that sends the message, a journal of the order, and the turn that settles its value. */
  function SettlingSteps(k: nat, n: nat, w: Worker, a: Answers): seq<Step> {
    [TakeOnly(w, n), WorkOff(w, n, a), PostJournal(k), TakeOnly(w, n + 1), WorkOff(w, n + 1, a)]
  }

  lemma FiveMore(steps: seq<Step>, a: Step, b: Step, c: Step, d: Step, e: Step)
    ensures steps + [a, b, c, d, e] == steps + [a] + [b] + [c] + [d] + [e]
  {
  }

  lemma FundingPart(now: int, sandbox: bool, steps: seq<Step>, w: Worker, a: Answers, p: Payment)
    requires
      var s := Run(Start(now, sandbox), steps);
      Payable(s.Desk(), p) && (s.sandbox || a.authorizes)
    requires a.reserve == Reserved
    ensures
      var s := Run(Start(now, sandbox), steps);
      var t := Run(Start(now, sandbox), steps + FundingSteps(p, |s.events|, w, a));
      Ready(t, PaymentMessage, |s.orders|, |s.events| + 2) && Added(t, s.orders, p, ReservationPending, Funded(p))
  {
    var s := Run(Start(now, sandbox), steps);
    var before, n := s.orders, |s.events|;
    FiveMore(steps, Create(p), TakeOnly(w, n), WorkOff(w, n, a), TakeOnly(w, n + 1), WorkOff(w, n + 1, a));
    var r1 := steps + [Create(p)];
    CreationStage(now, sandbox, steps, p);
    TakeStage(now, sandbox, r1, w, PaymentCreated, n, before, p, ControlChecks, []);
    var r2 := r1 + [TakeOnly(w, n)];
    CreatedStage(now, sandbox, r2, w, n, a, before, p);
    var r3 := r2 + [WorkOff(w, n, a)];
    TakeStage(now, sandbox, r3, w, FundingReserve, n + 1, before, p, ReservationPending, Asked(p));
    FundingStage(now, sandbox, r3 + [TakeOnly(w, n + 1)], w, n + 1, a, before, p);
  }

  /** All but the last of the settling steps. */
  function MessagingSteps(k: nat, n: nat, w: Worker, a: Answers): seq<Step> {
    [TakeOnly(w, n), WorkOff(w, n, a), PostJournal(k), TakeOnly(w, n + 1)]
  }

  lemma MessagedPart(now: int, sandbox: bool, steps: seq<Step>, w: Worker, a: Answers, before: seq<Order>, n: nat,
                     p: Payment)
    requires
      var s := Run(Start(now, sandbox), steps);
      Ready(s, PaymentMessage, |before|, n) && Added(s, before, p, ReservationPending, Funded(p))
    requires Sent(a)
    ensures
      var t := Run(Start(now, sandbox), steps + [TakeOnly(w, n)] + [WorkOff(w, n, a)]);
      Ready(t, PaymentValue, |before|, n + 1) && Added(t, before, p, MessageDelivered, Funded(p))
  {
    TakeStage(now, sandbox, steps, w, PaymentMessage, n, before, p, ReservationPending, Funded(p));
    MessageStage(now, sandbox, steps + [TakeOnly(w, n)], w, n, a, before, p);
  }

  lemma PostedPart(now: int, sandbox: bool, steps: seq<Step>, w: Worker, before: seq<Order>, id: nat, p: Payment)
    requires
      var s := Run(Start(now, sandbox), steps);
      Ready(s, PaymentValue, |before|, id) && Added(s, before, p, MessageDelivered, Funded(p))
    ensures
      var t := Run(Start(now, sandbox), steps + [PostJournal(|before|)] + [TakeOnly(w, id)]);
      Due(t, w, id, before, p)
  {
    JournalStage(now, sandbox, steps, id, before, p);
    TakeStage(now, sandbox, steps + [PostJournal(|before|)], w, PaymentValue, id, before, p, MessageDelivered,
              Funded(p));
  }

  lemma FourMore(steps: seq<Step>, a: Step, b: Step, c: Step, d: Step)
    ensures steps + [a, b, c, d] == steps + [a] + [b] + [c] + [d]
  {
  }

  lemma MessagingPart(now: int, sandbox: bool, steps: seq<Step>, w: Worker, a: Answers, before: seq<Order>, n: nat,
                      p: Payment)
    requires
      var s := Run(Start(now, sandbox), steps);
      Ready(s, PaymentMessage, |before|, n) && Added(s, before, p, ReservationPending, Funded(p))
    requires Sent(a)
    ensures
      var t := Run(Start(now, sandbox), steps + MessagingSteps(|before|, n, w, a));
      Due(t, w, n + 1, before, p)
  {
    MessagedPart(now, sandbox, steps, w, a, before, n, p);
    PostedPart(now, sandbox, steps + [TakeOnly(w, n)] + [WorkOff(w, n, a)], w, before, n + 1, p);
    FourMore(steps, TakeOnly(w, n), WorkOff(w, n, a), PostJournal(|before|), TakeOnly(w, n + 1));
  }

  lemma UniformMessaging(steps: seq<Step>, k: nat, n: nat, w: Worker, a: Answers, guarded: iset<Scope>)
    requires UniformSteps(steps, guarded)
    ensures UniformSteps(steps + MessagingSteps(k, n, w, a), guarded)
  {
    UniformRun(steps, MessagingSteps(k, n, w, a), steps + MessagingSteps(k, n, w, a), guarded);
  }

  lemma SettlingIsLast(steps: seq<Step>, k: nat, n: nat, w: Worker, a: Answers)
    ensures steps + MessagingSteps(k, n, w, a) + [WorkOff(w, n + 1, a)] == steps + SettlingSteps(k, n, w, a)
  {
  }

  lemma DueIsNotOverdrawn(now: int, sandbox: bool, steps: seq<Step>, guarded: iset<Scope>, w: Worker, id: nat,
                          before: seq<Order>, p: Payment)
    requires UniformSteps(steps, guarded) && Due(Run(Start(now, sandbox), steps), w, id, before, p)
    ensures
      var s := Run(Start(now, sandbox), steps);
      !Overdrawn(s.Desk(), s.orders[|before|])
  {
    SagaExposureMatchesOrders(now, sandbox, steps, guarded);
    UniformScopesAreNotOverdrawn(Run(Start(now, sandbox), steps).Desk(), guarded, |before|);
  }

  lemma SettlingPart(now: int, sandbox: bool, steps: seq<Step>, guarded: iset<Scope>, w: Worker, a: Answers,
                     before: seq<Order>, n: nat, p: Payment)
    requires
      var s := Run(Start(now, sandbox), steps);
      Ready(s, PaymentMessage, |before|, n) && Added(s, before, p, ReservationPending, Funded(p))
    requires UniformSteps(steps, guarded) && Favourable(a)
    ensures Closed(Run(Start(now, sandbox), steps + SettlingSteps(|before|, n, w, a)), before, p, a)
  {
    var most := MessagingSteps(|before|, n, w, a);
    MessagingPart(now, sandbox, steps, w, a, before, n, p);
    UniformMessaging(steps, |before|, n, w, a, guarded);
    DueIsNotOverdrawn(now, sandbox, steps + most, guarded, w, n + 1, before, p);
    ValueStage(now, sandbox, steps + most, w, n + 1, a, before, p);
    SettlingIsLast(steps, |before|, n, w, a);
  }

  lemma UniformRun(steps: seq<Step>, more: seq<Step>, all: seq<Step>, guarded: iset<Scope>)
    requires UniformSteps(steps, guarded) && all == steps + more
    requires forall i :: 0 <= i < |more| ==> UniformStep(more[i], guarded)
    ensures UniformSteps(all, guarded)
  {
    forall i | 0 <= i < |all|
      ensures UniformStep(all[i], guarded)
    {
      if i >= |steps| {
        assert all[i] == more[i - |steps|];
      }
    }
  }

  lemma Associates(steps: seq<Step>, first: seq<Step>, second: seq<Step>)
    ensures steps + (first + second) == (steps + first) + second
  {
  }

  /** After any run in which each scope sets its exposure limit always or never, every payment in one currency that
      passes screening and fits into its limits is closed by its own ten steps when the connectors say yes. Its
      reservation has been PENDING, RESERVED and what its consumption was answered with, in this order; its value is
      final and credited; and no other order is touched. */
  lemma {:induction false} PaymentsComplete(now: int, sandbox: bool, steps: seq<Step>, guarded: iset<Scope>, w: Worker,
                                            a: Answers, p: Payment)
    requires UniformSteps(steps, guarded) && UniformProfile(p.profile, p.scope, guarded)
    requires
      var s := Run(Start(now, sandbox), steps);
      Payable(s.Desk(), p) && (s.sandbox || a.authorizes)
    requires Favourable(a)
    ensures
      var s := Run(Start(now, sandbox), steps);
      var own := FundingSteps(p, |s.events|, w, a) + SettlingSteps(|s.orders|, |s.events| + 2, w, a);
      Closed(Run(Start(now, sandbox), steps + own), s.orders, p, a)
  {
    var s := Run(Start(now, sandbox), steps);
    var before, n := s.orders, |s.events|;
    var first, second := FundingSteps(p, n, w, a), SettlingSteps(|before|, n + 2, w, a);
    FundingPart(now, sandbox, steps, w, a, p);
    UniformRun(steps, first, steps + first, guarded);
    SettlingPart(now, sandbox, steps + first, guarded, w, a, before, n + 2, p);
    Associates(steps, first, second);
  }

  /** In the sandbox the first payment, in one currency, for a positive amount within its limits and passing its
      screening, ends as OPERATIONALLY_CLOSED with its reservation CONSUMED. */
  lemma {:induction false} SandboxPaymentsComplete(now: int, w: Worker, p: Payment)
    requires p.amount > 0 && p.sameCurrency && p.screeningPasses
    requires p.profile.Some? && p.profile.value.daily.Some? ==> p.amount <= p.profile.value.daily.value
    requires p.profile.Some? && p.profile.value.exposure.Some? ==> p.amount <= p.profile.value.exposure.value
    ensures
      var t := Run(Start(now, true), FundingSteps(p, 0, w, Sandbox()) + SettlingSteps(0, 2, w, Sandbox()));
      && |t.orders| == 1
      && t.orders[0].state == OperationallyClosed && t.orders[0].outcome == Some(Completed)
      && t.orders[0].amount == p.amount && t.orders[0].leg == Leg(p.amount, LegFinal)
      && t.orders[0].credits == [Credit(Credited, true)]
      && t.orders[0].reservations
         == [Reservation(p.amount, None, Consumed, [ReservationRequested, Reserved, Consumed])]
  {
    var guarded := if p.profile.Some? && p.profile.value.exposure.Some? then iset{p.scope} else iset{};
    PaymentsComplete(now, true, [], guarded, w, Sandbox(), p);
    var own := FundingSteps(p, 0, w, Sandbox()) + SettlingSteps(0, 2, w, Sandbox());
    assert [] + own == own;
  }
}

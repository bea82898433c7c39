/** Safety of the saga over whole runs: any number of workers, crashes, expired leases, late
    failures, replays and connector answers, interleaved in any order. */
module SagaSafety {
  import opened Results
  import opened Orders
  import opened LimitDesk
  import opened Outbox
  import opened Handlers
  import opened Saga
  import opened SagaInvariant
  import opened SagaTables

  // ----- a handler run -----

  predicate PursuesJobs(jobs: seq<Job>) {
    exists i :: 0 <= i < |jobs| && (jobs[i].topic == PaymentMessage || jobs[i].topic == PaymentValue)
  }

  /** The history of the event's own order after its handler ran. */
  function HistoryAfter(h: History, e: Event, jobs: seq<Job>): History {
    History(if e.topic == FundingReserve then h.funded + iset{e.item} else h.funded,
            h.pursued || PursuesJobs(jobs),
            h.cancelQueued,
            h.cancelHandled || e.topic == PaymentCancellation)
  }

  /** State `t` is `s` after the handler of event `id` ran and enqueued `jobs`. */
  predicate Ran(s: State, t: State, id: nat, jobs: seq<Job>) {
    && id < |s.events| && t.ran == s.ran + [id]
    && var enqueued := EnqueueAll(s.events, jobs, s.events[id].aggregate.order, s.now);
       enqueued.Ok? && t.events == enqueued.value
  }

  lemma PursuedAfter(s: State, t: State, id: nat, jobs: seq<Job>, j: nat)
    requires Ran(s, t, id, jobs)
    ensures Pursued(t, j) == (Pursued(s, j) || (j == s.events[id].aggregate.order && PursuesJobs(jobs)))
  {
    var k := s.events[id].aggregate.order;
    EnqueuedAfterAll(s.events, jobs, k, s.now, PaymentMessage, OrderKey(j));
    EnqueuedAfterAll(s.events, jobs, k, s.now, PaymentValue, OrderKey(j));
  }

  lemma CancelQueuedAfter(s: State, t: State, id: nat, jobs: seq<Job>, j: nat)
    requires Ran(s, t, id, jobs) && HandlerJobs(jobs)
    ensures Enqueued(t.events, PaymentCancellation, OrderKey(j)) == Enqueued(s.events, PaymentCancellation, OrderKey(j))
  {
    EnqueuedAfterAll(s.events, jobs, s.events[id].aggregate.order, s.now, PaymentCancellation, OrderKey(j));
  }

  lemma FundedAfter(s: State, t: State, id: nat, jobs: seq<Job>, j: nat, i: nat)
    requires TablesHold(s) && Ran(s, t, id, jobs)
    ensures Handled(t, FundingReserve, ReservationKey(j, i)) ==
            (Handled(s, FundingReserve, ReservationKey(j, i))
             || (j == s.events[id].aggregate.order && s.events[id].topic == FundingReserve && i == s.events[id].item))
  {
    HandledAfter(s, t, id, FundingReserve, ReservationKey(j, i));
    assert WellKeyed(s.events[id]);
  }

  /** A handler run changes the history of its own order only, and by what it did. */
  lemma HistoryMoves(s: State, t: State, id: nat, jobs: seq<Job>, j: nat)
    requires TablesHold(s) && Ran(s, t, id, jobs) && HandlerJobs(jobs)
    ensures
      var e := s.events[id];
      HistoryOf(t, j) == if j == e.aggregate.order then HistoryAfter(HistoryOf(s, j), e, jobs) else HistoryOf(s, j)
  {
    var e := s.events[id];
    PursuedAfter(s, t, id, jobs, j);
    CancelQueuedAfter(s, t, id, jobs, j);
    HandledAfter(s, t, id, PaymentCancellation, OrderKey(j));
    assert WellKeyed(e);
    var expected := if j == e.aggregate.order then HistoryAfter(HistoryOf(s, j), e, jobs) else HistoryOf(s, j);
    forall i: nat
      ensures i in HistoryOf(t, j).funded <==> i in expected.funded
    {
      FundedAfter(s, t, id, jobs, j, i);
    }
    assert HistoryOf(t, j).funded == expected.funded;
  }

  /** An event that has not run yet is the only one of its topic and key, so nothing like it has run. */
  lemma FreshMeansUnhandled(s: State, id: nat)
    requires TablesHold(s) && id < |s.events| && id !in s.ran
    ensures !Handled(s, s.events[id].topic, s.events[id].aggregate)
  {
    forall i | i in s.ran && i < |s.events|
      ensures !SameSubject(s.events[i], s.events[id])
    {
      assert SameSubject(s.events[i], s.events[id]) ==> SameSubject(s.events[id], s.events[i]);
    }
  }

  /** What a handler's outcome must satisfy for the event it answers. */
  ghost predicate Upholds(r: Effect, e: Event, h: History, answers: set<ReservationState>) {
    HandlerJobs(r.enqueued) && Sound(r.order, HistoryAfter(h, e, r.enqueued), answers)
  }

  lemma QuietHistory(h: History, e: Event, jobs: seq<Job>)
    requires e.topic != FundingReserve && e.topic != PaymentCancellation
    requires OnlyFunds(jobs) || OnlySettles(jobs) || (OnlyPays(jobs) && h.pursued)
    ensures HistoryAfter(h, e, jobs) == h && HandlerJobs(jobs)
  {
  }

  lemma PursuingHistory(h: History, e: Event, jobs: seq<Job>)
    requires e.topic == SettlementSubmit && (jobs == [] || Messages(jobs))
    ensures HistoryAfter(h, e, jobs) == h.(pursued := h.pursued || Messages(jobs)) && HandlerJobs(jobs)
  {
    assert jobs != [] ==> jobs[0].topic == PaymentMessage;
  }

  lemma FundedHistory(h: History, e: Event, jobs: seq<Job>)
    requires e.topic == FundingReserve
    requires jobs == [] || Messages(jobs) || (|jobs| == 1 && jobs[0].topic == FxAccept)
    ensures HistoryAfter(h, e, jobs) == Funded(h, e.item, Messages(jobs)) && HandlerJobs(jobs)
  {
    assert Messages(jobs) ==> jobs[0].topic == PaymentMessage;
  }

  lemma AnsweredHistory(h: History, e: Event)
    requires e.topic == PaymentCancellation
    ensures HistoryAfter(h, e, []) == Answered(h)
  {
  }

  lemma PaymentUpholds(e: Event, o: Order, sandbox: bool, a: Answers, h: History, answers: set<ReservationState>)
    requires Sound(o, h, answers) && e.topic == PaymentCreated && PaymentCreatedHandler(o, sandbox, a).Ok?
    ensures Upholds(PaymentCreatedHandler(o, sandbox, a).value, e, h, answers)
  {
    CreatedKeepsSound(o, sandbox, a, h, answers);
    QuietHistory(h, e, PaymentCreatedHandler(o, sandbox, a).value.enqueued);
  }

  lemma FundingUpholds(e: Event, o: Order, a: Answers, queued: bool, h: History, answers: set<ReservationState>)
    requires Sound(o, h, answers) && e.topic == FundingReserve && e.item !in h.funded
    requires FundingHandler(o, e.item, a, queued).Ok?
    ensures Upholds(FundingHandler(o, e.item, a, queued).value, e, h, answers)
  {
    FundingKeepsSound(o, e.item, a, queued, h, answers);
    FundedHistory(h, e, FundingHandler(o, e.item, a, queued).value.enqueued);
  }

  lemma TradeUpholds(e: Event, o: Order, a: Answers, h: History, answers: set<ReservationState>)
    requires Sound(o, h, answers) && e.topic == FxAccept && TradeHandler(o, e.item, a).Ok?
    ensures Upholds(TradeHandler(o, e.item, a).value, e, h, answers)
  {
    TradeKeepsSound(o, e.item, a, h, answers);
    QuietHistory(h, e, TradeHandler(o, e.item, a).value.enqueued);
  }

  lemma SettlementUpholds(e: Event, o: Order, a: Answers, queued: bool, h: History, answers: set<ReservationState>)
    requires Sound(o, h, answers) && e.topic == SettlementSubmit && SettlementHandler(o, e.item, a, queued).Ok?
    ensures Upholds(SettlementHandler(o, e.item, a, queued).value, e, h, answers)
  {
    SettlementKeepsSound(o, e.item, a, queued, h, answers);
    PursuingHistory(h, e, SettlementHandler(o, e.item, a, queued).value.enqueued);
  }

  lemma MessageUpholds(e: Event, o: Order, a: Answers, queued: bool, h: History, answers: set<ReservationState>)
    requires Sound(o, h, answers) && e.topic == PaymentMessage && h.pursued && MessageHandler(o, a, queued).Ok?
    ensures Upholds(MessageHandler(o, a, queued).value, e, h, answers)
  {
    MessageKeepsSound(o, a, queued, h, answers);
    QuietHistory(h, e, MessageHandler(o, a, queued).value.enqueued);
  }

  lemma ValueUpholds(e: Event, o: Order, a: Answers, h: History, answers: set<ReservationState>)
    requires Sound(o, h, answers) && e.topic == PaymentValue && h.pursued && ValueHandler(o, a).Ok?
    requires forall j :: a.consume(j) in answers
    ensures Upholds(ValueHandler(o, a).value, e, h, answers)
  {
    ValueKeepsSound(o, a, h, answers);
    QuietHistory(h, e, []);
  }

  lemma CancellationUpholds(e: Event, o: Order, a: Answers, h: History, answers: set<ReservationState>)
    requires Sound(o, h, answers) && e.topic == PaymentCancellation && e.item == 0 && CancellationHandler(o, 0, a).Ok?
    ensures Upholds(CancellationHandler(o, 0, a).value, e, h, answers)
  {
    CancellationKeepsSound(o, a, h, answers);
    AnsweredHistory(h, e);
  }

  /** What outbox and receipts say of the event about to be handled. */
  lemma HistoryBefore(s: State, id: nat)
    requires TablesHold(s) && id < |s.events| && id !in s.ran
    ensures
      var e := s.events[id];
      var h := HistoryOf(s, e.aggregate.order);
      && (e.topic == FundingReserve ==> e.item !in h.funded)
      && (e.topic == PaymentMessage || e.topic == PaymentValue ==> h.pursued)
      && (e.topic == PaymentCancellation ==> e.item == 0)
  {
    assert WellKeyed(s.events[id]);
    FreshMeansUnhandled(s, id);
  }

  /** The handler of event `id` keeps its own order sound. */
  lemma DispatchUpholds(s: State, id: nat, a: Answers, answers: set<ReservationState>)
    requires Inv(s, answers) && id < |s.events| && id !in s.ran && (forall j :: a.consume(j) in answers)
    requires Dispatch(s, s.events[id], a).Ok?
    ensures Upholds(Dispatch(s, s.events[id], a).value, s.events[id], HistoryOf(s, s.events[id].aggregate.order),
                    answers)
  {
    var e := s.events[id];
    var k := e.aggregate.order;
    var o, h := s.orders[k], HistoryOf(s, k);
    HistoryBefore(s, id);
    match e.topic
    case PaymentCreated => PaymentUpholds(e, o, s.sandbox, a, h, answers);
    case FundingReserve => FundingUpholds(e, o, a, Queued(s.events, PaymentMessage, OrderKey(k)), h, answers);
    case FxAccept => TradeUpholds(e, o, a, h, answers);
    case SettlementSubmit => SettlementUpholds(e, o, a, Queued(s.events, PaymentMessage, OrderKey(k)), h, answers);
    case PaymentMessage => MessageUpholds(e, o, a, Queued(s.events, PaymentValue, OrderKey(k)), h, answers);
    case PaymentValue => ValueUpholds(e, o, a, h, answers);
    case PaymentCancellation => CancellationUpholds(e, o, a, h, answers);
  }

  /** Writing a row leaves the other rows alone, whatever the limits do. */
  lemma WritingOneRow(d: Desk, k: nat, moved: Order)
    requires k < |d.orders| && Settle(d, k, moved).Ok?
    ensures Settle(d, k, moved).value.orders == d.orders[k := moved]
  {
  }

  lemma AbsorbRan(s: State, id: nat, effect: Effect)
    requires id < |s.events| && s.events[id].aggregate.order < |s.orders| && Absorb(s, id, Ok(effect)).Ok?
    ensures
      var t := Absorb(s, id, Ok(effect)).value;
      && Ran(s, t, id, effect.enqueued)
      && t.orders == s.orders[s.events[id].aggregate.order := effect.order]
      && t.now == s.now && t.inbox == s.inbox && t.held == s.held && t.replays == s.replays && t.sandbox == s.sandbox
  {
    WritingOneRow(s.Desk(), s.events[id].aggregate.order, effect.order);
  }

  lemma RunKeepsTables(s: State, t: State, id: nat, jobs: seq<Job>)
    requires TablesHold(s) && Ran(s, t, id, jobs) && HandlerJobs(jobs) && id !in s.ran
    requires |t.orders| == |s.orders| && t.inbox == s.inbox + [id]
    ensures TablesHold(t)
  {
    EnqueueAllAppends(s.events, jobs, s.events[id].aggregate.order, s.now);
    forall i | 0 <= i < |t.events|
      ensures t.events[i].aggregate.order < |t.orders|
      ensures t.events[i].status == Published ==> i in t.ran
    {
      if i < |s.events| {
        assert t.events[i] == s.events[i];
      }
    }
  }

  /** The step touches row and history of order `k` alone. */
  ghost predicate OthersUntouched(s: State, t: State, k: nat) {
    && k < |s.orders| && |t.orders| == |s.orders|
    && (forall j :: 0 <= j < |s.orders| && j != k ==> t.orders[j] == s.orders[j] && HistoryOf(t, j) == HistoryOf(s, j))
  }

  lemma OneRowKeepsInv(s: State, t: State, k: nat, answers: set<ReservationState>)
    requires Inv(s, answers) && TablesHold(t) && OthersUntouched(s, t, k)
    requires Sound(t.orders[k], HistoryOf(t, k), answers)
    ensures Inv(t, answers)
  {
    forall j | 0 <= j < |t.orders|
      ensures Sound(t.orders[j], HistoryOf(t, j), answers)
    {
      assert Sound(s.orders[j], HistoryOf(s, j), answers);
    }
  }

  /** A handler run that answers its event keeps the invariant, with its receipt. */
  lemma AbsorbKeepsInv(s: State, id: nat, effect: Effect, answers: set<ReservationState>)
    requires Inv(s, answers) && id < |s.events| && id !in s.ran
    requires Upholds(effect, s.events[id], HistoryOf(s, s.events[id].aggregate.order), answers)
    requires Absorb(s, id, Ok(effect)).Ok?
    ensures
      var t := Absorb(s, id, Ok(effect)).value;
      Inv(t.(inbox := t.inbox + [id]), answers) && s.events <= t.events && t.ran == s.ran + [id]
  {
    var t := Absorb(s, id, Ok(effect)).value;
    var u := t.(inbox := t.inbox + [id]);
    AbsorbRan(s, id, effect);
    RunKeepsTables(s, u, id, effect.enqueued);
    var k := s.events[id].aggregate.order;
    forall j | 0 <= j < |u.orders|
      ensures j != k ==> u.orders[j] == s.orders[j] && HistoryOf(u, j) == HistoryOf(s, j)
    {
      HistoryMoves(s, u, id, effect.enqueued, j);
    }
    HistoryMoves(s, u, id, effect.enqueued, k);
    OneRowKeepsInv(s, u, k, answers);
  }

  lemma HandleKeepsInv(s: State, id: nat, a: Answers, answers: set<ReservationState>)
    requires Inv(s, answers) && id < |s.events| && id !in s.ran && (forall j :: a.consume(j) in answers)
    requires Handle(s, id, a).Ok?
    ensures var t := Handle(s, id, a).value; Inv(t.(inbox := t.inbox + [id]), answers)
    ensures s.events <= Handle(s, id, a).value.events && Handle(s, id, a).value.ran == s.ran + [id]
  {
    DispatchUpholds(s, id, a, answers);
    AbsorbKeepsInv(s, id, Dispatch(s, s.events[id], a).value, answers);
  }

  // ----- every transaction -----

  lemma CompleteKeepsInv(s: State, id: nat, w: Worker, answers: set<ReservationState>)
    requires Inv(s, answers) && id in s.ran && Complete(s, id, w).Ok?
    ensures Inv(Complete(s, id, w).value, answers)
  {
    DeliveryKeepsInv(s, Complete(s, id, w).value, answers);
  }

  lemma TransactKeepsInv(s: State, id: nat, w: Worker, a: Answers, raced: bool, answers: set<ReservationState>)
    requires Inv(s, answers) && id < |s.events| && (forall j :: a.consume(j) in answers)
    requires Transact(s, id, w, a, raced).Ok?
    ensures Inv(Transact(s, id, w, a, raced).value, answers)
  {
    if id in s.inbox {
      CompleteKeepsInv(s, id, w, answers);
    } else {
      HandleKeepsInv(s, id, a, answers);
      var s1 := Handle(s, id, a).value;
      CompleteKeepsInv(s1.(inbox := s1.inbox + [id]), id, w, answers);
    }
  }

  lemma FailureKeepsInv(s: State, id: nat, answers: set<ReservationState>)
    requires Inv(s, answers) && id < |s.events|
    ensures Inv(s.(events := s.events[id := FailOne(s.events[id], s.now, RETRY_SECONDS)]), answers)
  {
    DeliveryKeepsInv(s, s.(events := s.events[id := FailOne(s.events[id], s.now, RETRY_SECONDS)]), answers);
  }

  lemma WorkKeepsInv(s: State, w: Worker, id: nat, a: Answers, raced: bool, fault: bool, answers: set<ReservationState>)
    requires Inv(s, answers) && (forall j :: a.consume(j) in answers)
    ensures Inv(WorkOn(s, w, id, a, raced, fault), answers)
  {
    if (w, id) in s.held && id < |s.events| {
      var s1 := s.(held := s.held - {(w, id)});
      DeliveryKeepsInv(s, s1, answers);
      if !fault && Transact(s1, id, w, a, raced).Ok? {
        TransactKeepsInv(s1, id, w, a, raced, answers);
      } else {
        FailureKeepsInv(s1, id, answers);
      }
    }
  }

  /** What a claim does to the outbox: keys stay, and nothing becomes PUBLISHED. */
  lemma ClaimFrame(events: seq<Event>, now: int, limit: int, locked: set<nat>, w: Worker)
    ensures
      var t := ClaimTable(events, now, limit, locked, w, LEASE_SECONDS);
      && SameKeys(events, t)
      && forall i :: 0 <= i < |events| && t[i].status == Published ==> events[i].status == Published
  {
  }

  lemma ClaimKeepsInv(s: State, w: Worker, limit: int, locked: set<nat>, answers: set<ReservationState>)
    requires Inv(s, answers)
    ensures Inv(ClaimStep(s, w, limit, locked), answers)
  {
    ClaimFrame(s.events, s.now, limit, locked, w);
    DeliveryKeepsInv(s, ClaimStep(s, w, limit, locked), answers);
  }

  // ----- requests -----

  lemma NewEventHistory(s: State, t: State, e: Event, j: nat)
    requires TablesHold(s) && t.events == s.events + [e] && t.ran == s.ran
    requires e.topic == PaymentCreated || e.topic == PaymentCancellation
    ensures
      var asked := e.topic == PaymentCancellation && e.aggregate == OrderKey(j);
      HistoryOf(t, j) == HistoryOf(s, j).(cancelQueued := HistoryOf(s, j).cancelQueued || asked)
  {
    EnqueuedAfterAppend(s.events, e, PaymentMessage, OrderKey(j));
    EnqueuedAfterAppend(s.events, e, PaymentValue, OrderKey(j));
    EnqueuedAfterAppend(s.events, e, PaymentCancellation, OrderKey(j));
    HandledStays(s, t, PaymentCancellation, OrderKey(j));
    forall i: nat
      ensures i in HistoryOf(t, j).funded <==> i in HistoryOf(s, j).funded
    {
      HandledStays(s, t, FundingReserve, ReservationKey(j, i));
    }
    assert HistoryOf(t, j).funded == HistoryOf(s, j).funded;
  }

  lemma NewEventKeepsTables(s: State, t: State, e: Event)
    requires TablesHold(s) && t.events == s.events + [e] && t.ran == s.ran && t.inbox == s.inbox
             && |s.orders| <= |t.orders|
    requires e.status == Pending && WellKeyed(e) && e.aggregate.order < |t.orders|
             && !Enqueued(s.events, e.topic, e.aggregate)
    ensures TablesHold(t)
  {
    AppendKeepsTable(s.events, e);
  }

  /** An order nothing speaks of yet. */
  lemma UnknownOrderHistory(s: State)
    requires TablesHold(s)
    ensures HistoryOf(s, |s.orders|) == History(iset{}, false, false, false)
  {
    assert HistoryOf(s, |s.orders|).funded == iset{};
  }

  lemma NewOrderIsSound(p: Payment, counter: Option<LimitKey>, answers: set<ReservationState>)
    ensures Sound(NewOrder(p.amount, p.sameCurrency, p.screeningPasses, p.scope, counter),
                  History(iset{}, false, false, false), answers)
  {
    var o := NewOrder(p.amount, p.sameCurrency, p.screeningPasses, p.scope, counter);
    assert o.facts[0].kind == Message && o.facts[3].kind == Funding;
    assert o.facts[5].kind == Settlement && o.facts[6].kind == Beneficiary;
  }

  /** What the creation of an order writes, whatever its limits. */
  lemma CreateWrites(s: State, p: Payment) returns (counter: Option<LimitKey>)
    requires CreateOrder(s, p).Ok?
    ensures
      var t := CreateOrder(s, p).value;
      && t.orders == s.orders + [NewOrder(p.amount, p.sameCurrency, p.screeningPasses, p.scope, counter)]
      && t.events == s.events + [NewEvent(PaymentCreated, OrderKey(|s.orders|), 0, s.now)]
      && !Enqueued(s.events, PaymentCreated, OrderKey(|s.orders|))
      && t.ran == s.ran && t.inbox == s.inbox
  {
    counter := if p.profile.None? then None else Some(LimitKey(p.scope, p.day));
  }

  lemma CreateKeepsInv(s: State, p: Payment, answers: set<ReservationState>)
    requires Inv(s, answers) && CreateOrder(s, p).Ok?
    ensures Inv(CreateOrder(s, p).value, answers)
  {
    var t, n := CreateOrder(s, p).value, |s.orders|;
    var counter := CreateWrites(s, p);
    var e := NewEvent(PaymentCreated, OrderKey(n), 0, s.now);
    NewEventKeepsTables(s, t, e);
    forall j | 0 <= j < |t.orders|
      ensures Sound(t.orders[j], HistoryOf(t, j), answers)
    {
      NewEventHistory(s, t, e, j);
      if j == n {
        UnknownOrderHistory(s);
        NewOrderIsSound(p, counter, answers);
      } else {
        assert Sound(s.orders[j], HistoryOf(s, j), answers);
      }
    }
  }

  lemma RequestWrites(s: State, k: nat)
    requires RequestCancel(s, k).Ok?
    ensures
      var t := RequestCancel(s, k).value;
      && k < |s.orders| && t.orders == s.orders[k := Requested(s.orders[k])]
      && t.events == s.events + [NewEvent(PaymentCancellation, OrderKey(k), |s.orders[k].cancellations|, s.now)]
      && !Enqueued(s.events, PaymentCancellation, OrderKey(k)) && t.ran == s.ran && t.inbox == s.inbox
  {
  }

  lemma UnaskedOrder(s: State, k: nat, answers: set<ReservationState>)
    requires Inv(s, answers) && k < |s.orders| && !Enqueued(s.events, PaymentCancellation, OrderKey(k))
    ensures s.orders[k].cancellations == []
    ensures Sound(Requested(s.orders[k]), HistoryOf(s, k).(cancelQueued := true), answers)
  {
    assert Sound(s.orders[k], HistoryOf(s, k), answers);
    RequestKeepsSound(s.orders[k], Requested(s.orders[k]), HistoryOf(s, k), answers);
  }

  lemma RequestKeepsInv(s: State, k: nat, answers: set<ReservationState>)
    requires Inv(s, answers) && RequestCancel(s, k).Ok?
    ensures Inv(RequestCancel(s, k).value, answers)
  {
    var t := RequestCancel(s, k).value;
    var e := NewEvent(PaymentCancellation, OrderKey(k), |s.orders[k].cancellations|, s.now);
    RequestWrites(s, k);
    UnaskedOrder(s, k, answers);
    NewEventKeepsTables(s, t, e);
    forall j | 0 <= j < |t.orders|
      ensures j != k ==> t.orders[j] == s.orders[j] && HistoryOf(t, j) == HistoryOf(s, j)
    {
      NewEventHistory(s, t, e, j);
    }
    NewEventHistory(s, t, e, k);
    OneRowKeepsInv(s, t, k, answers);
  }

  lemma IntentHistory(s: State, t: State, k: nat, jobs: seq<Job>, j: nat)
    requires TablesHold(s) && t.ran == s.ran && EnqueueAll(s.events, jobs, k, s.now) == Ok(t.events)
    requires forall i :: 0 <= i < |jobs| ==> jobs[i].topic == FundingReserve
    ensures HistoryOf(t, j) == HistoryOf(s, j)
  {
    EnqueuedAfterAll(s.events, jobs, k, s.now, PaymentMessage, OrderKey(j));
    EnqueuedAfterAll(s.events, jobs, k, s.now, PaymentValue, OrderKey(j));
    EnqueuedAfterAll(s.events, jobs, k, s.now, PaymentCancellation, OrderKey(j));
    HandledStays(s, t, PaymentCancellation, OrderKey(j));
    forall i: nat
      ensures i in HistoryOf(t, j).funded <==> i in HistoryOf(s, j).funded
    {
      HandledStays(s, t, FundingReserve, ReservationKey(j, i));
    }
    assert HistoryOf(t, j).funded == HistoryOf(s, j).funded;
  }

  lemma IntentKeepsTables(s: State, t: State, k: nat, jobs: seq<Job>)
    requires TablesHold(s) && EnqueueAll(s.events, jobs, k, s.now) == Ok(t.events) && HandlerJobs(jobs)
    requires t.ran == s.ran && t.inbox == s.inbox && |t.orders| == |s.orders| && k < |s.orders|
    ensures TablesHold(t)
  {
    EnqueueAllAppends(s.events, jobs, k, s.now);
    forall i | 0 <= i < |t.events|
      ensures t.events[i].aggregate.order < |t.orders|
      ensures t.events[i].status == Published ==> i in t.ran
    {
      if i < |s.events| {
        assert t.events[i] == s.events[i];
      }
    }
  }

  lemma QuoteWrites(s: State, k: nat, quote: nat, sold: nat, bought: nat, usable: bool)
    requires AcceptFxQuote(s, k, quote, sold, bought, usable).Ok?
    ensures
      var t := AcceptFxQuote(s, k, quote, sold, bought, usable).value;
      && k < |s.orders| && !s.orders[k].sameCurrency
      && t.orders == s.orders[k := WithIntent(s.orders[k], quote, sold, bought)]
      && EnqueueAll(s.events, IntentJobs(s.orders[k]), k, s.now) == Ok(t.events)
      && t.ran == s.ran && t.inbox == s.inbox && t.counters == s.counters && t.positions == s.positions
  {
  }

  lemma QuoteKeepsInv(s: State, k: nat, quote: nat, sold: nat, bought: nat, usable: bool,
                      answers: set<ReservationState>)
    requires Inv(s, answers) && AcceptFxQuote(s, k, quote, sold, bought, usable).Ok?
    ensures Inv(AcceptFxQuote(s, k, quote, sold, bought, usable).value, answers)
  {
    var t := AcceptFxQuote(s, k, quote, sold, bought, usable).value;
    QuoteWrites(s, k, quote, sold, bought, usable);
    var o := s.orders[k];
    IntentKeepsTables(s, t, k, IntentJobs(o));
    forall j
      ensures HistoryOf(t, j) == HistoryOf(s, j)
    {
      IntentHistory(s, t, k, IntentJobs(o), j);
    }
    assert Sound(o, HistoryOf(s, k), answers);
    IntentKeepsSound(o, t.orders[k], Intent(quote, sold, bought, Preparing), HistoryOf(s, k), answers);
    OneRowKeepsInv(s, t, k, answers);
  }

  /** Journals are only ever posted, and cases come and go. */
  predicate LedgerEdit(o: Order, p: Order) {
    p == o.(postedJournals := p.postedJournals, openCases := p.openCases) && p.postedJournals >= o.postedJournals
  }

  lemma LedgerEditIsSound(o: Order, p: Order, h: History, answers: set<ReservationState>)
    requires Sound(o, h, answers) && LedgerEdit(o, p)
    ensures Sound(p, h, answers)
  {
    TradeFrame(o, p);
  }

  lemma LedgerEditKeepsInv(s: State, k: nat, p: Order, answers: set<ReservationState>)
    requires Inv(s, answers) && k < |s.orders| && LedgerEdit(s.orders[k], p)
    ensures Inv(s.(orders := s.orders[k := p]), answers)
  {
    var t := s.(orders := s.orders[k := p]);
    forall j
      ensures HistoryOf(t, j) == HistoryOf(s, j)
    {
      SameKeysSameHistory(s, t, j);
    }
    assert Sound(s.orders[k], HistoryOf(s, k), answers);
    LedgerEditIsSound(s.orders[k], p, HistoryOf(s, k), answers);
    OneRowKeepsInv(s, t, k, answers);
  }

  ghost predicate AnswersIn(step: Step, answers: set<ReservationState>) {
    step.Work? ==> forall j :: step.answers.consume(j) in answers
  }

  lemma ReplayKeepsInv(s: State, id: nat, checker: nat, answers: set<ReservationState>)
    requires Inv(s, answers) && Approve(s, id, checker).Ok?
    ensures Inv(Approve(s, id, checker).value, answers)
  {
    DeliveryKeepsInv(s, Approve(s, id, checker).value, answers);
  }

  lemma RequestReplayKeepsInv(s: State, id: nat, maker: nat, answers: set<ReservationState>)
    requires Inv(s, answers) && RequestReplay(s, id, maker).Ok?
    ensures Inv(RequestReplay(s, id, maker).value, answers)
  {
    DeliveryKeepsInv(s, RequestReplay(s, id, maker).value, answers);
  }

  lemma HeartbeatKeepsInv(s: State, w: Worker, id: nat, answers: set<ReservationState>)
    requires Inv(s, answers) && id < |s.events| && HeartbeatOne(s.events[id], w, s.now, LEASE_SECONDS).Ok?
    ensures Inv(s.(events := s.events[id := HeartbeatOne(s.events[id], w, s.now, LEASE_SECONDS).value]), answers)
  {
    DeliveryKeepsInv(s, s.(events := s.events[id := HeartbeatOne(s.events[id], w, s.now, LEASE_SECONDS).value]),
                     answers);
  }

  predicate ChangesOrders(step: Step) {
    step.Create? || step.AcceptQuote? || step.RequestCancellation? || step.PostJournal? || step.SetCases?
  }

  lemma CommittedKeepsInv(s: State, r: Result<State>, answers: set<ReservationState>)
    requires Inv(s, answers) && (r.Ok? ==> Inv(r.value, answers))
    ensures Inv(Committed(s, r), answers)
  {
  }

  lemma PostingIsAnEdit(o: Order)
    ensures LedgerEdit(o, WithJournal(o))
  {
  }

  lemma PostingKeepsInv(s: State, k: nat, answers: set<ReservationState>)
    requires Inv(s, answers)
    ensures Inv(Posted(s, k), answers)
  {
    if k < |s.orders| {
      PostingIsAnEdit(s.orders[k]);
      LedgerEditKeepsInv(s, k, WithJournal(s.orders[k]), answers);
    }
  }

  lemma CasesKeepInv(s: State, k: nat, open: nat, answers: set<ReservationState>)
    requires Inv(s, answers)
    ensures Inv(WithCases(s, k, open), answers)
  {
    if k < |s.orders| {
      LedgerEditKeepsInv(s, k, s.orders[k].(openCases := open), answers);
    }
  }

  /** The requests of customers and operators. */
  lemma RequestsKeepInv(s: State, step: Step, answers: set<ReservationState>)
    requires Inv(s, answers) && ChangesOrders(step)
    ensures Inv(Apply(s, step), answers)
  {
    match step
    case Create(payment) =>
      if CreateOrder(s, payment).Ok? {
        CreateKeepsInv(s, payment, answers);
      }
      CommittedKeepsInv(s, CreateOrder(s, payment), answers);
    case AcceptQuote(k, quote, sold, bought, usable) =>
      if AcceptFxQuote(s, k, quote, sold, bought, usable).Ok? {
        QuoteKeepsInv(s, k, quote, sold, bought, usable, answers);
      }
      CommittedKeepsInv(s, AcceptFxQuote(s, k, quote, sold, bought, usable), answers);
    case RequestCancellation(k) =>
      if RequestCancel(s, k).Ok? {
        RequestKeepsInv(s, k, answers);
      }
      CommittedKeepsInv(s, RequestCancel(s, k), answers);
    case PostJournal(k) => PostingKeepsInv(s, k, answers);
    case SetCases(k, open) => CasesKeepInv(s, k, open, answers);
    case _ =>
  }

  lemma {:induction false} ApplyKeepsInv(s: State, step: Step, answers: set<ReservationState>)
    requires Inv(s, answers) && AnswersIn(step, answers)
    ensures Inv(Apply(s, step), answers)
  {
    if ChangesOrders(step) {
      RequestsKeepInv(s, step, answers);
    } else {
      match step
      case Tick(_) => DeliveryKeepsInv(s, Apply(s, step), answers);
      case Claim(w, limit, locked) => ClaimKeepsInv(s, w, limit, locked, answers);
      case Heartbeat(w, id) =>
        if id < |s.events| && HeartbeatOne(s.events[id], w, s.now, LEASE_SECONDS).Ok? {
          HeartbeatKeepsInv(s, w, id, answers);
        }
      case Work(w, id, a, raced, fault) => WorkKeepsInv(s, w, id, a, raced, fault, answers);
      case Crash(_) => DeliveryKeepsInv(s, Apply(s, step), answers);
      case CreateReplay(id, maker) =>
        if RequestReplay(s, id, maker).Ok? {
          RequestReplayKeepsInv(s, id, maker, answers);
        }
      case ApproveReplay(id, checker) =>
        if Approve(s, id, checker).Ok? {
          ReplayKeepsInv(s, id, checker, answers);
        }
      case _ =>
    }
  }

  // ----- whole runs -----

  ghost predicate RunAnswersIn(steps: seq<Step>, answers: set<ReservationState>) {
    forall i :: 0 <= i < |steps| ==> AnswersIn(steps[i], answers)
  }

  lemma {:induction false} RunKeepsInv(s: State, steps: seq<Step>, answers: set<ReservationState>)
    requires Inv(s, answers) && RunAnswersIn(steps, answers)
    ensures Inv(Run(s, steps), answers)
    decreases |steps|
  {
    if steps != [] {
      RunKeepsInv(s, steps[..|steps| - 1], answers);
      ApplyKeepsInv(Run(s, steps[..|steps| - 1]), steps[|steps| - 1], answers);
    }
  }

  function AllReservationStates(): (all: set<ReservationState>)
    ensures forall x: ReservationState :: x in all
  {
    var all := {ReservationRequested, Reserved, Released, Consumed, ReservationFailed, ReservationExpired,
                ReservationUnknown};
    assert forall x: ReservationState :: x in all by {
      forall x: ReservationState
        ensures x in all
      {
        assert x.Released? || x.Consumed? || !(x.Released? || x.Consumed?);
      }
    }
    all
  }

  /** The invariant holds in every reachable state, for any answers. */
  lemma {:induction false} Reachable(now: int, sandbox: bool, steps: seq<Step>)
    ensures Inv(Run(Start(now, sandbox), steps), AllReservationStates())
  {
    RunKeepsInv(Start(now, sandbox), steps, AllReservationStates());
  }

  /** Whatever happens, a handler's effects commit at most once per event, and exactly once for a published one. */
  lemma {:induction false} EffectsCommitOnce(now: int, sandbox: bool, steps: seq<Step>, id: nat)
    ensures
      var t := Run(Start(now, sandbox), steps);
      && multiset(t.ran)[id] <= 1
      && multiset(t.inbox) == multiset(t.ran)
      && (id < |t.events| && t.events[id].status == Published ==> multiset(t.ran)[id] == 1)
  {
    Reachable(now, sandbox, steps);
    CountOfDistinct(Run(Start(now, sandbox), steps).ran, id);
  }

  lemma {:induction false} CountOfDistinct(ids: seq<nat>, id: nat)
    requires NoDuplicates(ids)
    ensures multiset(ids)[id] == if id in ids then 1 else 0
    decreases |ids|
  {
    if ids != [] {
      var n := |ids| - 1;
      assert ids == ids[..n] + [ids[n]];
      CountOfDistinct(ids[..n], id);
    }
  }

  /** The chain behind every successful close. A same-currency order passed both controls and consumed one reservation
      for its amount; a cross-currency order settled both legs of one accepted quote, and the value leg is for what that
      quote bought. Either has its value final, one evidenced credit, a MATCHED reconciliation and a posted journal. */
  lemma {:induction false} ClosedOrdersAreFulfilled(now: int, sandbox: bool, steps: seq<Step>,
                                                    answers: set<ReservationState>, j: nat)
    requires RunAnswersIn(steps, answers)
    requires j < |Run(Start(now, sandbox), steps).orders|
    ensures
      var o := Run(Start(now, sandbox), steps).orders[j];
      o.state == OperationallyClosed ==>
        && o.credits == [Credit(Credited, true)] && Matched in o.reconciliations && o.postedJournals > 0
        && o.outcome == Some(Completed) && o.leg.state == LegFinal
        && (o.sameCurrency ==> Fulfilled(o, answers) && o.leg.amount == o.amount)
        && (!o.sameCurrency ==> Traded(o) && FxLegsFinal(o))
  {
    RunKeepsInv(Start(now, sandbox), steps, answers);
    var t := Run(Start(now, sandbox), steps);
    assert Sound(t.orders[j], HistoryOf(t, j), answers);
  }

  /** The answers of the sandbox connectors. */
  function Sandbox(): Answers {
    Answers(true, Reserved, (_: nat) => Consumed, Delivered, LegFinal, TradeAccepted, CancelGranted)
  }

  /** In the sandbox a closed same-currency order has consumed its reservation, and nothing else happened to it. */
  lemma {:induction false} SandboxOrdersAreConsumed(now: int, steps: seq<Step>, j: nat)
    requires forall i :: 0 <= i < |steps| ==> steps[i].Work? ==> steps[i].answers == Sandbox()
    requires j < |Run(Start(now, true), steps).orders|
    ensures
      var o := Run(Start(now, true), steps).orders[j];
      o.state == OperationallyClosed && o.sameCurrency ==>
        o.reservations == [Reservation(o.amount, None, Consumed, [ReservationRequested, Reserved, Consumed])]
  {
    forall i | 0 <= i < |steps|
      ensures AnswersIn(steps[i], {Consumed})
    {
    }
    RunKeepsInv(Start(now, true), steps, {Consumed});
    var t := Run(Start(now, true), steps);
    assert Sound(t.orders[j], HistoryOf(t, j), {Consumed});
  }

  /** Completion and cancellation exclude each other, for every order, and intermediate states are never committed. */
  lemma {:induction false} CompletionExcludesCancellation(now: int, sandbox: bool, steps: seq<Step>, j: nat)
    requires j < |Run(Start(now, sandbox), steps).orders|
    ensures
      var o := Run(Start(now, sandbox), steps).orders[j];
      && !(o.credits != [] && CancelAccepted in o.cancellations)
      && (o.leg.state == LegFinal <==> o.state == OperationallyClosed)
      && (o.credits != [] <==> o.state == OperationallyClosed)
      && (o.outcome == Some(Completed) <==> o.state == OperationallyClosed)
      && (CancelAccepted in o.cancellations ==>
            o.state == OperationallyClosedUnsuccessful && o.outcome == Some(Cancelled))
      && o.state !in {ValueSettlement, CustomerCompleted, ComplianceRejected, ExecutionCancelled}
  {
    Reachable(now, sandbox, steps);
    var t := Run(Start(now, sandbox), steps);
    assert Sound(t.orders[j], HistoryOf(t, j), AllReservationStates());
  }
}

/** The payment saga: orders, outbox, inbox and workers as one state machine. */
module Saga {
  import opened Results
  import opened Orders
  import opened LimitDesk
  import opened Outbox
  import opened Handlers

  datatype Replay = Replay(maker: nat, approved: bool)

  /** The database and the claims the workers hold in memory. `inbox` lists the receipt rows in insertion order. `ran`
      is a history variable: it grows with every committed run of a handler, whatever the inbox says. */
  datatype State = State(
    now: int,
    sandbox: bool,
    orders: seq<Order>,
    counters: map<LimitKey, Counter>,
    positions: map<Scope, Position>,
    events: seq<Event>,
    inbox: seq<nat>,
    ran: seq<nat>,
    replays: map<nat, Replay>,
    held: set<(Worker, nat)>
  ) {
    /** The order table with its limit tables. */
    function Desk(): Desk {
      LimitDesk.Desk(counters, positions, orders)
    }

    function WithDesk(d: Desk): State {
      this.(counters := d.counters, positions := d.positions, orders := d.orders)
    }
  }

  function Start(now: int, sandbox: bool): State {
    State(now, sandbox, [], map[], map[], [], [], [], map[], {})
  }

  /** What a payment request brings with it. */
  datatype Payment = Payment(
    scope: Scope,
    day: int,
    amount: nat,
    sameCurrency: bool,
    screeningPasses: bool,
    profile: Option<Profile>
  )

  /** One committed transaction, or one event of the environment. `usable` says that the quote exists, belongs to the
      participant, matches the order's currencies and has not expired. */
  datatype Step =
    | Tick(seconds: nat)
    | Create(payment: Payment)
    | AcceptQuote(order: nat, quote: nat, sold: nat, bought: nat, usable: bool)
    | RequestCancellation(order: nat)
    | PostJournal(order: nat)
    | SetCases(order: nat, open: nat)
    | Claim(worker: Worker, limit: int, locked: set<nat>)
    | Heartbeat(worker: Worker, event: nat)
    | Work(worker: Worker, event: nat, answers: Answers, raced: bool, fault: bool)
    | Crash(worker: Worker)
    | CreateReplay(event: nat, maker: nat)
    | ApproveReplay(event: nat, checker: nat)

  predicate Enqueued(events: seq<Event>, topic: Topic, key: Key) {
    exists i :: 0 <= i < |events| && events[i].topic == topic && events[i].aggregate == key
  }

  /** The worker's look-up before it enqueues: dead-lettered events do not count. */
  predicate Queued(events: seq<Event>, topic: Topic, key: Key) {
    exists i :: 0 <= i < |events| && events[i].topic == topic && events[i].aggregate == key
      && events[i].status != DeadLetter
  }

  /** Insertion under the unique key (topic, aggregate, sequence); every event is enqueued with sequence 1. */
  function EnqueueEvent(events: seq<Event>, topic: Topic, key: Key, item: nat, now: int): Result<seq<Event>> {
    if Enqueued(events, topic, key) then Err(IntegrityError)
    else Ok(events + [NewEvent(topic, key, item, now)])
  }

  /** The aggregate of an event of this topic about this row of the order. */
  function KeyOf(topic: Topic, order: nat, item: nat): Key {
    match topic
    case FundingReserve => ReservationKey(order, item)
    case FxAccept => IntentKey(order, item)
    case SettlementSubmit => LegKey(order, item)
    case _ => OrderKey(order)
  }

  function EventOf(job: Job, order: nat, now: int): Event {
    NewEvent(job.topic, KeyOf(job.topic, order, job.item), job.item, now)
  }

  function EnqueueAll(events: seq<Event>, jobs: seq<Job>, order: nat, now: int): (r: Result<seq<Event>>)
    ensures r.Ok? ==> events <= r.value
    decreases |jobs|
  {
    if jobs == [] then Ok(events)
    else
      var job := jobs[0];
      var events1 :- EnqueueEvent(events, job.topic, KeyOf(job.topic, order, job.item), job.item, now);
      EnqueueAll(events1, jobs[1..], order, now)
  }

  lemma EnqueueOne(events: seq<Event>, job: Job, k: nat, now: int)
    ensures EnqueueAll(events, [job], k, now)
            == EnqueueEvent(events, job.topic, KeyOf(job.topic, k, job.item), job.item, now)
  {
    assert [job][1..] == [];
  }

  /** The handler an event is dispatched to, applied to the row of its order. */
  function Dispatch(s: State, e: Event, a: Answers): Result<Effect>
    requires e.aggregate.order < |s.orders|
  {
    var k := e.aggregate.order;
    var o := s.orders[k];
    match e.topic
    case PaymentCreated => PaymentCreatedHandler(o, s.sandbox, a)
    case FundingReserve => FundingHandler(o, e.item, a, Queued(s.events, PaymentMessage, OrderKey(k)))
    case FxAccept => TradeHandler(o, e.item, a)
    case SettlementSubmit => SettlementHandler(o, e.item, a, Queued(s.events, PaymentMessage, OrderKey(k)))
    case PaymentMessage => MessageHandler(o, a, Queued(s.events, PaymentValue, OrderKey(k)))
    case PaymentValue => ValueHandler(o, a)
    case PaymentCancellation => CancellationHandler(o, e.item, a)
  }

  /** The tables a handler's outcome leads to: the order row with its limits, and the outbox. */
  function Written(d: Desk, events: seq<Event>, k: nat, outcome: Result<Effect>, now: int): Result<(Desk, seq<Event>)>
    requires k < |d.orders|
  {
    var effect :- outcome;
    var d1 :- Settle(d, k, effect.order);
    var events1 :- EnqueueAll(events, effect.enqueued, k, now);
    Ok((d1, events1))
  }

  /** A handler's outcome written to the database. */
  function Absorb(s: State, id: nat, outcome: Result<Effect>): (r: Result<State>)
    requires id < |s.events| && s.events[id].aggregate.order < |s.orders|
    ensures r.Ok? ==> s.events <= r.value.events
  {
    var tables :- Written(s.Desk(), s.events, s.events[id].aggregate.order, outcome, s.now);
    Ok(s.WithDesk(tables.0).(events := tables.1, ran := s.ran + [id]))
  }

  function Handle(s: State, id: nat, a: Answers): (r: Result<State>)
    requires id < |s.events|
    ensures r.Ok? ==> s.events <= r.value.events
  {
    if s.events[id].aggregate.order >= |s.orders| then Err(NoRow)
    else Absorb(s, id, Dispatch(s, s.events[id], a))
  }

  function Complete(s: State, id: nat, w: Worker): Result<State>
    requires id < |s.events|
  {
    var row :- CompleteOne(s.events[id], Some(w));
    Ok(s.(events := s.events[id := row]))
  }

  /** The transaction of one event: receipt, handler, completion. `raced` says that the look-up for the
      receipt ran before a concurrent transaction committed it, so that the insert meets the unique key. */
  function Transact(s: State, id: nat, w: Worker, a: Answers, raced: bool): Result<State>
    requires id < |s.events|
  {
    if id in s.inbox then
      if raced then Err(IntegrityError) else Complete(s, id, w)
    else
      var s1 :- Handle(s, id, a);
      Complete(s1.(inbox := s1.inbox + [id]), id, w)
  }

  /** One turn of the worker's loop: commit, or roll back and record the failure. */
  function WorkOn(s: State, w: Worker, id: nat, a: Answers, raced: bool, fault: bool): State {
    if (w, id) !in s.held || id >= |s.events| then s
    else
      var s1 := s.(held := s.held - {(w, id)});
      var r := if fault then Err(Conflict) else Transact(s1, id, w, a, raced);
      if r.Ok? then r.value
      else s1.(events := s1.events[id := FailOne(s1.events[id], s1.now, RETRY_SECONDS)])
  }

  /** The order with a new cancellation request and its first fact. */
  function Requested(o: Order): Order {
    o.(cancellations := o.cancellations + [CancelRequested],
       facts := o.facts + [Fact(Cancellation, Numbered("can_", |o.cancellations|), 1)])
  }

  function RequestCancel(s: State, k: nat): Result<State> {
    var _ :- Need(k < |s.orders|, Conflict);
    var o := s.orders[k];
    var _ :- Need(!Terminal(o.state), Conflict);
    var events1 :- EnqueueEvent(s.events, PaymentCancellation, OrderKey(k), |o.cancellations|, s.now);
    Ok(s.(orders := s.orders[k := Requested(o)], events := events1))
  }

  function CreateOrder(s: State, p: Payment): Result<State> {
    var d :- AddOrder(s.Desk(), p.scope, p.day, p.amount, p.sameCurrency, p.screeningPasses, p.profile);
    var events1 :- EnqueueEvent(s.events, PaymentCreated, OrderKey(|s.orders|), 0, s.now);
    Ok(s.WithDesk(d).(events := events1))
  }

  /** A quote is accepted at most once, by the unique key of the intents. */
  predicate QuoteTaken(orders: seq<Order>, quote: nat) {
    exists j :: 0 <= j < |orders| && exists x :: 0 <= x < |orders[j].intents| && orders[j].intents[x].quote == quote
  }

  /** The order with a new intent and its two reservations; the order's state plays no part. */
  function WithIntent(o: Order, quote: nat, sold: nat, bought: nat): Order {
    var x := |o.intents|;
    var reservations := [NewReservation(o.amount, Some(x)), NewReservation(bought, Some(x))];
    AppendFact(o.(intents := o.intents + [Intent(quote, sold, bought, Preparing)],
                  reservations := o.reservations + reservations),
               Fx, Numbered("fxi_", x))
  }

  function IntentJobs(o: Order): seq<Job> {
    [Job(FundingReserve, |o.reservations|), Job(FundingReserve, |o.reservations| + 1)]
  }

  function AcceptFxQuote(s: State, k: nat, quote: nat, sold: nat, bought: nat, usable: bool): Result<State> {
    var _ :- Need(k < |s.orders| && usable, Conflict);
    var o := s.orders[k];
    var _ :- Need(!o.sameCurrency, Conflict);
    var _ :- Need(!QuoteTaken(s.orders, quote), IntegrityError);
    var events1 :- EnqueueAll(s.events, IntentJobs(o), k, s.now);
    Ok(s.(orders := s.orders[k := WithIntent(o, quote, sold, bought)], events := events1))
  }

  function RequestReplay(s: State, id: nat, maker: nat): Result<State> {
    var _ :- Need(id < |s.events| && s.events[id].status == DeadLetter, NoRow);
    var _ :- Need(id !in s.replays, Conflict);
    Ok(s.(replays := s.replays[id := Replay(maker, false)]))
  }

  function Approve(s: State, id: nat, checker: nat): Result<State> {
    var _ :- Need(id in s.replays && !s.replays[id].approved, NoRow);
    var _ :- Need(s.replays[id].maker != checker, Conflict);
    var _ :- Need(id < |s.events| && s.events[id].status == DeadLetter, Conflict);
    var retried := s.events[id].(status := Pending, availableAt := s.now, leaseOwner := None, leaseUntil := None);
    Ok(s.(replays := s.replays[id := s.replays[id].(approved := true)], events := s.events[id := retried]))
  }

  function Committed(s: State, r: Result<State>): State {
    if r.Ok? then r.value else s
  }

  function ClaimStep(s: State, w: Worker, limit: int, locked: set<nat>): State {
    var batch := ClaimBatch(s.events, s.now, limit, locked);
    s.(events := ClaimTable(s.events, s.now, limit, locked, w, LEASE_SECONDS),
       held := s.held + (set i | i in batch :: (w, i)))
  }

  function WithJournal(o: Order): Order {
    o.(postedJournals := o.postedJournals + 1)
  }

  function Posted(s: State, k: nat): State {
    if k < |s.orders| then s.(orders := s.orders[k := WithJournal(s.orders[k])]) else s
  }

  function WithCases(s: State, k: nat, open: nat): State {
    if k < |s.orders| then s.(orders := s.orders[k := s.orders[k].(openCases := open)]) else s
  }

  function Apply(s: State, step: Step): State {
    match step
    case Tick(seconds) => s.(now := s.now + seconds)
    case Create(payment) => Committed(s, CreateOrder(s, payment))
    case AcceptQuote(k, quote, sold, bought, usable) => Committed(s, AcceptFxQuote(s, k, quote, sold, bought, usable))
    case RequestCancellation(k) => Committed(s, RequestCancel(s, k))
    case PostJournal(k) => Posted(s, k)
    case SetCases(k, open) => WithCases(s, k, open)
    case Claim(w, limit, locked) => ClaimStep(s, w, limit, locked)
    case Heartbeat(w, id) =>
      if id < |s.events| && HeartbeatOne(s.events[id], w, s.now, LEASE_SECONDS).Ok?
      then s.(events := s.events[id := HeartbeatOne(s.events[id], w, s.now, LEASE_SECONDS).value]) else s
    case Work(w, id, a, raced, fault) => WorkOn(s, w, id, a, raced, fault)
    case Crash(w) => s.(held := set h | h in s.held && h.0 != w)
    case CreateReplay(id, maker) => Committed(s, RequestReplay(s, id, maker))
    case ApproveReplay(id, checker) => Committed(s, Approve(s, id, checker))
  }

  function Run(s: State, steps: seq<Step>): State
    decreases |steps|
  {
    if steps == [] then s else Apply(Run(s, steps[..|steps| - 1]), steps[|steps| - 1])
  }

  lemma OneStepMore(s: State, before: seq<Step>, later: seq<Step>)
    requires later != []
    ensures Run(s, before + later) == Apply(Run(s, before + later[..|later| - 1]), later[|later| - 1])
  {
    var all, n := before + later, |later| - 1;
    assert all[..|all| - 1] == before + later[..n] && all[|all| - 1] == later[n];
    RunEndsWith(s, all);
  }

  lemma RunEndsWith(s: State, steps: seq<Step>)
    requires steps != []
    ensures Run(s, steps) == Apply(Run(s, steps[..|steps| - 1]), steps[|steps| - 1])
  {
  }
}

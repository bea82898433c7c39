/** The worker over its database: handlers that edit rows step by step, inside transactions that
    commit or roll back, proved equal to the steps of the saga. */
module Worker {
  import opened Results
  import opened Orders
  import opened LimitDesk
  import opened OrderStore
  import opened Completion
  import opened Outbox
  import opened Handlers
  import opened Saga
  import opened SagaInvariant

  /** What writing a row's new value comes to: a refusal, or the tables with its limits finalised. */
  function Stored(d: Desk, k: nat, r: Result<Order>): Result<Desk>
    requires k < |d.orders|
  {
    var o :- r;
    Settle(d, k, o)
  }

  /** The tables with row `k` rewritten and the limits left alone. */
  function WithRow(d: Desk, k: nat, o: Order): Desk
    requires k < |d.orders|
  {
    d.(orders := d.orders[k := o])
  }

  /** A rewriting that neither ends an order nor touches its ticket. */
  predicate Passing(o: Order, p: Order) {
    SameTicket(o, p) && Terminal(o.state) == Terminal(p.state)
  }

  /** Tables `t` are `d` with row `k` rewritten in passing. */
  predicate PassingRow(d: Desk, k: nat, t: Desk) {
    k < |d.orders| && k < |t.orders| && t == WithRow(d, k, t.orders[k]) && Passing(d.orders[k], t.orders[k])
  }

  lemma PassingOnward(d: Desk, k: nat, t: Desk, o: Order)
    requires PassingRow(d, k, t) && Passing(t.orders[k], o)
    ensures PassingRow(d, k, WithRow(t, k, o))
  {
    assert t.orders[k := o] == d.orders[k := o];
  }

  /** A row that is rewritten in passing may be written again: only its last value counts. */
  lemma LastWriteCounts(d: Desk, k: nat, t: Desk, r: Result<Order>)
    requires PassingRow(d, k, t)
    ensures Stored(t, k, r) == Stored(d, k, r)
  {
    if r.Ok? {
      assert t.orders[k := r.value] == d.orders[k := r.value];
    }
  }

  lemma LastOutcomeCounts(d: Desk, k: nat, t: Desk, events: seq<Event>, outcome: Result<Effect>, now: int)
    requires PassingRow(d, k, t)
    ensures Written(t, events, k, outcome, now) == Written(d, events, k, outcome, now)
  {
    if outcome.Ok? {
      LastWriteCounts(d, k, t, Ok(outcome.value.order));
    }
  }

  /** Method outcome `r` with the tables it leaves, against the outcome of a handler. */
  predicate Does(d: Desk, events: seq<Event>, k: nat, outcome: Result<Effect>, now: int,
                 r: Result<()>, d1: Desk, events1: seq<Event>)
    requires k < |d.orders|
  {
    var w := Written(d, events, k, outcome, now);
    (r.Ok? <==> w.Ok?) && (r.Ok? ==> (d1, events1) == w.value)
  }

  lemma QuietOutcome(d: Desk, k: nat, t: Desk, events: seq<Event>, now: int)
    requires PassingRow(d, k, t)
    ensures Written(d, events, k, Ok(Effect(t.orders[k], [])), now) == Ok((t, events))
  {
  }

  /** An outcome without events is the row it stores. */
  lemma RowOutcome(d: Desk, k: nat, r: Result<Order>, outcome: Result<Effect>, events: seq<Event>, now: int)
    requires k < |d.orders| && outcome.Ok? == r.Ok? && (r.Ok? ==> outcome.value == Effect(r.value, []))
    ensures
      var w := Written(d, events, k, outcome, now);
      (w.Ok? <==> Stored(d, k, r).Ok?) && (w.Ok? ==> w.value == (Stored(d, k, r).value, events))
  {
  }

  lemma JobOutcome(d: Desk, k: nat, t: Desk, events: seq<Event>, job: Job, now: int)
    requires PassingRow(d, k, t)
    ensures
      var w := Written(d, events, k, Ok(Effect(t.orders[k], [job])), now);
      var e := EnqueueEvent(events, job.topic, KeyOf(job.topic, k, job.item), job.item, now);
      (w.Ok? <==> e.Ok?) && (w.Ok? ==> w.value == (t, e.value))
  {
    EnqueueOne(events, job, k, now);
  }

  lemma TwoJobsOutcome(d: Desk, k: nat, t: Desk, events: seq<Event>, first: Job, second: Job, now: int)
    requires PassingRow(d, k, t)
    ensures
      var w := Written(d, events, k, Ok(Effect(t.orders[k], [first, second])), now);
      var e := EnqueueEvent(events, first.topic, KeyOf(first.topic, k, first.item), first.item, now);
      (w.Ok? ==> e.Ok?)
      && (e.Ok? ==>
            var f := EnqueueEvent(e.value, second.topic, KeyOf(second.topic, k, second.item), second.item, now);
            (w.Ok? <==> f.Ok?) && (w.Ok? ==> w.value == (t, f.value)))
  {
    var jobs := [first, second];
    assert jobs[1..] == [second];
    var e := EnqueueEvent(events, first.topic, KeyOf(first.topic, k, first.item), first.item, now);
    if e.Ok? {
      EnqueueOne(e.value, second, k, now);
    }
  }

  /** The tables. `ran` records the committed handler runs, for the proofs only. */
  class Database {
    const sandbox: bool
    const outbox: OutboxService
    const tables: OrderService
    var now: int
    var inbox: seq<nat>
    var replays: map<nat, Replay>
    var held: set<(Worker, nat)>
    ghost var ran: seq<nat>

    constructor (now: int, sandbox: bool)
      ensures View() == Start(now, sandbox)
      ensures fresh(outbox) && fresh(tables)
    {
      this.now, this.sandbox := now, sandbox;
      outbox := new OutboxService();
      tables := new OrderService();
      inbox, replays, held, ran := [], map[], {}, [];
    }

    ghost function View(): State
      reads this, outbox, tables
    {
      State(now, sandbox, tables.orders, tables.counters, tables.positions, outbox.events, inbox, ran, replays, held)
    }

    /** Columns other than the state. */
    method Put(k: nat, o: Order)
      requires k < |tables.orders|
      modifies tables`orders
      ensures tables.View() == WithRow(old(tables.View()), k, o)
    {
      tables.orders := tables.orders[k := o];
    }

    /** The guarded change of an order's state, which finalises its limits if it ends the order. */
    method Move(k: nat, target: OrderState, outcome: Option<Outcome>) returns (r: Result<()>)
      requires k < |tables.orders|
      modifies tables
      ensures
        var s := Stored(old(tables.View()), k, Transition(old(tables.orders[k]), target, outcome));
        (r.Ok? <==> s.Ok?) && (r.Ok? ==> tables.View() == s.value)
    {
      r := tables.SetOrderState(k, target, outcome, None);
    }

    /** A change to a state that ends nothing. */
    method Pass(k: nat, target: OrderState, outcome: Option<Outcome>) returns (r: Result<()>)
      requires k < |tables.orders| && !Terminal(target)
      modifies tables
      ensures
        var t := Transition(old(tables.orders[k]), target, outcome);
        && (r.Ok? <==> t.Ok?)
        && (r.Ok? ==> Passing(old(tables.orders[k]), t.value)
                      && tables.View() == WithRow(old(tables.View()), k, t.value))
    {
      var t := Transition(tables.orders[k], target, outcome);
      if t.Ok? {
        TransitionShape(tables.orders[k], target, outcome);
        PlainWrite(tables.View(), k, t.value);
      }
      r := Move(k, target, outcome);
    }

    /** Appends a fact that supersedes the latest one of its kind and reference. */
    method Note(k: nat, kind: FactKind, reference: string)
      requires k < |tables.orders|
      modifies tables`orders
      ensures tables.View() == WithRow(old(tables.View()), k, AppendFact(old(tables.orders[k]), kind, reference))
    {
      var facts := tables.orders[k].facts;
      var n := |facts|;
      assert facts[..|facts|] == facts;
      while n > 0 && !(facts[n - 1].kind == kind && facts[n - 1].reference == reference)
        invariant 0 <= n <= |facts|
        invariant LatestSequence(facts, kind, reference) == LatestSequence(facts[..n], kind, reference)
      {
        assert facts[..n][..n - 1] == facts[..n - 1];
        n := n - 1;
      }
      var latest := if n == 0 then 0 else facts[n - 1].sequence;
      Put(k, tables.orders[k].(facts := facts + [Fact(kind, reference, latest + 1)]));
    }

    /** Insertion into the outbox under its unique key. */
    method Enqueue(topic: Topic, key: Key, item: nat) returns (r: Result<()>)
      modifies outbox
      ensures r.Ok? <==> EnqueueEvent(old(outbox.events), topic, key, item, now).Ok?
      ensures r.Ok? ==> outbox.events == EnqueueEvent(old(outbox.events), topic, key, item, now).value
    {
      if Enqueued(outbox.events, topic, key) {
        return Err(IntegrityError);
      }
      outbox.events := outbox.events + [NewEvent(topic, key, item, now)];
      return Ok(());
    }

    /** Moves every RESERVED reservation of the order, noting each move when asked. */
    method MoveReservations(k: nat, next: nat -> ReservationState, noted: bool)
      requires k < |tables.orders|
      modifies tables`orders
      ensures tables.View() == WithRow(old(tables.View()), k, MoveReserved(old(tables.orders[k]), 0, next, noted))
    {
      ghost var result := MoveReserved(tables.orders[k], 0, next, noted);
      ghost var before := tables.View();
      for i := 0 to |tables.orders[k].reservations|
        invariant k < |tables.orders| && |tables.orders[k].reservations| == |old(tables.orders[k].reservations)|
        invariant tables.View() == WithRow(before, k, tables.orders[k])
        invariant MoveReserved(tables.orders[k], i, next, noted) == result
      {
        var o := tables.orders[k];
        if o.reservations[i].state == Reserved {
          Put(k, o.(reservations := o.reservations[i := o.reservations[i].Move(next(i))]));
          if noted {
            Note(k, Funding, Numbered("res_", i));
          }
        }
      }
    }
  }

  /** One worker over one database. Each handler ends with the tables and the outbox exactly as
      the handler function says, or with an error after which `RunOne` rolls everything back. */
  class ProductionWorker {
    const owner: Worker
    const db: Database

    constructor (owner: Worker, db: Database)
      ensures this.owner == owner && this.db == db
    {
      this.owner, this.db := owner, db;
    }

    /** Adds the event of this topic unless it is already on its way. */
    method EnqueueUnless(ghost d: Desk, k: nat, topic: Topic, queued: bool) returns (r: Result<()>)
      requires PassingRow(d, k, db.tables.View()) && (topic == PaymentMessage || topic == PaymentValue)
      modifies db.outbox
      ensures
        var outcome := Ok(Effect(db.tables.orders[k], if queued then [] else [Job(topic, 0)]));
        Does(d, old(db.outbox.events), k, outcome, db.now, r, db.tables.View(), db.outbox.events)
    {
      if queued {
        QuietOutcome(d, k, db.tables.View(), db.outbox.events, db.now);
        return Ok(());
      }
      JobOutcome(d, k, db.tables.View(), db.outbox.events, Job(topic, 0), db.now);
      r := db.Enqueue(topic, OrderKey(k), 0);
    }

    // ----- controls -----

    method RecordAuthorization(k: nat, a: Answers) returns (authorized: bool)
      requires k < |db.tables.orders|
      modifies db.tables`orders
      ensures authorized == Authorized(old(db.tables.orders[k]), db.sandbox, a)
      ensures db.tables.View() == WithRow(old(db.tables.View()), k,
                                          NoteAuthorization(old(db.tables.orders[k]), authorized))
    {
      var o := db.tables.orders[k];
      var decision := Last(o.authorizations);
      authorized := db.sandbox || decision == Some(Passed);
      if !db.sandbox && decision.Some? && decision != Some(Passed) {
        authorized := a.authorizes;
      }
      if decision.Some? && decision != Some(Passed) {
        db.Note(k, Authorization, "authz_");
        var outcome := if authorized then Passed else Refused;
        db.Put(k, db.tables.orders[k].(authorizations := o.authorizations + [outcome]));
      }
    }

    method RecordCompliance(k: nat) returns (screenedOut: bool)
      requires k < |db.tables.orders|
      modifies db.tables`orders
      ensures screenedOut == ScreenedOut(old(db.tables.orders[k]))
      ensures db.tables.View() == WithRow(old(db.tables.View()), k, NoteCompliance(old(db.tables.orders[k])))
    {
      screenedOut := false;
      var o := db.tables.orders[k];
      var decision := Last(o.compliances);
      if decision.Some? && decision != Some(Passed) {
        screenedOut := !o.screeningPasses;
        db.Note(k, Compliance, "comp_");
        var outcome := if o.screeningPasses then Passed else Refused;
        db.Put(k, db.tables.orders[k].(compliances := o.compliances + [outcome]));
      }
    }

    method RequestFundsOf(k: nat) returns (r: Result<()>)
      requires k < |db.tables.orders|
      modifies db.tables, db.outbox
      ensures Does(old(db.tables.View()), old(db.outbox.events), k, RequestFunds(old(db.tables.orders[k])), db.now,
                   r, db.tables.View(), db.outbox.events)
    {
      ghost var d := db.tables.View();
      var _ :- db.Pass(k, ReservationPending, None);
      var o := db.tables.orders[k];
      if o.reservations == [] {
        db.Put(k, o.(reservations := [NewReservation(o.amount, None)]));
        JobOutcome(d, k, db.tables.View(), db.outbox.events, Job(FundingReserve, 0), db.now);
        r := db.Enqueue(FundingReserve, ReservationKey(k, 0), 0);
        return;
      }
      QuietOutcome(d, k, db.tables.View(), db.outbox.events, db.now);
      return Ok(());
    }

    method ContinueScreened(k: nat) returns (r: Result<()>)
      requires k < |db.tables.orders|
      modifies db.tables, db.outbox
      ensures Does(old(db.tables.View()), old(db.outbox.events), k, AfterScreening(old(db.tables.orders[k])), db.now,
                   r, db.tables.View(), db.outbox.events)
    {
      ghost var d := db.tables.View();
      if db.tables.orders[k].intents != [] {
        QuietOutcome(d, k, db.tables.View(), db.outbox.events, db.now);
        return Ok(());
      }
      if !db.tables.orders[k].sameCurrency {
        var _ :- db.Pass(k, FxAcceptancePending, None);
        QuietOutcome(d, k, db.tables.View(), db.outbox.events, db.now);
        return Ok(());
      }
      r := RequestFundsOf(k);
    }

    method ScreenOutOf(k: nat) returns (r: Result<()>)
      requires k < |db.tables.orders|
      modifies db.tables
      ensures Does(old(db.tables.View()), db.outbox.events, k, ScreenOut(old(db.tables.orders[k])), db.now,
                   r, db.tables.View(), db.outbox.events)
    {
      ghost var d := db.tables.View();
      var _ :- db.Pass(k, ComplianceRejected, Some(Rejected));
      ghost var o1 := db.tables.orders[k];
      ghost var closing := Transition(o1, OperationallyClosedUnsuccessful, Some(Rejected));
      LastWriteCounts(d, k, db.tables.View(), closing);
      RowOutcome(d, k, closing, ScreenOut(d.orders[k]), db.outbox.events, db.now);
      r := db.Move(k, OperationallyClosedUnsuccessful, Some(Rejected));
    }

    method ScreenOf(k: nat) returns (r: Result<()>)
      requires k < |db.tables.orders|
      modifies db.tables, db.outbox
      ensures Does(old(db.tables.View()), old(db.outbox.events), k, Screen(old(db.tables.orders[k])), db.now,
                   r, db.tables.View(), db.outbox.events)
    {
      ghost var d := db.tables.View();
      var screenedOut := RecordCompliance(k);
      LastOutcomeCounts(d, k, db.tables.View(), db.outbox.events, Screen(d.orders[k]), db.now);
      if screenedOut {
        r := ScreenOutOf(k);
      } else {
        r := ContinueScreened(k);
      }
    }

    method PaymentCreated(k: nat, a: Answers) returns (r: Result<()>)
      requires k < |db.tables.orders|
      modifies db.tables, db.outbox
      ensures Does(old(db.tables.View()), old(db.outbox.events), k,
                   PaymentCreatedHandler(old(db.tables.orders[k]), db.sandbox, a), db.now,
                   r, db.tables.View(), db.outbox.events)
    {
      ghost var d := db.tables.View();
      var authorized := RecordAuthorization(k, a);
      LastOutcomeCounts(d, k, db.tables.View(), db.outbox.events,
                        PaymentCreatedHandler(d.orders[k], db.sandbox, a), db.now);
      if !authorized {
        var _ :- db.Pass(k, Suspended, Some(Rejected));
        QuietOutcome(d, k, db.tables.View(), db.outbox.events, db.now);
        return Ok(());
      }
      r := ScreenOf(k);
    }

    // ----- funding -----

    /** Whether all reservations made for the same purpose are RESERVED. */
    method CheckReserved(k: nat, intent: Option<nat>) returns (all: bool)
      requires k < |db.tables.orders|
      ensures all == AllReserved(db.tables.orders[k], intent)
    {
      var reservations := db.tables.orders[k].reservations;
      for i := 0 to |reservations|
        invariant forall j :: 0 <= j < i && reservations[j].intent == intent ==> reservations[j].state == Reserved
      {
        if reservations[i].intent == intent && reservations[i].state != Reserved {
          return false;
        }
      }
      return true;
    }

    method ProceedWith(k: nat, intent: Option<nat>) returns (r: Result<()>)
      requires k < |db.tables.orders|
      modifies db.tables, db.outbox
      ensures Does(old(db.tables.View()), old(db.outbox.events), k,
                   Proceed(old(db.tables.orders[k]), intent,
                           old(Queued(db.outbox.events, PaymentMessage, OrderKey(k)))),
                   db.now, r, db.tables.View(), db.outbox.events)
    {
      ghost var d := db.tables.View();
      var o := db.tables.orders[k];
      if intent.Some? && intent.value < |o.intents| {
        if o.intents[intent.value].state != Preparing {
          QuietOutcome(d, k, db.tables.View(), db.outbox.events, db.now);
          return Ok(());
        }
        r := ReadyToTrade(k, intent.value);
        return;
      }
      r := EnqueueUnless(d, k, PaymentMessage, Queued(db.outbox.events, PaymentMessage, OrderKey(k)));
    }

    method ReadyToTrade(k: nat, x: nat) returns (r: Result<()>)
      requires k < |db.tables.orders| && x < |db.tables.orders[k].intents|
      requires db.tables.orders[k].intents[x].state == Preparing
      modifies db.tables, db.outbox
      ensures Does(old(db.tables.View()), old(db.outbox.events), k, Proceed(old(db.tables.orders[k]), Some(x), true),
                   db.now, r, db.tables.View(), db.outbox.events)
    {
      ghost var d := db.tables.View();
      var o := db.tables.orders[k];
      var o0 := o.(intents := o.intents[x := o.intents[x].(state := ReadyToAccept)]);
      db.Put(k, o0);
      ghost var events := db.outbox.events;
      var queued := db.Enqueue(FxAccept, IntentKey(k, x), x);
      var moved := db.Pass(k, FxAcceptancePending, None);
      if moved.Ok? {
        JobOutcome(d, k, db.tables.View(), events, Job(FxAccept, x), db.now);
      }
      r := if queued.Err? then queued else moved;
    }

    method FundingReserveRequested(k: nat, item: nat, a: Answers) returns (r: Result<()>)
      requires k < |db.tables.orders|
      modifies db.tables, db.outbox
      ensures Does(old(db.tables.View()), old(db.outbox.events), k,
                   FundingHandler(old(db.tables.orders[k]), item, a,
                                  old(Queued(db.outbox.events, PaymentMessage, OrderKey(k)))),
                   db.now, r, db.tables.View(), db.outbox.events)
    {
      ghost var d := db.tables.View();
      var o := db.tables.orders[k];
      if item >= |o.reservations| {
        return Err(NoRow);
      }
      if o.reservations[item].state == Reserved {
        QuietOutcome(d, k, db.tables.View(), db.outbox.events, db.now);
        return Ok(());
      }
      db.Put(k, o.(reservations := o.reservations[item := o.reservations[item].Move(a.reserve)]));
      db.Note(k, Funding, Numbered("res_", item));
      ghost var o1 := TryReserve(o, item, a);
      assert db.tables.View() == WithRow(d, k, o1);
      var intent := o.reservations[item].intent;
      var all := CheckReserved(k, intent);
      if !all {
        QuietOutcome(d, k, db.tables.View(), db.outbox.events, db.now);
        return Ok(());
      }
      LastOutcomeCounts(d, k, db.tables.View(), db.outbox.events,
                        Proceed(o1, intent, Queued(db.outbox.events, PaymentMessage, OrderKey(k))), db.now);
      r := ProceedWith(k, intent);
    }

    // ----- the trade -----

    method TradeRequested(k: nat, x: nat, a: Answers) returns (r: Result<()>)
      requires k < |db.tables.orders|
      modifies db.tables, db.outbox
      ensures Does(old(db.tables.View()), old(db.outbox.events), k, TradeHandler(old(db.tables.orders[k]), x, a),
                   db.now,
                   r, db.tables.View(), db.outbox.events)
    {
      ghost var d := db.tables.View();
      var o := db.tables.orders[k];
      if x >= |o.intents| {
        return Err(NoRow);
      }
      var intent := o.intents[x];
      if intent.state == TradeAccepted {
        QuietOutcome(d, k, db.tables.View(), db.outbox.events, db.now);
        return Ok(());
      }
      db.Put(k, o.(intents := o.intents[x := intent.(state := a.trade)]));
      var _ :- db.Pass(k, FxAccepted, None);
      db.Note(k, Fx, Numbered("fxi_", x));
      db.Put(k, db.tables.orders[k].(leg := o.leg.(amount := intent.bought)));
      r := AddLegs(d, k, intent);
    }

    /** Sell leg and buy leg, each with the event that submits it; an order has each leg once. */
    method AddLegs(ghost d: Desk, k: nat, intent: Intent) returns (r: Result<()>)
      requires PassingRow(d, k, db.tables.View())
      modifies db.tables`orders, db.outbox
      ensures Does(d, old(db.outbox.events), k, Legs(old(db.tables.orders[k]), intent), db.now,
                   r, db.tables.View(), db.outbox.events)
    {
      var o := db.tables.orders[k];
      if o.fxLegs != [] {
        return Err(IntegrityError);
      }
      db.Put(k, o.(fxLegs := [Leg(intent.sold, LegPending)]));
      ghost var events := db.outbox.events;
      var first := db.Enqueue(SettlementSubmit, LegKey(k, 0), 0);
      var half := db.tables.orders[k];
      db.Put(k, half.(fxLegs := half.fxLegs + [Leg(intent.bought, LegPending)]));
      assert db.tables.orders[k] == o.(fxLegs := [Leg(intent.sold, LegPending), Leg(intent.bought, LegPending)]);
      TwoJobsOutcome(d, k, db.tables.View(), events, Job(SettlementSubmit, 0), Job(SettlementSubmit, 1), db.now);
      if first.Err? {
        return first;
      }
      r := db.Enqueue(SettlementSubmit, LegKey(k, 1), 1);
    }

    /** Whether both legs of the trade are final. */
    method CheckFxLegs(k: nat) returns (final: bool)
      requires k < |db.tables.orders|
      ensures final == FxLegsFinal(db.tables.orders[k])
    {
      var legs := db.tables.orders[k].fxLegs;
      for i := 0 to |legs|
        invariant forall j :: 0 <= j < i ==> legs[j].state == LegFinal
      {
        if legs[i].state != LegFinal {
          return false;
        }
      }
      return true;
    }

    method SettlementRequested(k: nat, i: nat, a: Answers) returns (r: Result<()>)
      requires k < |db.tables.orders|
      modifies db.tables, db.outbox
      ensures Does(old(db.tables.View()), old(db.outbox.events), k,
                   SettlementHandler(old(db.tables.orders[k]), i, a,
                                     old(Queued(db.outbox.events, PaymentMessage, OrderKey(k)))),
                   db.now, r, db.tables.View(), db.outbox.events)
    {
      ghost var d := db.tables.View();
      var o := db.tables.orders[k];
      if i >= |o.fxLegs| {
        return Err(NoRow);
      }
      if o.fxLegs[i].state == LegFinal {
        QuietOutcome(d, k, db.tables.View(), db.outbox.events, db.now);
        return Ok(());
      }
      db.Put(k, o.(fxLegs := o.fxLegs[i := o.fxLegs[i].(state := a.settlement)]));
      db.Note(k, Settlement, if i < 2 then FX_ROLES[i] else "");
      var o1 := db.tables.orders[k];
      assert o1 == SubmitFxLeg(o, i, a) && db.tables.View() == WithRow(d, k, o1);
      var final := CheckFxLegs(k);
      var queued := Queued(db.outbox.events, PaymentMessage, OrderKey(k));
      r := EnqueueUnless(d, k, PaymentMessage, !final || queued);
    }

    // ----- message and value -----

    method MessageRequested(k: nat, a: Answers) returns (r: Result<()>)
      requires k < |db.tables.orders|
      modifies db.tables, db.outbox
      ensures Does(old(db.tables.View()), old(db.outbox.events), k,
                   MessageHandler(old(db.tables.orders[k]), a,
                                  old(Queued(db.outbox.events, PaymentValue, OrderKey(k)))),
                   db.now, r, db.tables.View(), db.outbox.events)
    {
      ghost var d := db.tables.View();
      db.Note(k, Message, "payment-message");
      if a.delivery == Undelivered {
        var _ :- db.Pass(k, Suspended, None);
        QuietOutcome(d, k, db.tables.View(), db.outbox.events, db.now);
        return Ok(());
      }
      var _ :- db.Pass(k, MessageDelivered, None);
      var queued := Queued(db.outbox.events, PaymentValue, OrderKey(k));
      r := EnqueueUnless(d, k, PaymentValue, queued);
    }

    method CreditOf(k: nat)
      requires k < |db.tables.orders|
      modifies db.tables`orders
      ensures db.tables.View() == WithRow(old(db.tables.View()), k, CreditBeneficiary(old(db.tables.orders[k])))
    {
      var o := db.tables.orders[k];
      if o.credits == [] {
        db.Put(k, o.(credits := [Credit(Credited, true)]));
      }
      db.Note(k, Beneficiary, "credit_");
    }

    method ReconcileOf(k: nat)
      requires k < |db.tables.orders|
      modifies db.tables`orders
      ensures db.tables.View() == WithRow(old(db.tables.View()), k, Reconcile(old(db.tables.orders[k])))
    {
      var o := db.tables.orders[k];
      db.Put(k, o.(reconciliations := o.reconciliations + [Matched]));
      db.Note(k, Reconciliation, "recon_");
    }

    method FulfilOf(k: nat, a: Answers)
      requires k < |db.tables.orders|
      modifies db.tables`orders
      ensures PassingRow(old(db.tables.View()), k, db.tables.View())
      ensures db.tables.orders[k] == CreditBeneficiary(MoveReserved(old(db.tables.orders[k]), 0, a.consume, true))
    {
      MoveIsPointwise(db.tables.orders[k], 0, a.consume, true);
      db.MoveReservations(k, a.consume, true);
      CreditOf(k);
    }

    method CompleteCustomerOf(k: nat, a: Answers) returns (r: Result<()>)
      requires k < |db.tables.orders|
      modifies db.tables
      ensures r.Ok? <==> CompleteCustomer(old(db.tables.orders[k]), a).Ok?
      ensures r.Ok? ==> PassingRow(old(db.tables.View()), k, db.tables.View())
      ensures r.Ok? ==> db.tables.orders[k] == CompleteCustomer(old(db.tables.orders[k]), a).value
    {
      ghost var d := db.tables.View();
      FulfilOf(k, a);
      ghost var t := db.tables.View();
      var _ :- db.Pass(k, CustomerCompleted, Some(Completed));
      PassingOnward(d, k, t, db.tables.orders[k]);
      ghost var u := db.tables.View();
      ReconcileOf(k);
      PassingOnward(d, k, u, db.tables.orders[k]);
      return Ok(());
    }

    method CompletePaymentOf(k: nat, a: Answers) returns (r: Result<()>)
      requires k < |db.tables.orders|
      modifies db.tables
      ensures
        var s := Stored(old(db.tables.View()), k, CompletePayment(old(db.tables.orders[k]), a));
        (r.Ok? <==> s.Ok?) && (r.Ok? ==> db.tables.View() == s.value)
    {
      ghost var d := db.tables.View();
      var _ :- CompleteCustomerOf(k, a);
      var o := db.tables.orders[k];
      LastWriteCounts(d, k, db.tables.View(), CloseOperationally(o));
      var allowed :- Evaluate(o, Some(ProfileOf(o)));
      if !allowed {
        return Err(Conflict);
      }
      r := db.Move(k, OperationallyClosed, Some(Completed));
    }

    method ValueRequested(k: nat, a: Answers) returns (r: Result<()>)
      requires k < |db.tables.orders|
      modifies db.tables
      ensures Does(old(db.tables.View()), db.outbox.events, k, ValueHandler(old(db.tables.orders[k]), a), db.now,
                   r, db.tables.View(), db.outbox.events)
    {
      ghost var d := db.tables.View();
      var o := db.tables.orders[k];
      if o.leg.state == LegFinal {
        QuietOutcome(d, k, db.tables.View(), db.outbox.events, db.now);
        return Ok(());
      }
      db.Put(k, o.(leg := o.leg.(state := a.settlement)));
      db.Note(k, Settlement, "PAYMENT_VALUE");
      ghost var o1 := SubmitValue(o, a);
      assert db.tables.View() == WithRow(d, k, o1);
      if a.settlement != LegFinal {
        QuietOutcome(d, k, db.tables.View(), db.outbox.events, db.now);
        return Ok(());
      }
      RowOutcome(d, k, FinishPayment(o1, a), ValueHandler(o, a), db.outbox.events, db.now);
      LastWriteCounts(d, k, db.tables.View(), FinishPayment(o1, a));
      r := FinishPaymentOf(k, a);
    }

    method FinishPaymentOf(k: nat, a: Answers) returns (r: Result<()>)
      requires k < |db.tables.orders|
      modifies db.tables
      ensures
        var s := Stored(old(db.tables.View()), k, FinishPayment(old(db.tables.orders[k]), a));
        (r.Ok? <==> s.Ok?) && (r.Ok? ==> db.tables.View() == s.value)
    {
      ghost var d := db.tables.View();
      FinishStarts(d.orders[k], a, Transition(d.orders[k], ValueSettlement, None));
      var _ :- db.Pass(k, ValueSettlement, None);
      ghost var o1 := db.tables.orders[k];
      LastWriteCounts(d, k, db.tables.View(), CompletePayment(o1, a));
      r := CompletePaymentOf(k, a);
    }

    // ----- cancellation -----

    method MoveCancellationOf(k: nat, item: nat, next: CancelState) returns (r: Result<()>)
      requires k < |db.tables.orders| && item < |db.tables.orders[k].cancellations|
      modifies db.tables`orders
      ensures
        var m := MoveCancellation(old(db.tables.orders[k]), item, next);
        (r.Ok? <==> m.Ok?) && (r.Ok? ==> db.tables.View() == WithRow(old(db.tables.View()), k, m.value))
    {
      var o := db.tables.orders[k];
      if next != o.cancellations[item] && !CancelMayBecome(o.cancellations[item], next) {
        return Err(Conflict);
      }
      db.Put(k, o.(cancellations := o.cancellations[item := next]));
      return Ok(());
    }

    method AcceptCancellationOf(k: nat, item: nat) returns (r: Result<()>)
      requires k < |db.tables.orders| && item < |db.tables.orders[k].cancellations|
      modifies db.tables
      ensures
        var s := Stored(old(db.tables.View()), k, AcceptCancellation(old(db.tables.orders[k]), item));
        (r.Ok? <==> s.Ok?) && (r.Ok? ==> db.tables.View() == s.value)
    {
      ghost var d := db.tables.View();
      var o := db.tables.orders[k];
      if !Acceptable(o.cancellations[item]) {
        return Err(Conflict);
      }
      db.Put(k, o.(cancellations := o.cancellations[item := CancelSent]));
      var _ :- MoveCancellationOf(k, item, CancelAccepted);
      MoveIsPointwise(db.tables.orders[k], 0, ToReleased(), false);
      db.MoveReservations(k, ToReleased(), false);
      var _ :- db.Pass(k, ExecutionCancelled, Some(Cancelled));
      ghost var o1 := db.tables.orders[k];
      LastWriteCounts(d, k, db.tables.View(), Transition(o1, OperationallyClosedUnsuccessful, Some(Cancelled)));
      r := db.Move(k, OperationallyClosedUnsuccessful, Some(Cancelled));
    }

    method AnswerCancellationOf(k: nat, item: nat, a: Answers) returns (r: Result<()>)
      requires k < |db.tables.orders| && item < |db.tables.orders[k].cancellations|
      modifies db.tables
      ensures
        var s := Stored(old(db.tables.View()), k, AnswerCancellation(old(db.tables.orders[k]), item, a));
        (r.Ok? <==> s.Ok?) && (r.Ok? ==> db.tables.View() == s.value)
    {
      if a.cancel == CancelGranted && db.tables.orders[k].leg.state != LegFinal {
        r := AcceptCancellationOf(k, item);
      } else if a.cancel == CancelDenied {
        r := MoveCancellationOf(k, item, CancelRejected);
      } else if a.cancel == CancelUndecided {
        r := MoveCancellationOf(k, item, CancelUnknown);
      } else {
        r := Ok(());
        assert db.tables.orders[k := db.tables.orders[k]] == db.tables.orders;
      }
    }

    method CancellationRequested(k: nat, item: nat, a: Answers) returns (r: Result<()>)
      requires k < |db.tables.orders|
      modifies db.tables
      ensures Does(old(db.tables.View()), db.outbox.events, k, CancellationHandler(old(db.tables.orders[k]), item, a),
                   db.now,
                   r, db.tables.View(), db.outbox.events)
    {
      ghost var d := db.tables.View();
      if item >= |db.tables.orders[k].cancellations| {
        return Err(NoRow);
      }
      db.Note(k, Cancellation, Numbered("can_", item));
      ghost var o1 := db.tables.orders[k];
      LastWriteCounts(d, k, db.tables.View(), AnswerCancellation(o1, item, a));
      RowOutcome(d, k, AnswerCancellation(o1, item, a), CancellationHandler(d.orders[k], item, a),
                 db.outbox.events, db.now);
      r := AnswerCancellationOf(k, item, a);
    }

    // ----- transactions -----

    method DispatchEvent(id: nat, a: Answers) returns (r: Result<()>)
      requires id < |db.outbox.events| && db.outbox.events[id].aggregate.order < |db.tables.orders|
      modifies db.tables, db.outbox
      ensures
        var e := old(db.outbox.events[id]);
        Does(old(db.tables.View()), old(db.outbox.events), e.aggregate.order, Dispatch(old(db.View()), e, a), db.now,
             r, db.tables.View(), db.outbox.events)
    {
      var e := db.outbox.events[id];
      var k := e.aggregate.order;
      match e.topic
      case PaymentCreated => r := PaymentCreated(k, a);
      case FundingReserve => r := FundingReserveRequested(k, e.item, a);
      case FxAccept => r := TradeRequested(k, e.item, a);
      case SettlementSubmit => r := SettlementRequested(k, e.item, a);
      case PaymentMessage => r := MessageRequested(k, a);
      case PaymentValue => r := ValueRequested(k, a);
      case PaymentCancellation => r := CancellationRequested(k, e.item, a);
    }

    method HandleEvent(id: nat, a: Answers) returns (r: Result<()>)
      requires id < |db.outbox.events|
      modifies db`ran, db.tables, db.outbox
      ensures r.Ok? <==> Handle(old(db.View()), id, a).Ok?
      ensures r.Ok? ==> db.View() == Handle(old(db.View()), id, a).value
    {
      if db.outbox.events[id].aggregate.order >= |db.tables.orders| {
        return Err(NoRow);
      }
      r := DispatchEvent(id, a);
      if r.Ok? {
        db.ran := db.ran + [id];
      }
    }

    /** One event: receipt, handler and completion in one transaction; any error rolls back and fails the event. */
    method RunOne(id: nat, a: Answers, raced: bool) returns (committed: bool)
      requires id < |db.outbox.events| && (owner, id) in db.held
      modifies db, db.tables, db.outbox
      ensures db.View() == WorkOn(old(db.View()), owner, id, a, raced, false)
      ensures committed <==> Transact(old(db.View()).(held := old(db.held) - {(owner, id)}), id, owner, a, raced).Ok?
      ensures |old(db.outbox.events)| <= |db.outbox.events| && db.held == old(db.held) - {(owner, id)}
    {
      db.held := db.held - {(owner, id)};
      ghost var begun := db.View();
      var saved, inbox, events := db.tables.View(), db.inbox, db.outbox.events;
      ghost var ran := db.ran;
      var r := Attempt(id, a, raced);
      committed := r.Ok?;
      if !committed {
        db.tables.Restore(saved);
        db.inbox, db.outbox.events := inbox, events;
        db.ran := ran;
        assert db.tables.View() == saved;
        assert db.View() == begun;
        db.outbox.Fail(id, db.now, RETRY_SECONDS);
      }
    }

    method Attempt(id: nat, a: Answers, raced: bool) returns (r: Result<()>)
      requires id < |db.outbox.events|
      modifies db`inbox, db`ran, db.tables, db.outbox
      ensures r.Ok? <==> Transact(old(db.View()), id, owner, a, raced).Ok?
      ensures r.Ok? ==> db.View() == Transact(old(db.View()), id, owner, a, raced).value
      ensures r.Ok? ==> |old(db.outbox.events)| <= |db.outbox.events|
    {
      if id in db.inbox {
        if raced {
          return Err(IntegrityError);
        }
        r := db.outbox.Complete(id, Some(owner));
        return;
      }
      ghost var before := db.View();
      db.inbox := db.inbox + [id];
      ghost var registered := db.View();
      ReceiptsDoNotMatter(before, registered.inbox, id, a);
      var _ :- HandleEvent(id, a);
      r := db.outbox.Complete(id, Some(owner));
    }

    /** Works through a claimed batch; `answers` gives the connector answers for each event. */
    method WorkBatch(batch: seq<nat>, answers: nat -> Answers) returns (processed: nat, failed: nat)
      requires forall b :: 0 <= b < |batch| ==> (owner, batch[b]) in db.held && batch[b] < |db.outbox.events|
      requires forall b, c :: 0 <= b < c < |batch| ==> batch[b] < batch[c]
      modifies db, db.tables, db.outbox
      ensures db.View() == WorkThrough(old(db.View()), owner, batch, answers)
      ensures processed + failed == |batch|
    {
      processed, failed := 0, 0;
      for b := 0 to |batch|
        invariant processed + failed == b
        invariant forall c :: b <= c < |batch| ==> (owner, batch[c]) in db.held && batch[c] < |db.outbox.events|
        invariant db.View() == WorkThrough(old(db.View()), owner, batch[..b], answers)
      {
        assert batch[..b + 1][..b] == batch[..b];
        var committed := RunOne(batch[b], answers(batch[b]), false);
        if committed {
          processed := processed + 1;
        } else {
          failed := failed + 1;
        }
      }
      assert batch[..|batch|] == batch;
    }

    /** Claims a batch, commits the claim, and works through it. */
    method RunOnce(limit: int, locked: set<nat>, answers: nat -> Answers)
      returns (claimed: nat, processed: nat, failed: nat)
      modifies db, db.tables, db.outbox
      ensures
        var start := ClaimStep(old(db.View()), owner, limit, locked);
        var batch := ClaimBatch(old(db.outbox.events), old(db.now), limit, locked);
        && db.View() == WorkThrough(start, owner, batch, answers)
        && claimed == |batch| && processed + failed == claimed
    {
      ClaimedRowsAscend(db.outbox.events, db.now, limit, locked);
      var batch := db.outbox.Claim(db.now, limit, locked, owner, LEASE_SECONDS);
      db.held := db.held + set i | i in batch :: (owner, i);
      assert db.View() == ClaimStep(old(db.View()), owner, limit, locked);
      claimed := |batch|;
      processed, failed := WorkBatch(batch, answers);
    }
  }

  lemma AbsorbIgnoresReceipts(s: State, inbox: seq<nat>, id: nat, outcome: Result<Effect>)
    requires id < |s.events| && s.events[id].aggregate.order < |s.orders|
    ensures
      var r := Absorb(s.(inbox := inbox), id, outcome);
      && (r.Ok? <==> Absorb(s, id, outcome).Ok?)
      && (r.Ok? ==> r.value == Absorb(s, id, outcome).value.(inbox := inbox))
  {
  }

  /** The receipt is no input of the handler. */
  lemma ReceiptsDoNotMatter(s: State, inbox: seq<nat>, id: nat, a: Answers)
    requires id < |s.events|
    ensures
      var r := Handle(s.(inbox := inbox), id, a);
      (r.Ok? <==> Handle(s, id, a).Ok?) && (r.Ok? ==> r.value == Handle(s, id, a).value.(inbox := inbox))
  {
    if s.events[id].aggregate.order < |s.orders| {
      assert Dispatch(s.(inbox := inbox), s.events[id], a) == Dispatch(s, s.events[id], a);
      AbsorbIgnoresReceipts(s, inbox, id, Dispatch(s, s.events[id], a));
    }
  }

  /** One worker's undisturbed pass over a batch. */
  function WorkThrough(s: State, w: Worker, batch: seq<nat>, answers: nat -> Answers): State
    decreases |batch|
  {
    if batch == [] then s
    else
      var n := |batch| - 1;
      WorkOn(WorkThrough(s, w, batch[..n], answers), w, batch[n], answers(batch[n]), false, false)
  }
}

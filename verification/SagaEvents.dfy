/** The outbox over whole runs: which step adds which event, how often an event is claimed, and what a turn that
    fails or commits does to its event. */
module SagaEvents {
  import opened Results
  import opened Outbox
  import opened Handlers
  import opened Saga
  import opened SagaTables

  // ----- what a step adds -----

  lemma {:induction false} EnqueueAllIs(events: seq<Event>, jobs: seq<Job>, k: nat, now: int)
    requires EnqueueAll(events, jobs, k, now).Ok?
    ensures
      var r := EnqueueAll(events, jobs, k, now).value;
      && |r| == |events| + |jobs| && events <= r
      && (forall q :: 0 <= q < |jobs| ==> r[|events| + q] == EventOf(jobs[q], k, now))
    decreases |jobs|
  {
    if jobs != [] {
      var e := EventOf(jobs[0], k, now);
      EnqueueAllIs(events + [e], jobs[1..], k, now);
      var r := EnqueueAll(events, jobs, k, now).value;
      forall q | 0 <= q < |jobs|
        ensures r[|events| + q] == EventOf(jobs[q], k, now)
      {
        if q == 0 {
          assert (events + [e])[|events|] == r[|events|];
        } else {
          assert r[|events + [e]| + (q - 1)] == EventOf(jobs[1..][q - 1], k, now);
        }
      }
    }
  }

  /** The handler of event `id` asks for an event. */
  predicate AsksFor(s: State, id: nat, a: Answers, job: Job) {
    && id < |s.events| && id !in s.inbox && s.events[id].aggregate.order < |s.orders|
    && Dispatch(s, s.events[id], a).Ok? && job in Dispatch(s, s.events[id], a).value.enqueued
  }

  lemma JobAdded(events: seq<Event>, jobs: seq<Job>, k: nat, now: int, r: seq<Event>, j: nat)
    requires EnqueueAll(events, jobs, k, now) == Ok(r) && |events| <= j < |r|
    ensures Job(r[j].topic, r[j].item) in jobs && r[j] == EventOf(Job(r[j].topic, r[j].item), k, now)
  {
    EnqueueAllIs(events, jobs, k, now);
    var q := j - |events|;
    assert r[|events| + q] == EventOf(jobs[q], k, now);
  }

  /** The event the step may add to the outbox of `s`. */
  predicate Adds(s: State, step: Step, e: Event) {
    match step
    case Create(_) => e == NewEvent(PaymentCreated, OrderKey(|s.orders|), 0, s.now)
    case RequestCancellation(k) =>
      k < |s.orders| && e == NewEvent(PaymentCancellation, OrderKey(k), |s.orders[k].cancellations|, s.now)
    case AcceptQuote(k, _, _, _, _) =>
      k < |s.orders| && (e == EventOf(IntentJobs(s.orders[k])[0], k, s.now)
                         || e == EventOf(IntentJobs(s.orders[k])[1], k, s.now))
    case Work(_, id, a, _, _) =>
      AsksFor(s, id, a, Job(e.topic, e.item)) && e == EventOf(Job(e.topic, e.item), s.events[id].aggregate.order, s.now)
    case _ => false
  }

  /** The columns of an event that are never written again. */
  predicate SameIdentity(e: Event, f: Event) {
    SameSubject(e, f) && e.item == f.item && e.partition == f.partition && e.sequence == f.sequence
  }

  /** Rows keep their keys, and new ones come last. */
  predicate Extends(s: seq<Event>, t: seq<Event>) {
    |s| <= |t| && forall i :: 0 <= i < |s| ==> SameIdentity(s[i], t[i])
  }

  lemma HandleAdds(s: State, id: nat, a: Answers)
    requires id < |s.events| && Handle(s, id, a).Ok?
    ensures
      var k := s.events[id].aggregate.order;
      && k < |s.orders| && Dispatch(s, s.events[id], a).Ok?
      && EnqueueAll(s.events, Dispatch(s, s.events[id], a).value.enqueued, k, s.now)
         == Ok(Handle(s, id, a).value.events)
  {
  }

  // ----- a turn of the worker -----

  /** The row of a completed event. */
  function Settled(e: Event): Event {
    if e.status == Published then e else e.(status := Published, leaseOwner := None, leaseUntil := None)
  }

  /** Somebody else's lease. */
  predicate Fenced(e: Event, w: Worker) {
    e.status == Processing && e.leaseOwner != Some(w)
  }

  lemma CompletesExactly(e: Event, w: Worker)
    ensures CompleteOne(e, Some(w)).Ok? <==> !Fenced(e, w)
    ensures CompleteOne(e, Some(w)).Ok? ==> CompleteOne(e, Some(w)).value == Settled(e)
  {
  }

  /** The tables once the handler has run, before the event is completed. */
  function Worked(s: State, id: nat, a: Answers): State
    requires id < |s.events| && id !in s.inbox && Handle(s, id, a).Ok?
  {
    var t := Handle(s, id, a).value;
    t.(inbox := t.inbox + [id])
  }

  /** A transaction commits exactly when its handler does, or the receipt is found, and nobody else has the lease. */
  lemma TransactsExactly(s: State, id: nat, w: Worker, a: Answers, raced: bool)
    requires id < |s.events|
    ensures Transact(s, id, w, a, raced).Ok? <==>
            !Fenced(s.events[id], w) && if id in s.inbox then !raced else Handle(s, id, a).Ok?
    ensures Transact(s, id, w, a, raced).Ok? && id in s.inbox ==>
              Transact(s, id, w, a, raced).value == s.(events := s.events[id := Settled(s.events[id])])
    ensures Transact(s, id, w, a, raced).Ok? && id !in s.inbox ==>
              var t := Worked(s, id, a);
              Transact(s, id, w, a, raced).value == t.(events := t.events[id := Settled(s.events[id])])
  {
    CompletesExactly(s.events[id], w);
    if id !in s.inbox && Handle(s, id, a).Ok? {
      assert Handle(s, id, a).value.events[id] == s.events[id];
    }
  }

  function Released(s: State, w: Worker, id: nat): State {
    s.(held := s.held - {(w, id)})
  }

  /** The turn has nothing to do, fails, or commits. */
  lemma TurnIs(s: State, w: Worker, id: nat, a: Answers, raced: bool, fault: bool)
    ensures
      var t, s1 := WorkOn(s, w, id, a, raced, fault), Released(s, w, id);
      if (w, id) !in s.held || id >= |s.events| then t == s
      else if fault || Transact(s1, id, w, a, raced).Err? then
        t == s1.(events := s1.events[id := FailOne(s1.events[id], s1.now, RETRY_SECONDS)])
      else t == Transact(s1, id, w, a, raced).value
  {
  }

  lemma HandleEventsIgnoreClaims(s: State, held: set<(Worker, nat)>, id: nat, a: Answers)
    requires id < |s.events|
    ensures
      var r := Handle(s.(held := held), id, a);
      (r.Ok? <==> Handle(s, id, a).Ok?) && (r.Ok? ==> r.value == Handle(s, id, a).value.(held := held))
  {
    if s.events[id].aggregate.order < |s.orders| {
      assert Dispatch(s.(held := held), s.events[id], a) == Dispatch(s, s.events[id], a);
      AbsorbEventsIgnoreClaims(s, held, id, Dispatch(s, s.events[id], a));
    }
  }

  lemma AbsorbEventsIgnoreClaims(s: State, held: set<(Worker, nat)>, id: nat, outcome: Result<Effect>)
    requires id < |s.events| && s.events[id].aggregate.order < |s.orders|
    ensures
      var r := Absorb(s.(held := held), id, outcome);
      && (r.Ok? <==> Absorb(s, id, outcome).Ok?)
      && (r.Ok? ==> r.value == Absorb(s, id, outcome).value.(held := held))
  {
  }

  /** The turn commits. */
  predicate Commits(s: State, w: Worker, id: nat, a: Answers, raced: bool, fault: bool) {
    && (w, id) in s.held && id < |s.events| && !fault && !Fenced(s.events[id], w)
    && if id in s.inbox then !raced else Handle(s, id, a).Ok?
  }

  /** A turn that is due commits exactly when nothing disturbs it, nobody else has the lease and the handler goes
      through, or the receipt is found; otherwise its event alone changes. */
  lemma TurnWrites(s: State, w: Worker, id: nat, a: Answers, raced: bool, fault: bool)
    requires (w, id) in s.held && id < |s.events|
    ensures
      var t, s1 := WorkOn(s, w, id, a, raced, fault), Released(s, w, id);
      if !Commits(s, w, id, a, raced, fault) then
        t == s1.(events := s1.events[id := FailOne(s1.events[id], s1.now, RETRY_SECONDS)])
      else if id in s.inbox then t == s1.(events := s1.events[id := Settled(s1.events[id])])
      else
        var u := Worked(s, id, a).(held := s1.held);
        t == u.(events := u.events[id := Settled(s.events[id])])
  {
    var s1 := Released(s, w, id);
    TurnIs(s, w, id, a, raced, fault);
    TransactsExactly(s1, id, w, a, raced);
    HandleEventsIgnoreClaims(s, s1.held, id, a);
  }

  /** What any committed turn does to the events there are. */
  lemma CommittedRows(s: State, w: Worker, id: nat, a: Answers, raced: bool, fault: bool)
    requires Commits(s, w, id, a, raced, fault)
    ensures
      var t := WorkOn(s, w, id, a, raced, fault);
      && t.now == s.now && t.replays == s.replays && |s.events| <= |t.events|
      && (forall j :: 0 <= j < |s.events| ==> t.events[j] == if j == id then Settled(s.events[id]) else s.events[j])
  {
    TurnWrites(s, w, id, a, raced, fault);
  }

  lemma CommittedExtends(s: State, w: Worker, id: nat, a: Answers, raced: bool, fault: bool)
    requires Commits(s, w, id, a, raced, fault) && id !in s.inbox
    ensures
      var t, r := WorkOn(s, w, id, a, raced, fault), Handle(s, id, a).value;
      s.events <= r.events && t.events == r.events[id := Settled(s.events[id])]
  {
    TurnWrites(s, w, id, a, raced, fault);
  }

  lemma QuietTurn(s: State, w: Worker, id: nat, a: Answers, raced: bool, fault: bool)
    requires !Commits(s, w, id, a, raced, fault) || id in s.inbox
    ensures
      var t := WorkOn(s, w, id, a, raced, fault);
      && |t.events| == |s.events|
      && (forall j :: 0 <= j < |s.events| && j != id ==> t.events[j] == s.events[j])
      && (id < |s.events| ==> SameIdentity(s.events[id], t.events[id]))
  {
    if (w, id) in s.held && id < |s.events| {
      TurnWrites(s, w, id, a, raced, fault);
    }
  }

  lemma WorkExtends(s: State, w: Worker, id: nat, a: Answers, raced: bool, fault: bool)
    ensures
      var t := WorkOn(s, w, id, a, raced, fault);
      && Extends(s.events, t.events)
      && (|t.events| > |s.events| ==> Commits(s, w, id, a, raced, fault) && id !in s.inbox)
  {
    if Commits(s, w, id, a, raced, fault) && id !in s.inbox {
      CommittedExtends(s, w, id, a, raced, fault);
    } else {
      QuietTurn(s, w, id, a, raced, fault);
    }
  }

  lemma WorkAdds(s: State, w: Worker, id: nat, a: Answers, raced: bool, fault: bool, j: nat)
    requires |s.events| <= j < |WorkOn(s, w, id, a, raced, fault).events|
    ensures Adds(s, Work(w, id, a, raced, fault), WorkOn(s, w, id, a, raced, fault).events[j])
  {
    WorkExtends(s, w, id, a, raced, fault);
    CommittedExtends(s, w, id, a, raced, fault);
    HandledAdds(s, id, a, j);
  }

  lemma HandledAdds(s: State, id: nat, a: Answers, j: nat)
    requires id < |s.events| && id !in s.inbox && Handle(s, id, a).Ok?
    requires |s.events| <= j < |Handle(s, id, a).value.events|
    ensures
      var e := Handle(s, id, a).value.events[j];
      && AsksFor(s, id, a, Job(e.topic, e.item))
      && e == EventOf(Job(e.topic, e.item), s.events[id].aggregate.order, s.now)
  {
    HandleAdds(s, id, a);
    JobAdded(s.events, Dispatch(s, s.events[id], a).value.enqueued, s.events[id].aggregate.order, s.now,
             Handle(s, id, a).value.events, j);
  }

  lemma QuoteAdds(s: State, k: nat, quote: nat, sold: nat, bought: nat, usable: bool)
    requires AcceptFxQuote(s, k, quote, sold, bought, usable).Ok?
    ensures
      var t := AcceptFxQuote(s, k, quote, sold, bought, usable).value;
      && k < |s.orders| && Extends(s.events, t.events) && s.events <= t.events
      && t.events == s.events + [EventOf(IntentJobs(s.orders[k])[0], k, s.now),
                                 EventOf(IntentJobs(s.orders[k])[1], k, s.now)]
  {
    EnqueueAllIs(s.events, IntentJobs(s.orders[k]), k, s.now);
  }

  lemma ClaimExtends(s: State, w: Worker, limit: int, locked: set<nat>)
    ensures Extends(s.events, ClaimStep(s, w, limit, locked).events)
    ensures |ClaimStep(s, w, limit, locked).events| == |s.events|
  {
  }

  predicate GrowsBy(s: State, step: Step, t: State) {
    Extends(s.events, t.events) && forall j :: |s.events| <= j < |t.events| ==> Adds(s, step, t.events[j])
  }

  lemma QuoteGrows(s: State, step: Step, k: nat, quote: nat, sold: nat, bought: nat, usable: bool)
    requires step == AcceptQuote(k, quote, sold, bought, usable)
    ensures GrowsBy(s, step, Committed(s, AcceptFxQuote(s, k, quote, sold, bought, usable)))
  {
    if AcceptFxQuote(s, k, quote, sold, bought, usable).Ok? {
      QuoteAdds(s, k, quote, sold, bought, usable);
    }
  }

  lemma RequestGrows(s: State, k: nat)
    ensures GrowsBy(s, RequestCancellation(k), Committed(s, RequestCancel(s, k)))
  {
  }

  lemma CreationGrows(s: State, p: Payment)
    ensures GrowsBy(s, Create(p), Committed(s, CreateOrder(s, p)))
  {
  }

  lemma ApprovalExtends(s: State, id: nat, checker: nat)
    ensures Extends(s.events, Committed(s, Approve(s, id, checker)).events)
    ensures |Committed(s, Approve(s, id, checker)).events| == |s.events|
  {
  }

  lemma DeliveryExtends(s: State, step: Step)
    requires step.Tick? || step.Heartbeat? || step.Crash? || step.CreateReplay? || step.PostJournal? || step.SetCases?
    ensures Extends(s.events, Apply(s, step).events) && |Apply(s, step).events| == |s.events|
  {
  }

  /** Every event is added by the step that asks for it, and keeps its keys from then on. */
  lemma StepAdds(s: State, step: Step)
    ensures GrowsBy(s, step, Apply(s, step))
  {
    match step
    case Work(w, id, a, raced, fault) =>
      WorkExtends(s, w, id, a, raced, fault);
      forall j | |s.events| <= j < |WorkOn(s, w, id, a, raced, fault).events|
        ensures Adds(s, step, WorkOn(s, w, id, a, raced, fault).events[j])
      {
        WorkAdds(s, w, id, a, raced, fault, j);
      }
    case Claim(w, limit, locked) => ClaimExtends(s, w, limit, locked);
    case Create(payment) => CreationGrows(s, payment);
    case RequestCancellation(k) => RequestGrows(s, k);
    case AcceptQuote(k, quote, sold, bought, usable) => QuoteGrows(s, step, k, quote, sold, bought, usable);
    case ApproveReplay(id, checker) => ApprovalExtends(s, id, checker);
    case _ => DeliveryExtends(s, step);
  }
}

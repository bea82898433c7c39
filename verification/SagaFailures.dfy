/** What becomes of events whose turns fail: attempts, retries, dead letters and their way back. */
module SagaFailures {
  import opened Results
  import opened Outbox
  import opened Handlers
  import opened Saga
  import opened SagaEvents

  // ----- attempts are claims -----

  /** The step claims event `id`. */
  predicate Takes(s: State, step: Step, id: nat) {
    step.Claim? && id in ClaimBatch(s.events, s.now, step.limit, step.locked)
  }

  /** How often the run claims event `id`. */
  function Claims(s: State, steps: seq<Step>, id: nat): nat
    decreases |steps|
  {
    if steps == [] then 0
    else
      var n := |steps| - 1;
      Claims(s, steps[..n], id) + if Takes(Run(s, steps[..n]), steps[n], id) then 1 else 0
  }

  lemma TakenRowsExist(s: State, step: Step, id: nat)
    requires Takes(s, step, id)
    ensures id < |s.events|
  {
    ClaimedRowsAscend(s.events, s.now, step.limit, step.locked);
  }

  lemma WorkKeepsAttempts(s: State, w: Worker, id: nat, a: Answers, raced: bool, fault: bool, i: nat)
    requires i < |s.events|
    ensures
      var t := WorkOn(s, w, id, a, raced, fault);
      i < |t.events| && t.events[i].attempts == s.events[i].attempts
  {
    if (w, id) in s.held && id < |s.events| {
      TurnWrites(s, w, id, a, raced, fault);
    }
  }

  lemma QuoteKeepsRows(s: State, k: nat, quote: nat, sold: nat, bought: nat, usable: bool)
    ensures s.events <= Committed(s, AcceptFxQuote(s, k, quote, sold, bought, usable)).events
  {
    if AcceptFxQuote(s, k, quote, sold, bought, usable).Ok? {
      QuoteAdds(s, k, quote, sold, bought, usable);
    }
  }

  lemma ApprovalKeepsAttempts(s: State, id: nat, checker: nat, i: nat)
    requires i < |s.events|
    ensures
      var t := Committed(s, Approve(s, id, checker));
      i < |t.events| && t.events[i].attempts == s.events[i].attempts
  {
  }

  lemma OtherStepsKeepAttempts(s: State, step: Step, i: nat)
    requires i < |s.events| && !step.Claim? && !step.Work? && !step.AcceptQuote? && !step.ApproveReplay?
    ensures i < |Apply(s, step).events| && Apply(s, step).events[i].attempts == s.events[i].attempts
  {
  }

  lemma StepCountsAttempts(s: State, step: Step, i: nat)
    requires i < |s.events|
    ensures i < |Apply(s, step).events|
    ensures Apply(s, step).events[i].attempts == s.events[i].attempts + if Takes(s, step, i) then 1 else 0
  {
    match step
    case Work(w, id, a, raced, fault) => WorkKeepsAttempts(s, w, id, a, raced, fault, i);
    case Claim(w, limit, locked) => ClaimWrites(s.events, s.now, limit, locked, w, i);
    case AcceptQuote(k, quote, sold, bought, usable) => QuoteKeepsRows(s, k, quote, sold, bought, usable);
    case ApproveReplay(id, checker) => ApprovalKeepsAttempts(s, id, checker, i);
    case _ => OtherStepsKeepAttempts(s, step, i);
  }

  lemma NewEventsAreUntried(s: State, step: Step, i: nat)
    requires |s.events| <= i < |Apply(s, step).events|
    ensures Apply(s, step).events[i].attempts == 0 && !Takes(s, step, i)
  {
    StepAdds(s, step);
    assert Adds(s, step, Apply(s, step).events[i]);
    if Takes(s, step, i) {
      TakenRowsExist(s, step, i);
    }
  }

  lemma {:induction false} UnknownEventsAreUnclaimed(s: State, steps: seq<Step>, id: nat)
    requires id >= |Run(s, steps).events|
    ensures Claims(s, steps, id) == 0
    decreases |steps|
  {
    if steps != [] {
      var n := |steps| - 1;
      var u := Run(s, steps[..n]);
      StepAdds(u, steps[n]);
      UnknownEventsAreUnclaimed(s, steps[..n], id);
      if Takes(u, steps[n], id) {
        TakenRowsExist(u, steps[n], id);
      }
    }
  }

  /** In every run, an event's attempts are the number of times it has been claimed. */
  lemma {:induction false} AttemptsAreClaims(now: int, sandbox: bool, steps: seq<Step>, id: nat)
    requires id < |Run(Start(now, sandbox), steps).events|
    ensures Run(Start(now, sandbox), steps).events[id].attempts == Claims(Start(now, sandbox), steps, id)
    decreases |steps|
  {
    if steps != [] {
      var n := |steps| - 1;
      var u := Run(Start(now, sandbox), steps[..n]);
      if id < |u.events| {
        AttemptsAreClaims(now, sandbox, steps[..n], id);
        StepCountsAttempts(u, steps[n], id);
      } else {
        UnknownEventsAreUnclaimed(Start(now, sandbox), steps[..n], id);
        NewEventsAreUntried(u, steps[n], id);
      }
    }
  }

  // ----- a turn that fails -----

  /** The tables but for the outbox and the worker's claims. */
  predicate SameTables(s: State, t: State) {
    t.Desk() == s.Desk() && t.inbox == s.inbox && t.ran == s.ran && t.replays == s.replays && t.now == s.now
  }

  lemma FailedTurnWrites(s: State, w: Worker, id: nat, a: Answers, raced: bool, fault: bool)
    requires (w, id) in s.held && id < |s.events| && !Commits(s, w, id, a, raced, fault)
    ensures
      var t, e := WorkOn(s, w, id, a, raced, fault), s.events[id];
      && SameTables(s, t)
      && t.events == s.events[id :=
                                if e.attempts >= 8 then e.(status := DeadLetter, leaseOwner := None, leaseUntil := None)
                                else e.(status := Pending, availableAt := s.now + 10, leaseOwner := None,
                                        leaseUntil := None)]
  {
    TurnWrites(s, w, id, a, raced, fault);
    FailureWrites(s.events[id], s.now);
  }

  /** The event waits for its retry, or somebody who still held it has completed it. */
  predicate Parked(s: State, id: nat, until: int) {
    && id < |s.events| && until <= s.now + 10 && s.events[id].attempts < 8
    && (s.events[id].status == Published || (s.events[id].status == Pending && s.events[id].availableAt >= until))
  }

  lemma ParkedIsNotTaken(s: State, id: nat, until: int, limit: int, locked: set<nat>)
    requires Parked(s, id, until) && s.now < until
    ensures id !in ClaimBatch(s.events, s.now, limit, locked)
  {
    ClaimedExactlyWhen(s.events, s.now, limit, locked, id);
  }

  lemma WorkKeepsParked(s: State, w: Worker, e: nat, a: Answers, raced: bool, fault: bool, id: nat, until: int)
    requires Parked(s, id, until)
    ensures Parked(WorkOn(s, w, e, a, raced, fault), id, until)
  {
    if (w, e) in s.held && e < |s.events| {
      if Commits(s, w, e, a, raced, fault) {
        CommittedRows(s, w, e, a, raced, fault);
      } else {
        FailedTurnWrites(s, w, e, a, raced, fault);
      }
    }
  }

  lemma ClaimKeepsParked(s: State, w: Worker, limit: int, locked: set<nat>, id: nat, until: int)
    requires Parked(s, id, until) && s.now < until
    ensures Parked(ClaimStep(s, w, limit, locked), id, until)
  {
    ParkedIsNotTaken(s, id, until, limit, locked);
    ClaimWrites(s.events, s.now, limit, locked, w, id);
  }

  lemma OtherStepsKeepParked(s: State, step: Step, id: nat, until: int)
    requires Parked(s, id, until) && !step.Claim? && !step.Work? && !step.AcceptQuote? && !step.ApproveReplay?
    ensures Parked(Apply(s, step), id, until)
  {
  }

  lemma QuoteKeepsParked(s: State, k: nat, quote: nat, sold: nat, bought: nat, usable: bool, id: nat, until: int)
    requires Parked(s, id, until)
    ensures Parked(Committed(s, AcceptFxQuote(s, k, quote, sold, bought, usable)), id, until)
  {
    QuoteKeepsRows(s, k, quote, sold, bought, usable);
  }

  lemma ApprovalKeepsParked(s: State, e: nat, checker: nat, id: nat, until: int)
    requires Parked(s, id, until)
    ensures Parked(Committed(s, Approve(s, e, checker)), id, until)
  {
  }

  lemma StepKeepsParked(s: State, step: Step, id: nat, until: int)
    requires Parked(s, id, until) && s.now < until
    ensures Parked(Apply(s, step), id, until)
  {
    match step
    case Work(w, e, a, raced, fault) => WorkKeepsParked(s, w, e, a, raced, fault, id, until);
    case Claim(w, limit, locked) => ClaimKeepsParked(s, w, limit, locked, id, until);
    case AcceptQuote(k, quote, sold, bought, usable) => QuoteKeepsParked(s, k, quote, sold, bought, usable, id, until);
    case ApproveReplay(e, checker) => ApprovalKeepsParked(s, e, checker, id, until);
    case _ => OtherStepsKeepParked(s, step, id, until);
  }

  lemma ClockGoesOn(s: State, step: Step)
    ensures s.now <= Apply(s, step).now
  {
    if step.Work? {
      TurnKeepsClock(s, step.worker, step.event, step.answers, step.raced, step.fault);
    }
  }

  lemma TurnKeepsClock(s: State, w: Worker, id: nat, a: Answers, raced: bool, fault: bool)
    ensures WorkOn(s, w, id, a, raced, fault).now == s.now
  {
    if (w, id) in s.held && id < |s.events| {
      if Commits(s, w, id, a, raced, fault) {
        CommittedRows(s, w, id, a, raced, fault);
      } else {
        FailedTurnWrites(s, w, id, a, raced, fault);
      }
    }
  }

  lemma {:induction false} RunKeepsParked(s: State, later: seq<Step>, id: nat, until: int)
    requires Parked(s, id, until) && Run(s, later).now < until
    ensures Parked(Run(s, later), id, until)
    decreases |later|
  {
    if later != [] {
      var n := |later| - 1;
      ClockGoesOn(Run(s, later[..n]), later[n]);
      RunKeepsParked(s, later[..n], id, until);
      StepKeepsParked(Run(s, later[..n]), later[n], id, until);
    }
  }

  /** In every run, a failing turn changes its event alone. The event is dead-lettered if and only if it has been
      claimed at least eight times; otherwise it is PENDING and unleased. */
  lemma {:induction false} FailingTurns(now: int, sandbox: bool, steps: seq<Step>, w: Worker, id: nat, a: Answers,
                                        raced: bool, fault: bool)
    requires
      var s := Run(Start(now, sandbox), steps);
      (w, id) in s.held && id < |s.events| && !Commits(s, w, id, a, raced, fault)
    ensures
      var s := Run(Start(now, sandbox), steps);
      var t := Apply(s, Work(w, id, a, raced, fault));
      && SameTables(s, t) && |t.events| == |s.events|
      && (forall j :: 0 <= j < |s.events| && j != id ==> t.events[j] == s.events[j])
      && t.events[id].leaseOwner == None && t.events[id].leaseUntil == None
      && t.events[id].status == if Claims(Start(now, sandbox), steps, id) >= 8 then DeadLetter else Pending
  {
    var s := Run(Start(now, sandbox), steps);
    AttemptsAreClaims(now, sandbox, steps, id);
    FailedTurnWrites(s, w, id, a, raced, fault);
  }

  /** And an event that failed before its eighth claim is in no batch for ten seconds, whatever happens. */
  lemma {:induction false} FailedEventsWait(now: int, sandbox: bool, steps: seq<Step>, w: Worker, id: nat, a: Answers,
                                            raced: bool, fault: bool, later: seq<Step>, limit: int, locked: set<nat>)
    requires
      var s := Run(Start(now, sandbox), steps);
      (w, id) in s.held && id < |s.events| && !Commits(s, w, id, a, raced, fault)
    requires Claims(Start(now, sandbox), steps, id) < 8
    requires
      var s := Run(Start(now, sandbox), steps);
      Run(Apply(s, Work(w, id, a, raced, fault)), later).now < s.now + 10
    ensures
      var u := Run(Apply(Run(Start(now, sandbox), steps), Work(w, id, a, raced, fault)), later);
      id !in ClaimBatch(u.events, u.now, limit, locked)
  {
    var s := Run(Start(now, sandbox), steps);
    var t := Apply(s, Work(w, id, a, raced, fault));
    AttemptsAreClaims(now, sandbox, steps, id);
    FailedTurnWrites(s, w, id, a, raced, fault);
    assert Parked(t, id, s.now + 10);
    RunKeepsParked(t, later, id, s.now + 10);
    ParkedIsNotTaken(Run(t, later), id, s.now + 10, limit, locked);
  }

  // ----- dead letters -----

  lemma RequestsKeepRows(s: State, step: Step, i: nat)
    requires i < |s.events| && (step.AcceptQuote? || step.Create? || step.RequestCancellation?)
    ensures i < |Apply(s, step).events| && Apply(s, step).events[i] == s.events[i]
  {
    if step.AcceptQuote? {
      QuoteKeepsRows(s, step.order, step.quote, step.sold, step.bought, step.usable);
    }
  }

  lemma ReplayWrites(s: State, id: nat, checker: nat)
    ensures
      var goes := id in s.replays && !s.replays[id].approved && s.replays[id].maker != checker
                  && id < |s.events| && s.events[id].status == DeadLetter;
      Apply(s, ApproveReplay(id, checker))
      == if goes then s.(replays := s.replays[id := Replay(s.replays[id].maker, true)],
                         events := s.events[id := s.events[id].(status := Pending, availableAt := s.now,
                                                                leaseOwner := None, leaseUntil := None)])
         else s
  {
  }

  lemma DeliveryKeepsDead(s: State, step: Step, i: nat)
    requires i < |s.events| && s.events[i].status == DeadLetter
    requires step.Claim? || step.Tick? || step.Heartbeat? || step.Crash? || step.CreateReplay?
             || step.PostJournal? || step.SetCases?
    ensures i < |Apply(s, step).events| && Apply(s, step).events[i] == s.events[i]
  {
    if step.Claim? {
      ClaimedExactlyWhen(s.events, s.now, step.limit, step.locked, i);
      ClaimWrites(s.events, s.now, step.limit, step.locked, step.worker, i);
    }
  }

  /** The ways back: a turn of somebody who still held the event commits, or a replay is approved by another person
      than the one who asked for it. */
  predicate ComesBack(s: State, step: Step, id: nat, t: State)
    requires id < |s.events| && id < |t.events|
  {
    || (step.Work? && step.event == id && t.events[id].status == Published
        && Commits(s, step.worker, id, step.answers, step.raced, step.fault))
    || (step.ApproveReplay? && step.event == id && id in s.replays && !s.replays[id].approved
        && s.replays[id].maker != step.checker && t.events[id].status == Pending && t.events[id].availableAt == s.now)
  }

  lemma WorkOnDeadLetter(s: State, step: Step, id: nat)
    requires step.Work? && id < |s.events| && s.events[id].status == DeadLetter && s.events[id].attempts >= 8
    ensures
      var t := Apply(s, step);
      id < |t.events| && (t.events[id].status == DeadLetter || ComesBack(s, step, id, t))
  {
    var w, e, a, raced, fault := step.worker, step.event, step.answers, step.raced, step.fault;
    if (w, e) in s.held && e < |s.events| {
      if Commits(s, w, e, a, raced, fault) {
        CommittedRows(s, w, e, a, raced, fault);
      } else {
        FailedTurnWrites(s, w, e, a, raced, fault);
      }
    }
  }

  lemma StepOnDeadLetter(s: State, step: Step, id: nat)
    requires id < |s.events| && s.events[id].status == DeadLetter && s.events[id].attempts >= 8
    ensures
      var t := Apply(s, step);
      id < |t.events| && (t.events[id].status == DeadLetter || ComesBack(s, step, id, t))
  {
    if step.Work? {
      WorkOnDeadLetter(s, step, id);
    } else if step.ApproveReplay? {
      ReplayWrites(s, step.event, step.checker);
    } else if step.AcceptQuote? || step.Create? || step.RequestCancellation? {
      RequestsKeepRows(s, step, id);
    } else {
      DeliveryKeepsDead(s, step, id);
    }
  }

  predicate DeadAfterEight(e: Event) {
    e.status == DeadLetter ==> e.attempts >= 8
  }

  lemma WorkKeepsEight(s: State, w: Worker, id: nat, a: Answers, raced: bool, fault: bool, i: nat)
    requires i < |s.events| && DeadAfterEight(s.events[i])
    ensures
      var t := WorkOn(s, w, id, a, raced, fault);
      i < |t.events| && DeadAfterEight(t.events[i])
  {
    if (w, id) in s.held && id < |s.events| {
      if Commits(s, w, id, a, raced, fault) {
        CommittedRows(s, w, id, a, raced, fault);
      } else {
        FailedTurnWrites(s, w, id, a, raced, fault);
      }
    }
  }

  lemma StepKeepsEight(s: State, step: Step, i: nat)
    requires i < |s.events| && DeadAfterEight(s.events[i])
    ensures i < |Apply(s, step).events| && DeadAfterEight(Apply(s, step).events[i])
  {
    match step
    case Work(w, id, a, raced, fault) => WorkKeepsEight(s, w, id, a, raced, fault, i);
    case Claim(w, limit, locked) => ClaimWrites(s.events, s.now, limit, locked, w, i);
    case ApproveReplay(id, checker) => ReplayWrites(s, id, checker);
    case AcceptQuote(_, _, _, _, _) => RequestsKeepRows(s, step, i);
    case _ =>
  }

  lemma {:induction false} DeadLettersAreTried(now: int, sandbox: bool, steps: seq<Step>, id: nat)
    requires id < |Run(Start(now, sandbox), steps).events|
    ensures DeadAfterEight(Run(Start(now, sandbox), steps).events[id])
    decreases |steps|
  {
    if steps != [] {
      var n := |steps| - 1;
      var u := Run(Start(now, sandbox), steps[..n]);
      if id < |u.events| {
        DeadLettersAreTried(now, sandbox, steps[..n], id);
        StepKeepsEight(u, steps[n], id);
      } else {
        StepAdds(u, steps[n]);
        assert Adds(u, steps[n], Apply(u, steps[n]).events[id]);
      }
    }
  }

  /** In every run a dead-lettered event stays dead-lettered until it comes back in one of those two ways. */
  lemma {:induction false} DeadLettersStay(now: int, sandbox: bool, steps: seq<Step>, step: Step, id: nat)
    requires id < |Run(Start(now, sandbox), steps).events|
    requires Run(Start(now, sandbox), steps).events[id].status == DeadLetter
    ensures
      var s := Run(Start(now, sandbox), steps);
      var t := Apply(s, step);
      id < |t.events| && (t.events[id].status == DeadLetter || ComesBack(s, step, id, t))
  {
    DeadLettersAreTried(now, sandbox, steps, id);
    StepOnDeadLetter(Run(Start(now, sandbox), steps), step, id);
  }

  // ----- replays -----

  /** A replay is requested if and only if the event is dead-lettered and none was ever requested for it. */
  lemma ReplayRequests(s: State, id: nat, maker: nat)
    ensures
      var goes := id < |s.events| && s.events[id].status == DeadLetter && id !in s.replays;
      Apply(s, CreateReplay(id, maker)) == if goes then s.(replays := s.replays[id := Replay(maker, false)]) else s
  {
  }

  lemma TurnKeepsReplays(s: State, w: Worker, id: nat, a: Answers, raced: bool, fault: bool)
    ensures WorkOn(s, w, id, a, raced, fault).replays == s.replays
  {
    if (w, id) in s.held && id < |s.events| {
      if Commits(s, w, id, a, raced, fault) {
        CommittedRows(s, w, id, a, raced, fault);
      } else {
        FailedTurnWrites(s, w, id, a, raced, fault);
      }
    }
  }

  lemma OthersKeepReplays(s: State, step: Step)
    requires !step.Work? && !step.CreateReplay? && !step.ApproveReplay?
    ensures Apply(s, step).replays == s.replays
  {
  }

  /** The step makes the event pending again. */
  predicate Replays(s: State, step: Step, id: nat) {
    step.ApproveReplay? && step.event == id && Apply(s, step) != s
  }

  /** How often a replay of the event is approved in the run. */
  function ReplaysOf(s: State, steps: seq<Step>, id: nat): nat
    decreases |steps|
  {
    if steps == [] then 0
    else
      var n := |steps| - 1;
      ReplaysOf(s, steps[..n], id) + if Replays(Run(s, steps[..n]), steps[n], id) then 1 else 0
  }

  predicate Approved(s: State, id: nat) {
    id in s.replays && s.replays[id].approved
  }

  lemma StepCountsReplays(s: State, step: Step, id: nat)
    ensures Approved(Apply(s, step), id) <==> Approved(s, id) || Replays(s, step, id)
    ensures Approved(s, id) ==> !Replays(s, step, id)
  {
    match step
    case Work(w, e, a, raced, fault) => TurnKeepsReplays(s, w, e, a, raced, fault);
    case CreateReplay(e, maker) => ReplayRequests(s, e, maker);
    case ApproveReplay(e, checker) => ApprovalCounts(s, e, checker, id);
    case _ => OthersKeepReplays(s, step);
  }

  lemma ApprovalCounts(s: State, e: nat, checker: nat, id: nat)
    ensures
      var t := Apply(s, ApproveReplay(e, checker));
      && (Approved(t, id) <==> Approved(s, id) || (e == id && t != s))
      && (Approved(s, id) && e == id ==> t == s)
  {
    ReplayWrites(s, e, checker);
  }

  /** In every run an event is replayed at most once, and has been exactly when its request is approved. */
  lemma {:induction false} ReplayedAtMostOnce(now: int, sandbox: bool, steps: seq<Step>, id: nat)
    ensures ReplaysOf(Start(now, sandbox), steps, id) == if Approved(Run(Start(now, sandbox), steps), id) then 1 else 0
    decreases |steps|
  {
    if steps != [] {
      var n := |steps| - 1;
      ReplayedAtMostOnce(now, sandbox, steps[..n], id);
      StepCountsReplays(Run(Start(now, sandbox), steps[..n]), steps[n], id);
    }
  }
}

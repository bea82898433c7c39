/** Idempotency keys: who may execute, what is replayed, and for how long. */
module Idempotency {
  import opened Results

  datatype Key = Key(scope: string, key: string)

  datatype Status = Started | Completed | FailedRetryable | FailedFinal | Expired

  datatype Record = Record(request: string, status: Status, expires: int, lockedUntil: Option<int>, attempt: nat,
                           response: Option<string>)

  /** `running` records which attempts were told to execute and have not reported back; nothing else reads it. */
  datatype State = State(now: int, records: map<Key, Record>, running: set<(Key, nat)>)

  datatype Answer = Execute(attempt: nat) | Replay(response: Option<string>)

  datatype Step =
    | Tick(seconds: nat)
    | Begin(key: Key, request: string, ttl: nat, blind: bool)
    | Complete(key: Key, attempt: nat, response: string)
    | Fail(key: Key, attempt: nat, final: bool)
    | Recover(key: Key, found: Option<string>)

  function Start(now: int): State {
    State(now, map[], {})
  }

  /** The characters that stripping removes. */
  predicate White(c: char) {
    || c == ' ' || '\U{9}' <= c <= '\U{d}' || '\U{1c}' <= c <= '\U{1f}'
    || c in {'\U{85}', '\U{a0}', '\U{1680}', '\U{2028}', '\U{2029}', '\U{202f}', '\U{205f}', '\U{3000}'}
    || '\U{2000}' <= c <= '\U{200a}'
  }

  predicate Blank(key: string) {
    forall i :: 0 <= i < |key| ==> White(key[i])
  }

  function Reopened(r: Record, now: int, ttl: nat): Record {
    r.(status := Started, lockedUntil := Some(now + ttl), attempt := r.attempt + 1)
  }

  predicate Locked(r: Record, now: int) {
    r.lockedUntil.None? || r.lockedUntil.value > now
  }

  /** The record to store and the caller's answer, or a refusal. `blind` says that the look-up missed a record that
      another transaction was inserting, so that the insertion meets the unique key. */
  function Decide(records: map<Key, Record>, now: int, key: Key, request: string, ttl: nat,
                  blind: bool): Result<(Record, Answer)> {
    if Blank(key.key) then Err(Conflict)
    else if key !in records then Ok((Record(request, Started, now + ttl, Some(now + ttl), 1, None), Execute(1)))
    else
      var r := records[key];
      if r.request != request then Err(Conflict)
      else if blind then if r.status == Completed then Ok((r, Replay(r.response))) else Err(Conflict)
      else if r.expires <= now then Err(Conflict)
      else
        match r.status
        case Started => if Locked(r, now) then Err(Conflict) else Ok((Reopened(r, now, ttl), Execute(r.attempt + 1)))
        case Completed => Ok((r, Replay(r.response)))
        case FailedRetryable => Ok((Reopened(r, now, ttl), Execute(r.attempt + 1)))
        case FailedFinal => Err(Conflict)
        case Expired => Err(Conflict)
  }

  function Finished(r: Record, response: string): Record {
    r.(status := Completed, response := Some(response), lockedUntil := None)
  }

  function Broken(r: Record, final: bool): Record {
    r.(status := if final then FailedFinal else FailedRetryable, lockedUntil := None)
  }

  predicate Recoverable(r: Record, now: int) {
    r.status == Started && !Locked(r, now)
  }

  function Recovered(r: Record, now: int, found: Option<string>): Record {
    if found.Some? then Finished(r, found.value) else r.(lockedUntil := Some(now))
  }

  /** An attempt reports back at most once; a refused request changes nothing. */
  function Apply(s: State, step: Step): State {
    match step
    case Tick(seconds) => s.(now := s.now + seconds)
    case Begin(key, request, ttl, blind) =>
      (match Decide(s.records, s.now, key, request, ttl, blind)
       case Err(_) => s
       case Ok((record, answer)) =>
         s.(records := s.records[key := record],
            running := if answer.Execute? then s.running + {(key, answer.attempt)} else s.running))
    case Complete(key, attempt, response) =>
      if key !in s.records || (key, attempt) !in s.running then s
      else s.(records := s.records[key := Finished(s.records[key], response)], running := s.running - {(key, attempt)})
    case Fail(key, attempt, final) =>
      if key !in s.records || (key, attempt) !in s.running then s
      else s.(records := s.records[key := Broken(s.records[key], final)], running := s.running - {(key, attempt)})
    case Recover(key, found) =>
      if key !in s.records || !Recoverable(s.records[key], s.now) then s
      else s.(records := s.records[key := Recovered(s.records[key], s.now, found)])
  }

  function Run(s: State, steps: seq<Step>): State {
    if steps == [] then s else Apply(Run(s, steps[..|steps| - 1]), steps[|steps| - 1])
  }

  // ----- invariant -----

  /** An attempt that is allowed on an existing key is locked for as long as the key is kept. */
  predicate Covers(s: State, step: Step) {
    step.Begin? && step.key in s.records ==>
      var d := Decide(s.records, s.now, step.key, step.request, step.ttl, step.blind);
      d.Ok? && d.value.1.Execute? ==> s.now + step.ttl >= s.records[step.key].expires
  }

  predicate Covered(s: State, steps: seq<Step>) {
    forall i :: 0 <= i < |steps| ==> Covers(Run(s, steps[..i]), steps[i])
  }

  /** A lock never ends before its record expires, and only the current attempt may be running. */
  ghost predicate Sound(s: State, key: Key)
    requires key in s.records
  {
    var r := s.records[key];
    && r.status != Expired
    && (r.status == Started ==> r.lockedUntil.Some? && r.expires <= r.lockedUntil.value)
    && (r.status == Completed ==> r.response.Some?)
    && (forall a :: (key, a) in s.running ==>
                      a == r.attempt && (r.status == Started || (r.status == Completed && r.expires <= s.now)))
  }

  ghost predicate Inv(s: State) {
    && (forall key :: key in s.records ==> Sound(s, key))
    && (forall p :: p in s.running ==> p.0 in s.records)
  }

  lemma StepKeepsSound(s: State, step: Step, key: Key)
    requires Inv(s) && Covers(s, step) && key in Apply(s, step).records
    ensures Sound(Apply(s, step), key)
  {
    if key in s.records {
      assert Sound(s, key);
    }
  }

  lemma StepKeepsInv(s: State, step: Step)
    requires Inv(s) && Covers(s, step)
    ensures Inv(Apply(s, step))
  {
    var t := Apply(s, step);
    forall key | key in t.records
      ensures Sound(t, key)
    {
      StepKeepsSound(s, step, key);
    }
  }

  lemma CoveredBefore(s: State, steps: seq<Step>, n: nat)
    requires Covered(s, steps) && n <= |steps|
    ensures Covered(s, steps[..n])
  {
    forall i | 0 <= i < n
      ensures Covers(Run(s, steps[..n][..i]), steps[..n][i])
    {
      assert steps[..n][..i] == steps[..i];
    }
  }

  lemma {:induction false} RunKeepsInv(s: State, steps: seq<Step>)
    requires Inv(s) && Covered(s, steps)
    ensures Inv(Run(s, steps))
    decreases |steps|
  {
    if steps != [] {
      var n := |steps| - 1;
      CoveredBefore(s, steps, n);
      RunKeepsInv(s, steps[..n]);
      StepKeepsInv(Run(s, steps[..n]), steps[n]);
    }
  }

  // ----- main results, for runs in which no attempt's lock ends before its key -----

  ghost predicate Runs(s: State, key: Key) {
    exists a :: (key, a) in s.running
  }

  predicate AtMostOne(s: State, key: Key) {
    forall p, q :: p in s.running && q in s.running && p.0 == key && q.0 == key ==> p == q
  }

  /** At most one attempt per key is running; nobody is told to execute while one is, before the key expires. */
  lemma AtMostOneAttemptRuns(now: int, steps: seq<Step>, key: Key, request: string, ttl: nat, blind: bool)
    requires Covered(Start(now), steps)
    ensures var s := Run(Start(now), steps);
            && AtMostOne(s, key)
            && (Runs(s, key) ==>
                  var d := Decide(s.records, s.now, key, request, ttl, blind);
                  d.Ok? ==> d.value.1.Replay?)
  {
    RunKeepsInv(Start(now), steps);
    OneRuns(Run(Start(now), steps), key, request, ttl, blind);
  }

  lemma OneRuns(s: State, key: Key, request: string, ttl: nat, blind: bool)
    requires Inv(s)
    ensures AtMostOne(s, key)
    ensures Runs(s, key) ==>
              var d := Decide(s.records, s.now, key, request, ttl, blind);
              d.Ok? ==> d.value.1.Replay?
  {
    if a :| (key, a) in s.running {
      assert (key, a).0 in s.records;
      assert Sound(s, key);
    }
    forall p, q | p in s.running && q in s.running && p.0 == key && q.0 == key
      ensures p == q
    {
      assert p == (key, p.1) && q == (key, q.1) && Sound(s, key);
    }
  }

  /** The takeover of an expired lock is never reached: whoever could take it over finds the key expired. */
  lemma TakeoverIsUnreachable(now: int, steps: seq<Step>, key: Key)
    requires Covered(Start(now), steps) && key in Run(Start(now), steps).records
    ensures var s := Run(Start(now), steps);
            Recoverable(s.records[key], s.now) ==> s.records[key].expires <= s.now
  {
    RunKeepsInv(Start(now), steps);
    assert Sound(Run(Start(now), steps), key);
  }

  /** What a completed key answers. */
  predicate AnswersWith(s: State, key: Key, r: Record, request: string, ttl: nat, blind: bool) {
    Decide(s.records, s.now, key, request, ttl, blind)
    == if request == r.request then Ok((r, Replay(r.response))) else Err(Conflict)
  }

  /** A completed key stays as it is until it expires: the same request is answered with the stored response, any other
      is refused, and nobody executes again. */
  lemma {:induction false} ResponseIsStable(now: int, steps: seq<Step>, later: seq<Step>, key: Key)
    requires Covered(Start(now), steps) && Covered(Run(Start(now), steps), later) && !Blank(key.key)
    requires key in Run(Start(now), steps).records && Run(Start(now), steps).records[key].status == Completed
    requires Run(Run(Start(now), steps), later).now < Run(Start(now), steps).records[key].expires
    ensures var r, t := Run(Start(now), steps).records[key], Run(Run(Start(now), steps), later);
            && key in t.records && t.records[key] == r
            && forall request, ttl, blind :: AnswersWith(t, key, r, request, ttl, blind)
  {
    RunKeepsInv(Start(now), steps);
    CompletedRunStays(Run(Start(now), steps), later, key);
  }

  lemma {:induction false} CompletedRunStays(s: State, later: seq<Step>, key: Key)
    requires Inv(s) && Covered(s, later) && key in s.records && s.records[key].status == Completed
    requires Run(s, later).now < s.records[key].expires
    ensures key in Run(s, later).records && Run(s, later).records[key] == s.records[key]
    decreases |later|
  {
    if later != [] {
      var n := |later| - 1;
      var m := Run(s, later[..n]);
      CoveredBefore(s, later, n);
      ClockIsMonotone(m, later[n]);
      CompletedRunStays(s, later[..n], key);
      RunKeepsInv(s, later[..n]);
      assert Sound(m, key);
      CompletedStepStays(m, later[n], key);
    }
  }

  lemma ClockIsMonotone(s: State, step: Step)
    ensures s.now <= Apply(s, step).now
  {
  }

  lemma CompletedStepStays(s: State, step: Step, key: Key)
    requires key in s.records && Sound(s, key) && s.records[key].status == Completed && s.now < s.records[key].expires
    ensures key in Apply(s, step).records && Apply(s, step).records[key] == s.records[key]
  {
  }

  // ----- who executes, who is answered, who is refused -----

  /** The key is a fresh one, or its last attempt failed in a way that may be retried, or has lost its lock; and the
      request is the one it was made for, and the key has not expired. */
  predicate MayExecute(s: State, key: Key, request: string, blind: bool) {
    key in s.records ==>
      && !blind && s.records[key].request == request && s.now < s.records[key].expires
      && (s.records[key].status == FailedRetryable
          || (s.records[key].status == Started && s.records[key].lockedUntil.Some?
              && s.records[key].lockedUntil.value <= s.now))
  }

  /** The key is completed for the same request, and has not expired, or is found by the losing insertion. */
  predicate MayReplay(s: State, key: Key, request: string, blind: bool) {
    && key in s.records && s.records[key].request == request && s.records[key].status == Completed
    && (blind || s.now < s.records[key].expires)
  }

  /** A request is told to execute, is answered with the stored response, or is refused, and exactly when. */
  lemma DecidesExactly(s: State, key: Key, request: string, ttl: nat, blind: bool)
    ensures
      var d := Decide(s.records, s.now, key, request, ttl, blind);
      && (d.Ok? && d.value.1.Execute? <==> !Blank(key.key) && MayExecute(s, key, request, blind))
      && (d.Ok? && d.value.1.Replay? <==> !Blank(key.key) && MayReplay(s, key, request, blind))
      && (d.Ok? && d.value.1.Execute? ==>
            && d.value.1.attempt == (if key in s.records then s.records[key].attempt + 1 else 1)
            && d.value.0.request == request && d.value.0.status == Started
            && d.value.0.expires == (if key in s.records then s.records[key].expires else s.now + ttl)
            && d.value.0.lockedUntil == Some(s.now + ttl) && d.value.0.attempt == d.value.1.attempt)
      && (d.Ok? && d.value.1.Replay? ==> d.value == (s.records[key], Replay(s.records[key].response)))
  {
  }

  /** A running attempt is the current one of its key. */
  lemma RunningIsCurrent(now: int, steps: seq<Step>, key: Key, attempt: nat)
    requires Covered(Start(now), steps) && (key, attempt) in Run(Start(now), steps).running
    ensures
      var s := Run(Start(now), steps);
      Inv(s) && key in s.records && s.records[key].attempt == attempt && AtMostOne(s, key)
  {
    RunKeepsInv(Start(now), steps);
    var s := Run(Start(now), steps);
    assert (key, attempt).0 in s.records && Sound(s, key);
    OneRuns(s, key, "", 0, false);
  }

  /** After a retryable failure the same request executes again, as the next attempt, until its key expires. */
  lemma {:induction false} RetryableFailureReopens(now: int, steps: seq<Step>, key: Key, attempt: nat, request: string,
                                                   ttl: nat)
    requires Covered(Start(now), steps) && (key, attempt) in Run(Start(now), steps).running && !Blank(key.key)
    ensures
      var s := Run(Start(now), steps);
      var t := Apply(s, Fail(key, attempt, false));
      var d := Decide(t.records, t.now, key, request, ttl, false);
      && key in s.records
      && (d.Ok? <==> request == s.records[key].request && s.now < s.records[key].expires)
      && (d.Ok? ==> d.value.1 == Execute(attempt + 1))
  {
    RunningIsCurrent(now, steps, key, attempt);
  }

  lemma FinalStepStays(s: State, step: Step, key: Key)
    requires key in s.records && s.records[key].status == FailedFinal && !Runs(s, key)
    ensures key in Apply(s, step).records && Apply(s, step).records[key] == s.records[key] && !Runs(Apply(s, step), key)
  {
    var t := Apply(s, step);
    forall a
      ensures (key, a) !in t.running
    {
      assert (key, a) !in s.running;
    }
  }

  lemma {:induction false} FinalRunStays(s: State, later: seq<Step>, key: Key)
    requires key in s.records && s.records[key].status == FailedFinal && !Runs(s, key)
    ensures key in Run(s, later).records && Run(s, later).records[key] == s.records[key] && !Runs(Run(s, later), key)
    decreases |later|
  {
    if later != [] {
      var n := |later| - 1;
      FinalRunStays(s, later[..n], key);
      FinalStepStays(Run(s, later[..n]), later[n], key);
    }
  }

  /** After a final failure nobody ever executes or is answered under the key again: every request is refused, whatever
      follows. */
  lemma {:induction false} FinalFailureIsFinal(now: int, steps: seq<Step>, key: Key, attempt: nat, later: seq<Step>,
                                               request: string, ttl: nat, blind: bool)
    requires Covered(Start(now), steps) && (key, attempt) in Run(Start(now), steps).running
    ensures
      var t := Run(Apply(Run(Start(now), steps), Fail(key, attempt, true)), later);
      Decide(t.records, t.now, key, request, ttl, blind).Err?
  {
    RunningIsCurrent(now, steps, key, attempt);
    var s := Run(Start(now), steps);
    var t := Apply(s, Fail(key, attempt, true));
    forall a
      ensures (key, a) !in t.running
    {
      if (key, a) in s.running {
        assert (key, a) == (key, attempt);
      }
    }
    FinalRunStays(t, later, key);
  }

  // ----- one lifetime for all keys is enough -----

  predicate OneLifetime(steps: seq<Step>, ttl: nat) {
    forall i :: 0 <= i < |steps| ==> steps[i].Begin? ==> steps[i].ttl == ttl
  }

  lemma {:induction false} ExpiryIsNear(now: int, ttl: nat, steps: seq<Step>, key: Key)
    requires OneLifetime(steps, ttl) && key in Run(Start(now), steps).records
    ensures Run(Start(now), steps).records[key].expires <= Run(Start(now), steps).now + ttl
    decreases |steps|
  {
    if steps != [] {
      var n := |steps| - 1;
      var s := Run(Start(now), steps[..n]);
      if key in s.records {
        ExpiryIsNear(now, ttl, steps[..n], key);
      }
      ExpiryStep(s, steps[n], key);
    }
  }

  lemma ExpiryStep(s: State, step: Step, key: Key)
    requires key in Apply(s, step).records
    ensures var t := Apply(s, step);
            s.now <= t.now && t.records[key].expires
                              == if key in s.records then s.records[key].expires
                                 else if step.Begin? then s.now + step.ttl else t.records[key].expires
    ensures key !in s.records ==> step.Begin?
  {
  }

  /** Runs in which all keys get the same lifetime are such runs. */
  lemma OneLifetimeCovers(now: int, ttl: nat, steps: seq<Step>)
    requires OneLifetime(steps, ttl)
    ensures Covered(Start(now), steps)
  {
    forall i | 0 <= i < |steps|
      ensures Covers(Run(Start(now), steps[..i]), steps[i])
    {
      if steps[i].Begin? && steps[i].key in Run(Start(now), steps[..i]).records {
        ExpiryIsNear(now, ttl, steps[..i], steps[i].key);
      }
    }
  }

  // ----- exactly when attempts can overlap -----

  /** After the covered run `steps` the key exists and the request is told to execute. */
  predicate Retries(s: State, key: Key, request: string, ttl: nat) {
    key in s.records
    && var d := Decide(s.records, s.now, key, request, ttl, false);
       d.Ok? && d.value.1.Execute?
  }

  /** With a lifetime too short for the key, the attempt's lock ends first, and the next request runs beside it. */
  lemma ShortRetryOverlaps(s: State, key: Key, request: string, ttl: nat) returns (later: seq<Step>)
    requires Retries(s, key, request, ttl) && s.now + ttl < s.records[key].expires
    ensures var t := Apply(s, Begin(key, request, ttl, false));
            Covered(t, later) && !AtMostOne(Run(t, later), key)
  {
    var t := Apply(s, Begin(key, request, ttl, false));
    var expires := s.records[key].expires;
    var wait, again := Tick(ttl), Begin(key, request, expires - s.now - ttl, false);
    later := [wait, again];
    TwoSteps(t, wait, again);
    SecondAttempt(s, key, request, ttl);
  }

  lemma TwoSteps(s: State, a: Step, b: Step)
    ensures Run(s, [a, b]) == Apply(Apply(s, a), b)
    ensures Covers(s, a) && Covers(Apply(s, a), b) ==> Covered(s, [a, b])
  {
    assert [a, b][..1] == [a] && [a][..0] == [] && [a, b][..0] == [];
    assert Run(s, [a]) == Apply(s, a);
  }

  lemma SecondAttempt(s: State, key: Key, request: string, ttl: nat)
    requires Retries(s, key, request, ttl) && s.now + ttl < s.records[key].expires
    ensures var t := Apply(s, Begin(key, request, ttl, false));
            var u := Apply(t, Tick(ttl));
            var again := Begin(key, request, s.records[key].expires - s.now - ttl, false);
            Covers(u, again) && !AtMostOne(Apply(u, again), key)
  {
    var r := Reopened(s.records[key], s.now, ttl);
    var t := Apply(s, Begin(key, request, ttl, false));
    assert t.records[key] == r && (key, r.attempt) in t.running;
    var u := Apply(t, Tick(ttl));
    var v := Apply(u, Begin(key, request, s.records[key].expires - s.now - ttl, false));
    assert (key, r.attempt) in v.running && (key, r.attempt + 1) in v.running;
  }

  /** Exactly when: after a covered run, an attempt allowed on an existing key can come to run beside another attempt,
      in a continuation that is covered again, if and only if its own lifetime ends before the key does. */
  lemma OverlapPossibleExactlyWhen(now: int, steps: seq<Step>, key: Key, request: string, ttl: nat)
    requires Covered(Start(now), steps) && Retries(Run(Start(now), steps), key, request, ttl)
    ensures var s := Run(Start(now), steps);
            var t := Apply(s, Begin(key, request, ttl, false));
            (exists later :: Covered(t, later) && !AtMostOne(Run(t, later), key))
              <==> s.now + ttl < s.records[key].expires
  {
    var s := Run(Start(now), steps);
    var begin := Begin(key, request, ttl, false);
    var t := Apply(s, begin);
    RunKeepsInv(Start(now), steps);
    if s.now + ttl < s.records[key].expires {
      var later := ShortRetryOverlaps(s, key, request, ttl);
    } else {
      assert Covers(s, begin);
      StepKeepsInv(s, begin);
      forall later | Covered(t, later)
        ensures AtMostOne(Run(t, later), key)
      {
        RunKeepsInv(t, later);
        OneRuns(Run(t, later), key, request, ttl, false);
      }
    }
  }

  /** The condition can be met: after a failed attempt a key of lifetime 100 is retried with lifetime 5. */
  lemma ShorterRetriesOverlap() returns (steps: seq<Step>, key: Key, later: seq<Step>)
    ensures Covered(Start(0), steps)
    ensures var t := Apply(Run(Start(0), steps), Begin(key, "r", 5, false));
            Covered(t, later) && !AtMostOne(Run(t, later), key)
  {
    key := Key("scope", "k");
    assert !White('k') && !Blank("k") by {
      assert "k"[0] == 'k';
    }
    var begin, fail := Begin(key, "r", 100, false), Fail(key, 1, false);
    steps := [begin, fail];
    TwoSteps(Start(0), begin, fail);
    FailedOnce(key);
    later := ShortRetryOverlaps(Run(Start(0), steps), key, "r", 5);
  }

  lemma FailedOnce(key: Key)
    requires !Blank(key.key)
    ensures var begin := Begin(key, "r", 100, false);
            Apply(Apply(Start(0), begin), Fail(key, 1, false))
            == State(0, map[key := Record("r", FailedRetryable, 100, None, 1, None)], {})
  {
    var s1 := Apply(Start(0), Begin(key, "r", 100, false));
    assert s1 == State(0, map[key := Record("r", Started, 100, Some(100), 1, None)], {(key, 1)});
  }

  // ----- the service, step by step -----

  class IdempotencyService {
    var records: map<Key, Record>

    constructor ()
      ensures records == map[]
    {
      records := map[];
    }

    /** Inside the caller's transaction: the expiry is marked before the refusal is raised. */
    method BeginAttempt(now: int, key: Key, request: string, ttl: nat, blind: bool) returns (r: Result<Answer>)
      modifies this
      ensures var d := Decide(old(records), now, key, request, ttl, blind);
              && (r.Ok? <==> d.Ok?)
              && (d.Ok? ==> r.value == d.value.1 && records == old(records)[key := d.value.0])
    {
      if Blank(key.key) {
        return Err(Conflict);
      }
      if key in records && !blind {
        if records[key].request != request {
          return Err(Conflict);
        }
        if records[key].expires <= now {
          records := records[key := records[key].(status := Expired)];
          return Err(Conflict);
        }
        if records[key].status == Started {
          if Locked(records[key], now) {
            return Err(Conflict);
          }
          records := records[key := Reopened(records[key], now, ttl)];
          return Ok(Execute(records[key].attempt));
        }
        if records[key].status == Completed {
          return Ok(Replay(records[key].response));
        }
        if records[key].status == FailedRetryable {
          records := records[key := Reopened(records[key], now, ttl)];
          return Ok(Execute(records[key].attempt));
        }
        return Err(Conflict);
      }
      if key in records {
        if records[key].request != request {
          return Err(Conflict);
        }
        if records[key].status == Completed {
          return Ok(Replay(records[key].response));
        }
        return Err(Conflict);
      }
      records := records[key := Record(request, Started, now + ttl, Some(now + ttl), 1, None)];
      return Ok(Execute(1));
    }

    /** As one request: a refusal rolls back, so no key is ever stored as EXPIRED. */
    method BeginRequest(now: int, key: Key, request: string, ttl: nat, blind: bool, ghost running: set<(Key, nat)>)
      returns (r: Result<Answer>)
      modifies this
      ensures records == Apply(State(now, old(records), running), Begin(key, request, ttl, blind)).records
      ensures r.Ok? <==> Decide(old(records), now, key, request, ttl, blind).Ok?
    {
      var saved := records;
      r := BeginAttempt(now, key, request, ttl, blind);
      if r.Err? {
        records := saved;
      }
    }

    method CompleteAttempt(key: Key, response: string)
      requires key in records
      modifies this
      ensures records == old(records)[key := Finished(old(records)[key], response)]
    {
      var r := records[key];
      r := r.(status := Completed);
      r := r.(response := Some(response));
      r := r.(lockedUntil := None);
      records := records[key := r];
    }

    method FailAttempt(key: Key, final: bool)
      requires key in records
      modifies this
      ensures records == old(records)[key := Broken(old(records)[key], final)]
    {
      var r := records[key];
      r := r.(status := if final then FailedFinal else FailedRetryable);
      r := r.(lockedUntil := None);
      records := records[key := r];
    }

    /** `found` is what the query for the key's effect returned. */
    method RecoverStarted(now: int, key: Key, found: Option<string>) returns (r: Result<bool>)
      requires key in records
      modifies this
      ensures r.Ok? <==> Recoverable(old(records)[key], now)
      ensures r.Ok? ==> r.value == found.Some?
                        && records == old(records)[key := Recovered(old(records)[key], now, found)]
      ensures r.Err? ==> records == old(records)
    {
      if records[key].status != Started || Locked(records[key], now) {
        return Err(Conflict);
      }
      if found.Some? {
        CompleteAttempt(key, found.value);
        return Ok(true);
      }
      records := records[key := records[key].(lockedUntil := Some(now))];
      return Ok(false);
    }
  }
}

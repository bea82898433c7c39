/** Limits over whole runs of the two calls that touch them: creating an order and changing an order's state,
    by any caller, in any legal or illegal way. */
module Limits {
  import opened Results
  import opened Sums
  import opened Orders
  import opened LimitDesk

  datatype Step =
    | Create(scope: Scope, day: int, amount: nat, sameCurrency: bool, screeningPasses: bool, profile: Option<Profile>)
    | Move(order: nat, target: OrderState, outcome: Option<Outcome>, expected: Option<nat>)

  /** The version a caller expects is the current one when it names none. */
  function Expected(o: Order, expected: Option<nat>): nat {
    if expected.Some? then expected.value else o.version
  }

  /** The compare-and-set of the order row, then the finalisation when the move closes a limited order. */
  function SetState(d: Desk, k: nat, target: OrderState, outcome: Option<Outcome>,
                    expected: Option<nat>): Result<Desk> {
    if k >= |d.orders| then Err(NoRow)
    else
      var moved :- SetOrderState(d.orders[k], target, outcome, Expected(d.orders[k], expected));
      Settle(d, k, moved)
  }

  function Attempt(d: Desk, s: Step): Result<Desk> {
    match s
    case Create(scope, day, amount, same, passes, profile) => AddOrder(d, scope, day, amount, same, passes, profile)
    case Move(k, target, outcome, expected) => SetState(d, k, target, outcome, expected)
  }

  /** A refused request is rolled back. */
  function Apply(d: Desk, s: Step): Desk {
    var r := Attempt(d, s);
    if r.Ok? then r.value else d
  }

  function Run(steps: seq<Step>): Desk {
    if steps == [] then EMPTY else Apply(Run(steps[..|steps| - 1]), steps[|steps| - 1])
  }

  lemma MoveWrites(o: Order, target: OrderState, outcome: Option<Outcome>, expected: nat)
    requires SetOrderState(o, target, outcome, expected).Ok?
    ensures Writes(o, SetOrderState(o, target, outcome, expected).value)
    ensures !Terminal(o.state) ==> SetOrderState(o, target, outcome, expected).value.state == target
    ensures Terminal(o.state) ==> SetOrderState(o, target, outcome, expected).value == o
  {
  }

  lemma StepKeepsCounters(d: Desk, s: Step)
    requires CountersAgree(d)
    ensures CountersAgree(Apply(d, s))
  {
    if Attempt(d, s).Ok? {
      match s
      case Create(scope, day, amount, same, passes, profile) =>
        AdditionKeepsCounters(d, scope, day, amount, same, passes, profile);
      case Move(k, target, outcome, expected) =>
        var version := Expected(d.orders[k], expected);
        MoveWrites(d.orders[k], target, outcome, version);
        WriteKeepsCounters(d, k, SetOrderState(d.orders[k], target, outcome, version).value);
    }
  }

  /** In every run, whatever the limits: each counter's reserved amount is the sum over its open orders and its
      consumed amount the sum over its orders closed as COMPLETED. */
  lemma {:induction false} CountersMatchOrders(steps: seq<Step>)
    ensures CountersAgree(Run(steps))
    decreases |steps|
  {
    if steps != [] {
      CountersMatchOrders(steps[..|steps| - 1]);
      StepKeepsCounters(Run(steps[..|steps| - 1]), steps[|steps| - 1]);
    }
  }

  /** In every run, a legal change of state is refused by the limits exactly when it closes an open order that
      overdraws its scope. */
  lemma {:induction false} LegalMoveRefusedExactlyWhen(steps: seq<Step>, k: nat, target: OrderState,
                                                       outcome: Option<Outcome>, expected: Option<nat>)
    requires k < |Run(steps).orders|
    requires var o := Run(steps).orders[k];
             SetOrderState(o, target, outcome, Expected(o, expected)).Ok?
    ensures var d := Run(steps);
            var o := d.orders[k];
            SetState(d, k, target, outcome, expected).Err? <==>
            !Terminal(o.state) && Terminal(target) && Overdrawn(d, o)
  {
    var d := Run(steps);
    var o := d.orders[k];
    MoveWrites(o, target, outcome, Expected(o, expected));
    if !Terminal(o.state) && Terminal(target) {
      CountersMatchOrders(steps);
      ClosingRefusedExactlyWhen(d, k, SetOrderState(o, target, outcome, Expected(o, expected)).value);
    }
  }

  // ----- when each scope sets its exposure limit always or never -----

  predicate Uniform(s: Step, guarded: iset<Scope>) {
    s.Create? ==> UniformProfile(s.profile, s.scope, guarded)
  }

  predicate AllUniform(steps: seq<Step>, guarded: iset<Scope>) {
    forall i :: 0 <= i < |steps| ==> Uniform(steps[i], guarded)
  }

  lemma StepKeepsExposures(d: Desk, s: Step, guarded: iset<Scope>)
    requires Bound(d) && ExposuresAgree(d, guarded) && Uniform(s, guarded)
    ensures ExposuresAgree(Apply(d, s), guarded)
  {
    if Attempt(d, s).Ok? {
      match s
      case Create(scope, day, amount, same, passes, profile) =>
        AdditionKeepsExposures(d, scope, day, amount, same, passes, profile, guarded);
      case Move(k, target, outcome, expected) =>
        var version := Expected(d.orders[k], expected);
        MoveWrites(d.orders[k], target, outcome, version);
        WriteKeepsExposures(d, k, SetOrderState(d.orders[k], target, outcome, version).value, guarded);
    }
  }

  /** Then a position holds exactly the open orders of its scope. */
  lemma {:induction false} ExposureMatchesOrders(steps: seq<Step>, guarded: iset<Scope>)
    requires AllUniform(steps, guarded)
    ensures ExposuresAgree(Run(steps), guarded)
    decreases |steps|
  {
    if steps != [] {
      var n := |steps| - 1;
      ExposureMatchesOrders(steps[..n], guarded);
      CountersMatchOrders(steps[..n]);
      assert Uniform(steps[n], guarded);
      StepKeepsExposures(Run(steps[..n]), steps[n], guarded);
    }
  }

  /** And no legal change of state is ever refused by the limits. */
  lemma {:induction false} FinalizationIsNeverRefused(steps: seq<Step>, guarded: iset<Scope>, k: nat,
                                                      target: OrderState,
                                                      outcome: Option<Outcome>, expected: Option<nat>)
    requires AllUniform(steps, guarded) && k < |Run(steps).orders|
    ensures var d := Run(steps);
            SetState(d, k, target, outcome, expected).Ok? <==>
            SetOrderState(d.orders[k], target, outcome, Expected(d.orders[k], expected)).Ok?
  {
    var d := Run(steps);
    if SetOrderState(d.orders[k], target, outcome, Expected(d.orders[k], expected)).Ok? {
      LegalMoveRefusedExactlyWhen(steps, k, target, outcome, expected);
      ExposureMatchesOrders(steps, guarded);
      if !Terminal(d.orders[k].state) {
        UniformScopesAreNotOverdrawn(d, guarded, k);
      }
    }
  }

  // ----- acceptance -----

  /** What counts against a daily limit: the amounts of the open and of the completed orders of its scope and day. */
  ghost function UsedOn(d: Desk, key: LimitKey): int {
    SumSeq(d.orders, OpenOn(key)) + SumSeq(d.orders, CompletedOn(key))
  }

  /** The amounts that count against an exposure limit: those of the open orders of its scope. */
  ghost function ExposedIn(d: Desk, scope: Scope): int {
    SumSeq(d.orders, OpenIn(scope))
  }

  lemma ReservedExactlyWhen(d: Desk, key: LimitKey, amount: int, profile: Profile, guarded: iset<Scope>)
    requires CountersAgree(d) && ExposuresAgree(d, guarded) && (profile.exposure.Some? <==> key.scope in guarded)
    ensures Reserve(d, key, amount, profile).Ok? <==>
            && amount > 0
            && (profile.daily.Some? ==> UsedOn(d, key) + amount <= profile.daily.value)
            && (profile.exposure.Some? ==> ExposedIn(d, key.scope) + amount <= profile.exposure.value)
  {
    assert CounterAgrees(d, key) && ExposureAgrees(d, guarded, key.scope);
  }

  /** In every run a payment is accepted if and only if its amount is positive, fits into what its daily limit leaves
      beside the open and completed payments of the day, and fits into what its exposure limit leaves beside the open
      payments of its scope. */
  lemma {:induction false} PaymentAcceptedExactlyWhen(steps: seq<Step>, guarded: iset<Scope>, s: Step)
    requires AllUniform(steps, guarded) && Uniform(s, guarded) && s.Create?
    ensures
      var d := Run(steps);
      Attempt(d, s).Ok? <==>
      && s.amount > 0
      && (s.profile.Some? && s.profile.value.daily.Some? ==>
            UsedOn(d, LimitKey(s.scope, s.day)) + s.amount <= s.profile.value.daily.value)
      && (s.profile.Some? && s.profile.value.exposure.Some? ==>
            ExposedIn(d, s.scope) + s.amount <= s.profile.value.exposure.value)
  {
    CountersMatchOrders(steps);
    ExposureMatchesOrders(steps, guarded);
    if s.profile.Some? {
      ReservedExactlyWhen(Run(steps), LimitKey(s.scope, s.day), s.amount, s.profile.value, guarded);
    }
  }

  // ----- the limits themselves -----

  predicate DailyWithin(s: Step, key: LimitKey, limit: int) {
    s.Create? && s.scope == key.scope && s.day == key.day && s.profile.Some? ==>
      s.profile.value.daily.Some? && s.profile.value.daily.value <= limit
  }

  lemma StepWithinDaily(d: Desk, s: Step, key: LimitKey, limit: nat)
    requires DailyWithin(s, key, limit)
    requires var c := CounterAt(d.counters, key); c.reserved + c.consumed <= limit
    ensures var c := CounterAt(Apply(d, s).counters, key); c.reserved + c.consumed <= limit
  {
  }

  /** Reserved plus consumed stays within the daily limit in every run whose reservations all meet a limit no larger. */
  lemma {:induction false} DailyLimitHolds(steps: seq<Step>, key: LimitKey, limit: nat)
    requires forall i :: 0 <= i < |steps| ==> DailyWithin(steps[i], key, limit)
    ensures var c := CounterAt(Run(steps).counters, key);
            0 <= c.reserved && 0 <= c.consumed && c.reserved + c.consumed <= limit
    decreases |steps|
  {
    CountersMatchOrders(steps);
    CountersAreNonnegative(Run(steps), key);
    if steps != [] {
      DailyLimitHolds(steps[..|steps| - 1], key, limit);
      StepWithinDaily(Run(steps[..|steps| - 1]), steps[|steps| - 1], key, limit);
    }
  }

  lemma CountersAreNonnegative(d: Desk, key: LimitKey)
    requires CountersAgree(d)
    ensures 0 <= CounterAt(d.counters, key).reserved && 0 <= CounterAt(d.counters, key).consumed
  {
    assert CounterAgrees(d, key);
    SumNonnegative(d.orders, OpenOn(key));
    SumNonnegative(d.orders, CompletedOn(key));
  }

  predicate ExposureWithin(s: Step, scope: Scope, limit: int) {
    s.Create? && s.scope == scope && s.profile.Some? && s.profile.value.exposure.Some? ==>
      s.profile.value.exposure.value <= limit
  }

  lemma StepWithinExposure(d: Desk, s: Step, scope: Scope, limit: nat)
    requires ExposureWithin(s, scope, limit) && 0 <= PositionAt(d.positions, scope).exposure <= limit
    ensures 0 <= PositionAt(Apply(d, s).positions, scope).exposure <= limit
  {
  }

  /** The exposure of a scope stays within its limit, uniform or not: finalising only lowers it. */
  lemma {:induction false} ExposureLimitHolds(steps: seq<Step>, scope: Scope, limit: nat)
    requires forall i :: 0 <= i < |steps| ==> ExposureWithin(steps[i], scope, limit)
    ensures 0 <= PositionAt(Run(steps).positions, scope).exposure <= limit
    decreases |steps|
  {
    if steps != [] {
      ExposureLimitHolds(steps[..|steps| - 1], scope, limit);
      StepWithinExposure(Run(steps[..|steps| - 1]), steps[|steps| - 1], scope, limit);
    }
  }

  // ----- a scope that mixes set and unset exposure limits -----

  lemma RunOfThree(a: Step, b: Step, c: Step)
    ensures Run([a, b, c]) == Apply(Apply(Apply(EMPTY, a), b), c)
  {
    assert [a, b, c][..2] == [a, b] && [a, b][..1] == [a] && [a][..0] == [];
    assert Run([a]) == Apply(EMPTY, a);
    assert Run([a, b]) == Apply(Run([a]), b);
  }

  const UNLIMITED := Create("scope", 0, 5, true, true, Some(Profile(None, None)))
  const GUARDED := Create("scope", 0, 3, true, true, Some(Profile(None, Some(100))))

  lemma TwoCreated(d: Desk)
    requires d == Apply(Apply(EMPTY, UNLIMITED), GUARDED)
    ensures |d.orders| == 2 && d.orders[0] == NewOrder(5, true, true, "scope", Some(LimitKey("scope", 0)))
    ensures "scope" in d.positions && d.positions["scope"].exposure == 3 && LimitKey("scope", 0) in d.counters
  {
    assert Apply(EMPTY, UNLIMITED).orders == [NewOrder(5, true, true, "scope", Some(LimitKey("scope", 0)))];
  }

  /** The first order may be closed by its own rules, and the limits refuse it. */
  predicate LegalButRefused(d: Desk) {
    && d.orders != []
    && SetOrderState(d.orders[0], OperationallyClosedUnsuccessful, None, d.orders[0].version).Ok?
    && SetState(d, 0, OperationallyClosedUnsuccessful, None, None).Err?
  }

  /** Without uniformity a payment can become impossible to close: created with no exposure limit, it is later
      charged against the position that a smaller payment of the same scope brought into being. */
  lemma AMixedScopeBlocksClosing() returns (steps: seq<Step>)
    ensures LegalButRefused(Run(steps))
  {
    var suspend := Move(0, Suspended, None, None);
    steps := [UNLIMITED, GUARDED, suspend];
    RunOfThree(UNLIMITED, GUARDED, suspend);
    TwoCreated(Apply(Apply(EMPTY, UNLIMITED), GUARDED));
    SuspendedOrderBlocked(Apply(Apply(EMPTY, UNLIMITED), GUARDED));
  }

  lemma SuspendedOrderBlocked(d: Desk)
    requires |d.orders| == 2 && d.orders[0] == NewOrder(5, true, true, "scope", Some(LimitKey("scope", 0)))
    requires "scope" in d.positions && d.positions["scope"].exposure == 3 && LimitKey("scope", 0) in d.counters
    ensures LegalButRefused(Apply(d, Move(0, Suspended, None, None)))
  {
    var o := d.orders[0];
    var moved := o.(state := Suspended, version := o.version + 1);
    assert SetOrderState(o, Suspended, None, o.version) == Ok(moved);
    PlainWrite(d, 0, moved);
    OpenOrderBlocked(d.(orders := d.orders[0 := moved]));
  }

  lemma OpenOrderBlocked(d: Desk)
    requires |d.orders| == 2 && d.orders[0].state == Suspended && d.orders[0].amount == 5
    requires d.orders[0].scope == "scope" && d.orders[0].counter == Some(LimitKey("scope", 0))
    requires "scope" in d.positions && d.positions["scope"].exposure == 3 && LimitKey("scope", 0) in d.counters
    ensures LegalButRefused(d)
  {
  }
}

/** Limit counters and exposure positions beside the order table: reserving, finalising, and what they stand for. */
module LimitDesk {
  import opened Results
  import opened Sums
  import opened Orders

  datatype Counter = Counter(reserved: int, consumed: int, version: nat)
  datatype Position = Position(exposure: int, version: nat)

  datatype Desk = Desk(counters: map<LimitKey, Counter>, positions: map<Scope, Position>, orders: seq<Order>)

  /** The limits in force when an order is created; either may be absent. */
  datatype Profile = Profile(daily: Option<int>, exposure: Option<int>)

  const EMPTY := Desk(map[], map[], [])

  function CounterAt(counters: map<LimitKey, Counter>, key: LimitKey): Counter {
    if key in counters then counters[key] else Counter(0, 0, 1)
  }

  function PositionAt(positions: map<Scope, Position>, scope: Scope): Position {
    if scope in positions then positions[scope] else Position(0, 1)
  }

  function Reserve(d: Desk, key: LimitKey, amount: int, profile: Profile): Result<Desk> {
    var c, p := CounterAt(d.counters, key), PositionAt(d.positions, key.scope);
    if amount <= 0 then Err(Conflict)
    else if profile.daily.Some? && c.reserved + c.consumed + amount > profile.daily.value then Err(Conflict)
    else if profile.exposure.Some? && p.exposure + amount > profile.exposure.value then Err(Conflict)
    else
      Ok(d.(counters := d.counters[key := Counter(c.reserved + amount, c.consumed, c.version + 1)],
            positions := if profile.exposure.None? then d.positions
                         else d.positions[key.scope := Position(p.exposure + amount, p.version + 1)]))
  }

  lemma ReserveIgnoresOrders(d: Desk, orders: seq<Order>, key: LimitKey, amount: int, profile: Profile)
    ensures
      var r, t := Reserve(d, key, amount, profile), Reserve(d.(orders := orders), key, amount, profile);
      (t.Ok? <==> r.Ok?) && (t.Ok? ==> t.value == r.value.(orders := orders) && r.value.orders == d.orders)
  {
  }

  function Finalize(d: Desk, key: LimitKey, amount: int, consumed: bool): Result<Desk>
    requires key in d.counters
  {
    var c := d.counters[key];
    if amount <= 0 || c.reserved < amount then Err(Conflict)
    else
      var moved := Counter(c.reserved - amount, c.consumed + if consumed then amount else 0, c.version + 1);
      var d1 := d.(counters := d.counters[key := moved]);
      if key.scope !in d.positions then Ok(d1)
      else
        var p := d.positions[key.scope];
        if p.exposure < amount then Err(Conflict)
        else Ok(d1.(positions := d.positions[key.scope := Position(p.exposure - amount, p.version + 1)]))
  }

  /** A new order, with its reservation on the counter of its scope and day when a limit profile applies. */
  function AddOrder(d: Desk, scope: Scope, day: int, amount: nat, sameCurrency: bool, screeningPasses: bool,
                    profile: Option<Profile>): Result<Desk> {
    if amount == 0 then Err(Conflict)
    else if profile.None? then
      Ok(d.(orders := d.orders + [NewOrder(amount, sameCurrency, screeningPasses, scope, None)]))
    else
      var key := LimitKey(scope, day);
      var d1 :- Reserve(d, key, amount, profile.value);
      Ok(d1.(orders := d.orders + [NewOrder(amount, sameCurrency, screeningPasses, scope, Some(key))]))
  }

  predicate Completes(o: Order) {
    o.state == OperationallyClosed && o.closedWith == Some(Completed)
  }

  /** Writes an order row; the write that closes a limited order finalises its counter and its scope's position. */
  function Settle(d: Desk, k: nat, moved: Order): Result<Desk>
    requires k < |d.orders|
  {
    var o := d.orders[k];
    var d1 := d.(orders := d.orders[k := moved]);
    if Terminal(o.state) || !Terminal(moved.state) || o.counter.None? || o.counter.value !in d.counters then Ok(d1)
    else Finalize(d1, o.counter.value, o.amount, Completes(moved))
  }

  /** The guard of the branch in which the finalisation raises: the scope's position is smaller than the order. */
  predicate Overdrawn(d: Desk, o: Order) {
    o.counter.Some? && o.scope in d.positions && d.positions[o.scope].exposure < o.amount
  }

  /** What the limits know of an order never changes once it is created. */
  predicate SameTicket(o: Order, p: Order) {
    p.amount == o.amount && p.scope == o.scope && p.counter == o.counter
  }

  /** A write that keeps an ending as it is, or an open order open, leaves counters and positions alone. */
  lemma PlainWrite(d: Desk, k: nat, moved: Order)
    requires k < |d.orders| && (Terminal(d.orders[k].state) || !Terminal(moved.state))
    ensures Settle(d, k, moved) == Ok(d.(orders := d.orders[k := moved]))
  {
  }

  // ----- what counters and positions stand for -----

  function OpenOn(key: LimitKey): Order -> int {
    (o: Order) =>
      if o.counter == Some(key) && o.state !in {OperationallyClosed, OperationallyClosedUnsuccessful} then o.amount
        else 0
  }

  function CompletedOn(key: LimitKey): Order -> int {
    (o: Order) =>
      if o.counter == Some(key) && o.state == OperationallyClosed
        && o.closedWith == Some(Completed) then o.amount else 0
  }

  function OpenIn(scope: Scope): Order -> int {
    (o: Order) =>
      if o.counter.Some? && o.scope == scope && o.state !in {OperationallyClosed, OperationallyClosedUnsuccessful}
      then o.amount else 0
  }

  /** Every limited order points to a counter of its own scope. */
  predicate Bound(d: Desk) {
    forall i :: 0 <= i < |d.orders| ==>
                  var o := d.orders[i];
                  o.amount > 0 && (o.counter.Some? ==>
                                   o.counter.value in d.counters && o.counter.value.scope == o.scope)
  }

  ghost predicate CounterAgrees(d: Desk, key: LimitKey) {
    && CounterAt(d.counters, key).reserved == SumSeq(d.orders, OpenOn(key))
    && CounterAt(d.counters, key).consumed == SumSeq(d.orders, CompletedOn(key))
  }

  ghost predicate CountersAgree(d: Desk) {
    Bound(d) && forall key :: CounterAgrees(d, key)
  }

  /** A row rewritten in a way that is no event for the limits: an ending keeps its outcome, an open order stays
      open. */
  predicate Neutral(o: Order, p: Order) {
    && SameTicket(o, p)
    && Terminal(o.state) == Terminal(p.state)
    && (Terminal(o.state) ==> p.state == o.state && p.closedWith == o.closedWith)
  }

  /** What a write may do to a row: rewrite it neutrally, or close it. */
  predicate Writes(o: Order, p: Order) {
    Neutral(o, p) || (SameTicket(o, p) && !Terminal(o.state) && Terminal(p.state))
  }

  lemma WeightsOfNeutral(o: Order, p: Order, key: LimitKey)
    requires Neutral(o, p)
    ensures OpenOn(key)(p) == OpenOn(key)(o) && CompletedOn(key)(p) == CompletedOn(key)(o)
    ensures OpenIn(key.scope)(p) == OpenIn(key.scope)(o)
  {
  }

  lemma WeightsOfClosing(o: Order, p: Order, key: LimitKey)
    requires SameTicket(o, p) && !Terminal(o.state) && Terminal(p.state)
    ensures OpenOn(key)(p) == 0 && OpenOn(key)(o) == if o.counter == Some(key) then o.amount else 0
    ensures CompletedOn(key)(o) == 0
    ensures CompletedOn(key)(p) == if o.counter == Some(key) && Completes(p) then o.amount else 0
    ensures OpenIn(key.scope)(p) == 0
    ensures OpenIn(key.scope)(o) == if o.counter.Some? && o.scope == key.scope then o.amount else 0
  {
  }

  /** A write moves a counter by exactly what it changes in the row's weights. */
  lemma WriteMovesCounter(d: Desk, k: nat, p: Order, key: LimitKey)
    requires Bound(d) && k < |d.orders| && Writes(d.orders[k], p) && Settle(d, k, p).Ok?
    ensures var t := Settle(d, k, p).value;
            && t.orders == d.orders[k := p]
            && CounterAt(t.counters, key).reserved - CounterAt(d.counters, key).reserved
               == OpenOn(key)(p) - OpenOn(key)(d.orders[k])
            && CounterAt(t.counters, key).consumed - CounterAt(d.counters, key).consumed
               == CompletedOn(key)(p) - CompletedOn(key)(d.orders[k])
  {
    if Neutral(d.orders[k], p) {
      WeightsOfNeutral(d.orders[k], p, key);
      assert Settle(d, k, p) == Ok(d.(orders := d.orders[k := p]));
    } else {
      WeightsOfClosing(d.orders[k], p, key);
    }
  }

  lemma WriteKeepsCounter(d: Desk, k: nat, p: Order, key: LimitKey)
    requires Bound(d) && CounterAgrees(d, key) && k < |d.orders| && Writes(d.orders[k], p) && Settle(d, k, p).Ok?
    ensures CounterAgrees(Settle(d, k, p).value, key)
  {
    WriteMovesCounter(d, k, p, key);
    SumUpdate(d.orders, k, p, OpenOn(key));
    SumUpdate(d.orders, k, p, CompletedOn(key));
  }

  lemma WriteKeepsBound(d: Desk, k: nat, p: Order)
    requires Bound(d) && k < |d.orders| && SameTicket(d.orders[k], p) && Settle(d, k, p).Ok?
    ensures Bound(Settle(d, k, p).value)
  {
  }

  /** Every write keeps every counter equal to the sums over its orders. */
  lemma WriteKeepsCounters(d: Desk, k: nat, p: Order)
    requires CountersAgree(d) && k < |d.orders| && Writes(d.orders[k], p) && Settle(d, k, p).Ok?
    ensures CountersAgree(Settle(d, k, p).value)
  {
    WriteKeepsBound(d, k, p);
    forall key
      ensures CounterAgrees(Settle(d, k, p).value, key)
    {
      assert CounterAgrees(d, key);
      WriteKeepsCounter(d, k, p, key);
    }
  }

  lemma NewOrderWeights(o: Order, key: LimitKey)
    requires o.state == ControlChecks
    ensures OpenOn(key)(o) == (if o.counter == Some(key) then o.amount else 0) && CompletedOn(key)(o) == 0
    ensures OpenIn(key.scope)(o) == if o.counter.Some? && o.scope == key.scope then o.amount else 0
  {
  }

  /** A new order adds its row, and its amount to what its own counter has reserved. */
  lemma AdditionMovesCounter(d: Desk, scope: Scope, day: int, amount: nat, same: bool, passes: bool,
                             profile: Option<Profile>, key: LimitKey) returns (counter: Option<LimitKey>)
    requires AddOrder(d, scope, day, amount, same, passes, profile).Ok?
    ensures
      var t := AddOrder(d, scope, day, amount, same, passes, profile).value;
      && t.orders == d.orders + [NewOrder(amount, same, passes, scope, counter)]
      && CounterAt(t.counters, key).consumed == CounterAt(d.counters, key).consumed
      && CounterAt(t.counters, key).reserved
         == CounterAt(d.counters, key).reserved + if counter == Some(key) then amount else 0
  {
    counter := if profile.None? then None else Some(LimitKey(scope, day));
  }

  lemma AdditionKeepsCounter(d: Desk, scope: Scope, day: int, amount: nat, same: bool, passes: bool,
                             profile: Option<Profile>, key: LimitKey)
    requires CounterAgrees(d, key) && AddOrder(d, scope, day, amount, same, passes, profile).Ok?
    ensures CounterAgrees(AddOrder(d, scope, day, amount, same, passes, profile).value, key)
  {
    var counter := AdditionMovesCounter(d, scope, day, amount, same, passes, profile, key);
    var o := NewOrder(amount, same, passes, scope, counter);
    NewOrderWeights(o, key);
    SumAppend(d.orders, o, OpenOn(key));
    SumAppend(d.orders, o, CompletedOn(key));
  }

  /** So does every new order. */
  lemma AdditionKeepsCounters(d: Desk, scope: Scope, day: int, amount: nat, same: bool, passes: bool,
                              profile: Option<Profile>)
    requires CountersAgree(d) && AddOrder(d, scope, day, amount, same, passes, profile).Ok?
    ensures CountersAgree(AddOrder(d, scope, day, amount, same, passes, profile).value)
  {
    forall key
      ensures CounterAgrees(AddOrder(d, scope, day, amount, same, passes, profile).value, key)
    {
      assert CounterAgrees(d, key);
      AdditionKeepsCounter(d, scope, day, amount, same, passes, profile, key);
    }
  }

  /** The reserved amount of a counter covers each of its open orders. */
  lemma ReservedCoversOrder(d: Desk, k: nat)
    requires CountersAgree(d) && k < |d.orders| && d.orders[k].counter.Some? && !Terminal(d.orders[k].state)
    ensures d.counters[d.orders[k].counter.value].reserved >= d.orders[k].amount
  {
    var key := d.orders[k].counter.value;
    assert CounterAgrees(d, key);
    SumNonnegative(d.orders, OpenOn(key));
    assert OpenOn(key)(d.orders[k]) == d.orders[k].amount;
  }

  /** With counters that agree, closing an open order is refused exactly when its scope is overdrawn by it. */
  lemma ClosingRefusedExactlyWhen(d: Desk, k: nat, p: Order)
    requires CountersAgree(d) && k < |d.orders| && !Terminal(d.orders[k].state) && Terminal(p.state)
    ensures Settle(d, k, p).Err? <==> Overdrawn(d, d.orders[k])
  {
    if d.orders[k].counter.Some? {
      ReservedCoversOrder(d, k);
    }
  }

  // ----- exposure, when each scope sets its exposure limit always or never -----

  ghost predicate ExposureAgrees(d: Desk, guarded: iset<Scope>, scope: Scope) {
    && (scope in d.positions ==> scope in guarded)
    && (scope in guarded ==> PositionAt(d.positions, scope).exposure == SumSeq(d.orders, OpenIn(scope)))
  }

  /** A limited order of a guarded scope has a position to be finalised on. */
  predicate PositionsKnown(d: Desk, guarded: iset<Scope>) {
    forall i :: 0 <= i < |d.orders| ==>
                  (d.orders[i].counter.Some? && d.orders[i].scope in guarded ==> d.orders[i].scope in d.positions)
  }

  ghost predicate ExposuresAgree(d: Desk, guarded: iset<Scope>) {
    PositionsKnown(d, guarded) && forall scope :: ExposureAgrees(d, guarded, scope)
  }

  predicate UniformProfile(profile: Option<Profile>, scope: Scope, guarded: iset<Scope>) {
    profile.Some? ==> (profile.value.exposure.Some? <==> scope in guarded)
  }

  lemma WriteMovesPosition(d: Desk, k: nat, p: Order, guarded: iset<Scope>, scope: Scope)
    requires Bound(d) && PositionsKnown(d, guarded) && ExposureAgrees(d, guarded, scope)
    requires k < |d.orders| && Writes(d.orders[k], p) && Settle(d, k, p).Ok?
    ensures var t := Settle(d, k, p).value;
            && t.orders == d.orders[k := p] && t.positions.Keys == d.positions.Keys
            && (scope in guarded ==>
                  PositionAt(t.positions, scope).exposure - PositionAt(d.positions, scope).exposure
                  == OpenIn(scope)(p) - OpenIn(scope)(d.orders[k]))
  {
    if Neutral(d.orders[k], p) {
      WeightsOfNeutral(d.orders[k], p, LimitKey(scope, 0));
      assert Settle(d, k, p) == Ok(d.(orders := d.orders[k := p]));
    } else {
      WeightsOfClosing(d.orders[k], p, LimitKey(scope, 0));
    }
  }

  lemma WriteKeepsExposures(d: Desk, k: nat, p: Order, guarded: iset<Scope>)
    requires Bound(d) && ExposuresAgree(d, guarded) && k < |d.orders| && Writes(d.orders[k], p) && Settle(d, k, p).Ok?
    ensures ExposuresAgree(Settle(d, k, p).value, guarded)
  {
    forall scope
      ensures ExposureAgrees(Settle(d, k, p).value, guarded, scope)
    {
      assert ExposureAgrees(d, guarded, scope);
      WriteMovesPosition(d, k, p, guarded, scope);
      SumUpdate(d.orders, k, p, OpenIn(scope));
    }
    WriteMovesPosition(d, k, p, guarded, "");
  }

  lemma AdditionKeepsExposure(d: Desk, scope: Scope, day: int, amount: nat, same: bool, passes: bool,
                              profile: Option<Profile>, guarded: iset<Scope>, other: Scope)
    requires UniformProfile(profile, scope, guarded) && ExposureAgrees(d, guarded, other)
    requires AddOrder(d, scope, day, amount, same, passes, profile).Ok?
    ensures ExposureAgrees(AddOrder(d, scope, day, amount, same, passes, profile).value, guarded, other)
  {
    var t := AddOrder(d, scope, day, amount, same, passes, profile).value;
    var o := t.orders[|d.orders|];
    assert t.orders == d.orders + [o];
    NewOrderWeights(o, LimitKey(other, 0));
    SumAppend(d.orders, o, OpenIn(other));
  }

  lemma AdditionKeepsPositions(d: Desk, scope: Scope, day: int, amount: nat, same: bool, passes: bool,
                               profile: Option<Profile>, guarded: iset<Scope>)
    requires UniformProfile(profile, scope, guarded) && PositionsKnown(d, guarded)
    requires AddOrder(d, scope, day, amount, same, passes, profile).Ok?
    ensures PositionsKnown(AddOrder(d, scope, day, amount, same, passes, profile).value, guarded)
  {
  }

  lemma AdditionKeepsExposures(d: Desk, scope: Scope, day: int, amount: nat, same: bool, passes: bool,
                               profile: Option<Profile>, guarded: iset<Scope>)
    requires UniformProfile(profile, scope, guarded) && ExposuresAgree(d, guarded)
    requires AddOrder(d, scope, day, amount, same, passes, profile).Ok?
    ensures ExposuresAgree(AddOrder(d, scope, day, amount, same, passes, profile).value, guarded)
  {
    AdditionKeepsPositions(d, scope, day, amount, same, passes, profile, guarded);
    forall other
      ensures ExposureAgrees(AddOrder(d, scope, day, amount, same, passes, profile).value, guarded, other)
    {
      assert ExposureAgrees(d, guarded, other);
      AdditionKeepsExposure(d, scope, day, amount, same, passes, profile, guarded, other);
    }
  }

  /** Then no open order overdraws its scope. */
  lemma UniformScopesAreNotOverdrawn(d: Desk, guarded: iset<Scope>, k: nat)
    requires ExposuresAgree(d, guarded) && k < |d.orders| && !Terminal(d.orders[k].state)
    ensures !Overdrawn(d, d.orders[k])
  {
    var o := d.orders[k];
    if o.counter.Some? && o.scope in d.positions {
      assert ExposureAgrees(d, guarded, o.scope);
      SumNonnegative(d.orders, OpenIn(o.scope));
      assert OpenIn(o.scope)(o) == o.amount;
    }
  }
}

/** The order table with its limit tables, statement by statement, proved equal to the limit state machine. */
module OrderStore {
  import opened Results
  import opened Orders
  import opened LimitDesk
  import L = Limits

  class OrderService {
    var counters: map<LimitKey, Counter>
    var positions: map<Scope, Position>
    var orders: seq<Order>

    constructor ()
      ensures View() == EMPTY
    {
      counters, positions, orders := map[], map[], [];
    }

    function View(): Desk
      reads this
    {
      Desk(counters, positions, orders)
    }

    method Restore(saved: Desk)
      modifies this
      ensures View() == saved
    {
      counters, positions, orders := saved.counters, saved.positions, saved.orders;
    }

    /** Runs inside the caller's transaction: a refusal may leave a new counter or position row behind. */
    method Reserve(key: LimitKey, amount: int, profile: Profile) returns (r: Result<()>)
      modifies this`counters, this`positions
      ensures r.Ok? <==> LimitDesk.Reserve(old(View()), key, amount, profile).Ok?
      ensures r.Ok? ==> View() == LimitDesk.Reserve(old(View()), key, amount, profile).value
    {
      if amount <= 0 {
        return Err(Conflict);
      }
      if key !in counters {
        counters := counters[key := Counter(0, 0, 1)];
      }
      var projected := counters[key].reserved + counters[key].consumed + amount;
      if profile.daily.Some? && projected > profile.daily.value {
        return Err(Conflict);
      }
      if profile.exposure.Some? {
        var _ :- Expose(key.scope, amount, profile.exposure.value);
      }
      var c := counters[key];
      counters := counters[key := Counter(c.reserved + amount, c.consumed, c.version + 1)];
      assert counters == old(counters)[key := counters[key]];
      return Ok(());
    }

    method Expose(scope: Scope, amount: int, limit: int) returns (r: Result<()>)
      modifies this`positions
      ensures var p := PositionAt(old(positions), scope);
              && (r.Ok? <==> p.exposure + amount <= limit)
              && (r.Ok? ==> positions == old(positions)[scope := Position(p.exposure + amount, p.version + 1)])
    {
      if scope !in positions {
        positions := positions[scope := Position(0, 1)];
      }
      var p := positions[scope];
      if p.exposure + amount > limit {
        return Err(Conflict);
      }
      positions := positions[scope := Position(p.exposure + amount, p.version + 1)];
      return Ok(());
    }

    /** A refusal on the position comes after the counter has changed. */
    method Finalize(key: LimitKey, amount: int, consumed: bool) returns (r: Result<()>)
      requires key in counters
      modifies this`counters, this`positions
      ensures r.Ok? <==> LimitDesk.Finalize(old(View()), key, amount, consumed).Ok?
      ensures r.Ok? ==> View() == LimitDesk.Finalize(old(View()), key, amount, consumed).value
    {
      var c := counters[key];
      if amount <= 0 || c.reserved < amount {
        return Err(Conflict);
      }
      c := c.(reserved := c.reserved - amount);
      if consumed {
        c := c.(consumed := c.consumed + amount);
      }
      counters := counters[key := c.(version := c.version + 1)];
      if key.scope in positions {
        var p := positions[key.scope];
        if p.exposure < amount {
          return Err(Conflict);
        }
        positions := positions[key.scope := Position(p.exposure - amount, p.version + 1)];
      }
      return Ok(());
    }

    /** Inserts the order, then reserves on its counter; a refusal comes after the insertion. */
    method AddOrder(scope: Scope, day: int, amount: nat, sameCurrency: bool, screeningPasses: bool,
                    profile: Option<Profile>) returns (r: Result<()>)
      modifies this
      ensures
        var t := LimitDesk.AddOrder(old(View()), scope, day, amount, sameCurrency, screeningPasses, profile);
        (r.Ok? <==> t.Ok?) && (r.Ok? ==> View() == t.value)
    {
      if amount == 0 {
        return Err(Conflict);
      }
      var k := |orders|;
      ghost var d := View();
      orders := orders + [NewOrder(amount, sameCurrency, screeningPasses, scope, None)];
      if profile.Some? {
        var key := LimitKey(scope, day);
        ReserveIgnoresOrders(d, orders, key, amount, profile.value);
        var _ :- Reserve(key, amount, profile.value);
        orders := orders[k := orders[k].(counter := Some(key))];
        assert orders == d.orders + [orders[k]];
      }
      return Ok(());
    }

    /** The guards of the row update and the row that results. */
    method CompareAndSet(order: Order, target: OrderState, outcome: Option<Outcome>, expected: Option<nat>)
      returns (r: Result<Order>)
      ensures r == Orders.SetOrderState(order, target, outcome, L.Expected(order, expected))
    {
      if Terminal(order.state) {
        return if order.state == target then Ok(order) else Err(Conflict);
      }
      if target != order.state && !MayBecome(order.state, target) {
        return Err(Conflict);
      }
      var version := if expected.Some? then expected.value else order.version;
      if order.version != version {
        return Err(Conflict);
      }
      return Ok(order.(state := target,
                       version := version + 1,
                       outcome := if outcome.Some? then outcome else order.outcome,
                       closedWith := if Terminal(target) then outcome else order.closedWith));
    }

    /** Writes the row, and finalises the limits if the write closes the order. */
    method Write(k: nat, moved: Order) returns (r: Result<()>)
      requires k < |orders|
      modifies this
      ensures r.Ok? <==> Settle(old(View()), k, moved).Ok?
      ensures r.Ok? ==> View() == Settle(old(View()), k, moved).value
    {
      var order := orders[k];
      orders := orders[k := moved];
      if !Terminal(order.state) && Terminal(moved.state) && order.counter.Some? && order.counter.value in counters {
        var consumed := moved.state == OperationallyClosed && moved.closedWith == Some(Completed);
        r := Finalize(order.counter.value, order.amount, consumed);
        return;
      }
      return Ok(());
    }

    /** The change of state inside the caller's transaction. */
    method SetOrderState(k: nat, target: OrderState, outcome: Option<Outcome>, expected: Option<nat>)
      returns (r: Result<()>)
      modifies this
      ensures r.Ok? <==> L.SetState(old(View()), k, target, outcome, expected).Ok?
      ensures r.Ok? ==> View() == L.SetState(old(View()), k, target, outcome, expected).value
    {
      if k >= |orders| {
        return Err(NoRow);
      }
      var moved :- CompareAndSet(orders[k], target, outcome, expected);
      r := Write(k, moved);
    }

    /** A payment as one request: committed, or rolled back. */
    method CreatePayment(scope: Scope, day: int, amount: nat, sameCurrency: bool, screeningPasses: bool,
                         profile: Option<Profile>) returns (r: Result<()>)
      modifies this
      ensures View() == L.Apply(old(View()), L.Create(scope, day, amount, sameCurrency, screeningPasses, profile))
      ensures r.Ok? <==> L.Attempt(old(View()),
                                   L.Create(scope, day, amount, sameCurrency, screeningPasses, profile)).Ok?
    {
      var saved := View();
      r := AddOrder(scope, day, amount, sameCurrency, screeningPasses, profile);
      if r.Err? {
        Restore(saved);
      }
    }

    /** A change of state as one request: committed, or rolled back. */
    method ChangeState(k: nat, target: OrderState, outcome: Option<Outcome>, expected: Option<nat>)
      returns (r: Result<()>)
      modifies this
      ensures View() == L.Apply(old(View()), L.Move(k, target, outcome, expected))
      ensures r.Ok? <==> L.Attempt(old(View()), L.Move(k, target, outcome, expected)).Ok?
    {
      var saved := View();
      r := SetOrderState(k, target, outcome, expected);
      if r.Err? {
        Restore(saved);
      }
    }
  }
}

/** The requests that start, trade, cancel and replay: statement by statement, proved equal to the steps of the saga. */
module Api {
  import opened Results
  import opened Orders
  import opened LimitDesk
  import opened Outbox
  import opened Handlers
  import opened Saga
  import opened Worker

  class PaymentApi {
    const db: Database

    constructor (db: Database)
      ensures this.db == db
    {
      this.db := db;
    }

    method RollBack(saved: Desk, events: seq<Event>)
      modifies db.tables, db.outbox
      ensures db.tables.View() == saved && db.outbox.events == events
    {
      db.tables.Restore(saved);
      db.outbox.events := events;
    }

    /** An order, its reservation on the limits, its first facts, and the event that starts its processing. */
    method CreatePayment(p: Payment) returns (r: Result<nat>)
      modifies db.tables, db.outbox
      ensures db.View() == Apply(old(db.View()), Create(p))
      ensures r.Ok? <==> CreateOrder(old(db.View()), p).Ok?
      ensures r.Ok? ==> r.value == |old(db.tables.orders)|
    {
      var saved, events, k := db.tables.View(), db.outbox.events, |db.tables.orders|;
      var added := db.tables.AddOrder(p.scope, p.day, p.amount, p.sameCurrency, p.screeningPasses, p.profile);
      if added.Err? {
        RollBack(saved, events);
        return Err(added.reason);
      }
      var queued := db.Enqueue(PaymentCreated, OrderKey(k), 0);
      if queued.Err? {
        RollBack(saved, events);
        return Err(queued.reason);
      }
      return Ok(k);
    }

    method CheckQuote(quote: nat) returns (taken: bool)
      ensures taken == QuoteTaken(db.tables.orders, quote)
    {
      var orders := db.tables.orders;
      for j := 0 to |orders|
        invariant !QuoteTaken(orders[..j], quote)
      {
        for x := 0 to |orders[j].intents|
          invariant forall y :: 0 <= y < x ==> orders[j].intents[y].quote != quote
        {
          if orders[j].intents[x].quote == quote {
            return true;
          }
        }
        assert orders[..j + 1] == orders[..j] + [orders[j]];
      }
      assert orders[..|orders|] == orders;
      return false;
    }

    /** A trade intent, its two reservations with an event each, and a fact; the order's state is not looked at. */
    method AcceptQuote(k: nat, quote: nat, sold: nat, bought: nat, usable: bool) returns (r: Result<()>)
      modifies db.tables, db.outbox
      ensures db.View() == Apply(old(db.View()), Step.AcceptQuote(k, quote, sold, bought, usable))
      ensures r.Ok? <==> AcceptFxQuote(old(db.View()), k, quote, sold, bought, usable).Ok?
    {
      if k >= |db.tables.orders| || !usable || db.tables.orders[k].sameCurrency {
        return Err(Conflict);
      }
      var saved, events := db.tables.View(), db.outbox.events;
      var taken := CheckQuote(quote);
      if taken {
        return Err(IntegrityError);
      }
      r := AddIntent(k, quote, sold, bought);
      if r.Err? {
        RollBack(saved, events);
      }
    }

    method AddIntent(k: nat, quote: nat, sold: nat, bought: nat) returns (r: Result<()>)
      requires k < |db.tables.orders|
      modifies db.tables`orders, db.outbox
      ensures
        var o := old(db.tables.orders[k]);
        var e := EnqueueAll(old(db.outbox.events), IntentJobs(o), k, db.now);
        && (r.Ok? <==> e.Ok?)
        && (r.Ok? ==> db.tables.View() == WithRow(old(db.tables.View()), k, WithIntent(o, quote, sold, bought))
                      && db.outbox.events == e.value)
    {
      var o := db.tables.orders[k];
      var x, n := |o.intents|, |o.reservations|;
      IntentEvents(db.outbox.events, o, k, db.now);
      var o1 := o.(intents := o.intents + [Intent(quote, sold, bought, Preparing)]);
      db.Put(k, o1.(reservations := o.reservations + [NewReservation(o.amount, Some(x))]));
      var _ :- db.Enqueue(FundingReserve, ReservationKey(k, n), n);
      var o2 := db.tables.orders[k];
      db.Put(k, o2.(reservations := o2.reservations + [NewReservation(bought, Some(x))]));
      assert db.tables.orders[k].reservations
             == o.reservations + [NewReservation(o.amount, Some(x)), NewReservation(bought, Some(x))];
      var _ :- db.Enqueue(FundingReserve, ReservationKey(k, n + 1), n + 1);
      db.Note(k, Fx, Numbered("fxi_", x));
      return Ok(());
    }

    /** The event of a second request for the same order meets the unique key, and the request is rolled back. */
    method RequestCancellation(k: nat) returns (r: Result<()>)
      modifies db.tables, db.outbox
      ensures db.View() == Apply(old(db.View()), Step.RequestCancellation(k))
      ensures r.Ok? <==> RequestCancel(old(db.View()), k).Ok?
    {
      if k >= |db.tables.orders| || Terminal(db.tables.orders[k].state) {
        return Err(Conflict);
      }
      var saved, events := db.tables.View(), db.outbox.events;
      var o := db.tables.orders[k];
      var item := |o.cancellations|;
      db.Put(k, o.(cancellations := o.cancellations + [CancelRequested]));
      db.Put(k, db.tables.orders[k].(facts := o.facts + [Fact(Cancellation, Numbered("can_", item), 1)]));
      assert db.tables.orders == saved.orders[k := Requested(o)];
      r := db.Enqueue(PaymentCancellation, OrderKey(k), item);
      if r.Err? {
        RollBack(saved, events);
      }
    }

    method CreateReplay(id: nat, maker: nat) returns (r: Result<()>)
      modifies db`replays
      ensures db.View() == Apply(old(db.View()), Step.CreateReplay(id, maker))
      ensures r.Ok? <==> RequestReplay(old(db.View()), id, maker).Ok?
    {
      if id >= |db.outbox.events| || db.outbox.events[id].status != DeadLetter {
        return Err(NoRow);
      }
      if id in db.replays {
        return Err(Conflict);
      }
      db.replays := db.replays[id := Replay(maker, false)];
      return Ok(());
    }

    /** The approval is written before the event is found changed; then it is rolled back. */
    method ApproveReplay(id: nat, checker: nat) returns (r: Result<()>)
      modifies db`replays, db.outbox
      ensures db.View() == Apply(old(db.View()), Step.ApproveReplay(id, checker))
      ensures r.Ok? <==> Approve(old(db.View()), id, checker).Ok?
    {
      if id !in db.replays || db.replays[id].approved {
        return Err(NoRow);
      }
      if db.replays[id].maker == checker {
        return Err(Conflict);
      }
      var replays0 := db.replays;
      db.replays := db.replays[id := db.replays[id].(approved := true)];
      if id >= |db.outbox.events| || db.outbox.events[id].status != DeadLetter {
        db.replays := replays0;
        return Err(Conflict);
      }
      var e := db.outbox.events[id].(status := Pending);
      e := e.(availableAt := db.now);
      e := e.(leaseOwner := None);
      db.outbox.events := db.outbox.events[id := e.(leaseUntil := None)];
      return Ok(());
    }
  }

  /** The events of an accepted quote, one reservation after the other. */
  lemma IntentEvents(events: seq<Event>, o: Order, k: nat, now: int)
    ensures
      var n := |o.reservations|;
      var all := EnqueueAll(events, IntentJobs(o), k, now);
      var first := EnqueueEvent(events, FundingReserve, ReservationKey(k, n), n, now);
      && (all.Ok? ==> first.Ok?)
      && (first.Ok? ==> all == EnqueueEvent(first.value, FundingReserve, ReservationKey(k, n + 1), n + 1, now))
  {
    var n, jobs := |o.reservations|, IntentJobs(o);
    assert jobs[1..] == [Job(FundingReserve, n + 1)];
    var first := EnqueueEvent(events, FundingReserve, ReservationKey(k, n), n, now);
    if first.Ok? {
      EnqueueOne(first.value, Job(FundingReserve, n + 1), k, now);
    }
  }
}

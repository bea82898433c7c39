/** What each topic's handler does to an order, as a function of the connector answers. */
module Handlers {
  import opened Results
  import opened Orders
  import opened Completion
  import opened Outbox

  datatype Delivery = Delivered | NetworkAcked | Undelivered
  datatype CancelAnswer = CancelGranted | CancelDenied | CancelUndecided | CancelOther

  /** The answers of the authorization service and of the external connectors; a close asks about each reservation. */
  datatype Answers = Answers(
    authorizes: bool,
    reserve: ReservationState,
    consume: nat -> ReservationState,
    delivery: Delivery,
    settlement: LegState,
    trade: IntentState,
    cancel: CancelAnswer
  )

  /** An event to enqueue for the order: its topic and the row it is about. */
  datatype Job = Job(topic: Topic, item: nat)

  /** A handler's outcome: the order's new rows and the events it enqueues. */
  datatype Effect = Effect(order: Order, enqueued: seq<Job>)

  function Last(decisions: seq<Decision>): Option<Decision> {
    if decisions == [] then None else Some(decisions[|decisions| - 1])
  }

  // ----- controls -----

  predicate Authorized(o: Order, sandbox: bool, a: Answers) {
    sandbox || (o.authorizations != [] && (Last(o.authorizations) == Some(Passed) || a.authorizes))
  }

  function NoteAuthorization(o: Order, passed: bool): Order {
    if o.authorizations == [] || Last(o.authorizations) == Some(Passed) then o
    else
      var decision := if passed then Passed else Refused;
      AppendFact(o, Authorization, "authz_").(authorizations := o.authorizations + [decision])
  }

  function NoteCompliance(o: Order): Order {
    if o.compliances == [] || Last(o.compliances) == Some(Passed) then o
    else
      var decision := if o.screeningPasses then Passed else Refused;
      AppendFact(o, Compliance, "comp_").(compliances := o.compliances + [decision])
  }

  predicate ScreenedOut(o: Order) {
    o.compliances != [] && Last(o.compliances) != Some(Passed) && !o.screeningPasses
  }

  function ScreenOut(o: Order): Result<Effect> {
    var o1 :- Transition(o, ComplianceRejected, Some(Rejected));
    var o2 :- Transition(o1, OperationallyClosedUnsuccessful, Some(Rejected));
    Ok(Effect(o2, []))
  }

  function RequestFunds(o: Order): Result<Effect> {
    var o1 :- Transition(o, ReservationPending, None);
    if o1.reservations != [] then Ok(Effect(o1, []))
    else Ok(Effect(o1.(reservations := [NewReservation(o1.amount, None)]), [Job(FundingReserve, 0)]))
  }

  /** An order whose quote is already being accepted is left to its trade; other cross-currency orders wait for one. */
  function AfterScreening(o: Order): Result<Effect> {
    if o.intents != [] then Ok(Effect(o, []))
    else if o.sameCurrency then RequestFunds(o)
    else
      var o1 :- Transition(o, FxAcceptancePending, None);
      Ok(Effect(o1, []))
  }

  function Suspend(o: Order): Result<Effect> {
    var o1 :- Transition(o, Suspended, Some(Rejected));
    Ok(Effect(o1, []))
  }

  function Screen(o: Order): Result<Effect> {
    if ScreenedOut(o) then ScreenOut(NoteCompliance(o)) else AfterScreening(NoteCompliance(o))
  }

  function PaymentCreatedHandler(o: Order, sandbox: bool, a: Answers): Result<Effect> {
    var authorized := Authorized(o, sandbox, a);
    var o1 := NoteAuthorization(o, authorized);
    if authorized then Screen(o1) else Suspend(o1)
  }

  // ----- funding -----

  /** All reservations made for the same purpose are RESERVED. */
  predicate AllReserved(o: Order, intent: Option<nat>) {
    forall i :: 0 <= i < |o.reservations| && o.reservations[i].intent == intent ==> o.reservations[i].state == Reserved
  }

  function TryReserve(o: Order, item: nat, a: Answers): Order
    requires item < |o.reservations|
  {
    var moved := o.(reservations := o.reservations[item := o.reservations[item].Move(a.reserve)]);
    AppendFact(moved, Funding, Numbered("res_", item))
  }

  /** What follows when the reservations of one purpose are complete: the trade's acceptance, or the message.
      `messageQueued`: a message event of the order is pending, processing or published. */
  function Proceed(o: Order, intent: Option<nat>, messageQueued: bool): Result<Effect> {
    if intent.Some? && intent.value < |o.intents| then
      if o.intents[intent.value].state != Preparing then Ok(Effect(o, []))
      else
        var ready := o.intents[intent.value].(state := ReadyToAccept);
        var o1 :- Transition(o.(intents := o.intents[intent.value := ready]), FxAcceptancePending, None);
        Ok(Effect(o1, [Job(FxAccept, intent.value)]))
    else Ok(Effect(o, if messageQueued then [] else [Job(PaymentMessage, 0)]))
  }

  function FundingHandler(o: Order, item: nat, a: Answers, messageQueued: bool): Result<Effect> {
    if item >= |o.reservations| then Err(NoRow)
    else if o.reservations[item].state == Reserved then Ok(Effect(o, []))
    else
      var o1 := TryReserve(o, item, a);
      var intent := o.reservations[item].intent;
      if AllReserved(o1, intent) then Proceed(o1, intent, messageQueued) else Ok(Effect(o1, []))
  }

  // ----- the trade of a cross-currency order -----

  /** The two legs of the trade, each with the event that submits it; an order has each leg once. */
  function Legs(o: Order, intent: Intent): Result<Effect> {
    if o.fxLegs != [] then Err(IntegrityError)
    else
      var legs := [Leg(intent.sold, LegPending), Leg(intent.bought, LegPending)];
      Ok(Effect(o.(fxLegs := legs), [Job(SettlementSubmit, 0), Job(SettlementSubmit, 1)]))
  }

  /** Acceptance of the quote: the value leg takes the bought amount, and the two legs of the trade are added, once. */
  function TradeHandler(o: Order, x: nat, a: Answers): Result<Effect> {
    if x >= |o.intents| then Err(NoRow)
    else
      var intent := o.intents[x];
      if intent.state == TradeAccepted then Ok(Effect(o, []))
      else
        var o1 :- Transition(o.(intents := o.intents[x := intent.(state := a.trade)]), FxAccepted, None);
        var o2 := AppendFact(o1, Fx, Numbered("fxi_", x)).(leg := o.leg.(amount := intent.bought));
        Legs(o2, intent)
  }

  function SubmitFxLeg(o: Order, i: nat, a: Answers): Order
    requires i < |o.fxLegs|
  {
    var submitted := o.(fxLegs := o.fxLegs[i := o.fxLegs[i].(state := a.settlement)]);
    AppendFact(submitted, Settlement, if i < 2 then FX_ROLES[i] else "")
  }

  predicate FxLegsFinal(o: Order) {
    forall i :: 0 <= i < |o.fxLegs| ==> o.fxLegs[i].state == LegFinal
  }

  function SettlementHandler(o: Order, i: nat, a: Answers, messageQueued: bool): Result<Effect> {
    if i >= |o.fxLegs| then Err(NoRow)
    else if o.fxLegs[i].state == LegFinal then Ok(Effect(o, []))
    else
      var o1 := SubmitFxLeg(o, i, a);
      Ok(Effect(o1, if FxLegsFinal(o1) && !messageQueued then [Job(PaymentMessage, 0)] else []))
  }

  // ----- message and value -----

  function MessageHandler(o: Order, a: Answers, valueQueued: bool): Result<Effect> {
    var o1 := AppendFact(o, Message, "payment-message");
    if a.delivery == Undelivered then
      var o2 :- Transition(o1, Suspended, None);
      Ok(Effect(o2, []))
    else
      var o2 :- Transition(o1, MessageDelivered, None);
      Ok(Effect(o2, if valueQueued then [] else [Job(PaymentValue, 0)]))
  }

  /** Every RESERVED reservation from `i` on moves to its `next` state, with a funding fact each when `noted`. */
  function MoveReserved(o: Order, i: nat, next: nat -> ReservationState, noted: bool): Order
    requires i <= |o.reservations|
    decreases |o.reservations| - i
  {
    if i == |o.reservations| then o
    else if o.reservations[i].state != Reserved then MoveReserved(o, i + 1, next, noted)
    else
      var moved := o.(reservations := o.reservations[i := o.reservations[i].Move(next(i))]);
      MoveReserved(if noted then AppendFact(moved, Funding, Numbered("res_", i)) else moved, i + 1, next, noted)
  }

  function CreditBeneficiary(o: Order): Order {
    AppendFact(if o.credits == [] then o.(credits := [Credit(Credited, true)]) else o, Beneficiary, "credit_")
  }

  function Reconcile(o: Order): Order {
    AppendFact(o.(reconciliations := o.reconciliations + [Matched]), Reconciliation, "recon_")
  }

  /** Consume the reservations, credit the beneficiary, complete towards the customer and reconcile. */
  function CompleteCustomer(o: Order, a: Answers): Result<Order> {
    var o1 := CreditBeneficiary(MoveReserved(o, 0, a.consume, true));
    var o2 :- Transition(o1, CustomerCompleted, Some(Completed));
    Ok(Reconcile(o2))
  }

  function CloseOperationally(o: Order): Result<Order> {
    var _ :- Need(SingleCredit(o), ManyRows);
    var _ :- Need(Allows(o, ProfileOf(o)), Conflict);
    Transition(o, OperationallyClosed, Some(Completed))
  }

  function CompletePayment(o: Order, a: Answers): Result<Order> {
    var o1 :- CompleteCustomer(o, a);
    CloseOperationally(o1)
  }

  function SubmitValue(o: Order, a: Answers): Order {
    AppendFact(o.(leg := o.leg.(state := a.settlement)), Settlement, "PAYMENT_VALUE")
  }

  function FinishPayment(o: Order, a: Answers): Result<Order> {
    var o1 :- Transition(o, ValueSettlement, None);
    CompletePayment(o1, a)
  }

  function ValueHandler(o: Order, a: Answers): Result<Effect> {
    if o.leg.state == LegFinal then Ok(Effect(o, []))
    else if a.settlement != LegFinal then Ok(Effect(SubmitValue(o, a), []))
    else
      var o1 :- FinishPayment(SubmitValue(o, a), a);
      Ok(Effect(o1, []))
  }

  // ----- cancellation -----

  function MoveCancellation(o: Order, item: nat, next: CancelState): Result<Order>
    requires item < |o.cancellations|
  {
    if next != o.cancellations[item] && !CancelMayBecome(o.cancellations[item], next) then Err(Conflict)
    else Ok(o.(cancellations := o.cancellations[item := next]))
  }

  function ToReleased(): nat -> ReservationState {
    (_: nat) => Released
  }

  predicate Acceptable(s: CancelState) {
    s == CancelRequested || s == CancelValidating || s == CancelSent
  }

  function AcceptCancellation(o: Order, item: nat): Result<Order>
    requires item < |o.cancellations|
  {
    if !Acceptable(o.cancellations[item]) then Err(Conflict)
    else
      var o1 := o.(cancellations := o.cancellations[item := CancelSent]);
      var o2 :- MoveCancellation(o1, item, CancelAccepted);
      var o3 := MoveReserved(o2, 0, ToReleased(), false);
      var o4 :- Transition(o3, ExecutionCancelled, Some(Cancelled));
      Transition(o4, OperationallyClosedUnsuccessful, Some(Cancelled))
  }

  function AnswerCancellation(o: Order, item: nat, a: Answers): Result<Order>
    requires item < |o.cancellations|
  {
    if a.cancel == CancelGranted && o.leg.state != LegFinal then AcceptCancellation(o, item)
    else if a.cancel == CancelDenied then MoveCancellation(o, item, CancelRejected)
    else if a.cancel == CancelUndecided then MoveCancellation(o, item, CancelUnknown)
    else Ok(o)
  }

  function CancellationHandler(o: Order, item: nat, a: Answers): Result<Effect> {
    if item >= |o.cancellations| then Err(NoRow)
    else
      var o1 :- AnswerCancellation(AppendFact(o, Cancellation, Numbered("can_", item)), item, a);
      Ok(Effect(o1, []))
  }
}

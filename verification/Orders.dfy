/** The payment order: its rows, its state machine and its append-only facts. */
module Orders {
  import opened Results

  datatype OrderState =
    | ControlChecks
    | ReservationPending
    | FxAcceptancePending
    | FxAccepted
    | MessageDelivered
    | ValueSettlement
    | CustomerCompleted
    | ComplianceRejected
    | ExecutionCancelled
    | Suspended
    | OperationallyClosed
    | OperationallyClosedUnsuccessful

  datatype Outcome = Completed | Rejected | Cancelled

  predicate Terminal(s: OrderState) {
    s == OperationallyClosed || s == OperationallyClosedUnsuccessful
  }

  /** The allowed moves between different states. */
  predicate MayBecome(s: OrderState, t: OrderState) {
    match s
    case ControlChecks =>
      t.ReservationPending? || t.FxAcceptancePending? || t.ComplianceRejected? || t.Suspended? || t.ExecutionCancelled?
    case ReservationPending => t.MessageDelivered? || t.Suspended? || t.ExecutionCancelled?
    case FxAcceptancePending => t.FxAccepted? || t.Suspended? || t.ExecutionCancelled?
    case FxAccepted => t.MessageDelivered? || t.Suspended? || t.ExecutionCancelled?
    case MessageDelivered => t.ValueSettlement? || t.Suspended? || t.ExecutionCancelled?
    case ValueSettlement => t.CustomerCompleted? || t.Suspended? || t.ExecutionCancelled?
    case CustomerCompleted => t.OperationallyClosed?
    case ComplianceRejected => t.OperationallyClosedUnsuccessful?
    case ExecutionCancelled => t.OperationallyClosedUnsuccessful?
    case Suspended =>
      t.ReservationPending? || t.FxAcceptancePending? || t.MessageDelivered? || t.ValueSettlement?
      || t.OperationallyClosedUnsuccessful? || t.ExecutionCancelled?
    case OperationallyClosed => false
    case OperationallyClosedUnsuccessful => false
  }

  /** The same table, by the state an order comes from: every state is reached in the way the lifecycle draws it. */
  lemma Predecessors(s: OrderState)
    ensures !MayBecome(s, ControlChecks)
    ensures MayBecome(s, ReservationPending) <==> s in {ControlChecks, Suspended}
    ensures MayBecome(s, FxAcceptancePending) <==> s in {ControlChecks, Suspended}
    ensures MayBecome(s, FxAccepted) <==> s == FxAcceptancePending
    ensures MayBecome(s, MessageDelivered) <==> s in {ReservationPending, FxAccepted, Suspended}
    ensures MayBecome(s, ValueSettlement) <==> s in {MessageDelivered, Suspended}
    ensures MayBecome(s, CustomerCompleted) <==> s == ValueSettlement
    ensures MayBecome(s, ComplianceRejected) <==> s == ControlChecks
    ensures MayBecome(s, ExecutionCancelled) <==>
            s in {ControlChecks, ReservationPending, FxAcceptancePending, FxAccepted, MessageDelivered, ValueSettlement,
                  Suspended}
    ensures MayBecome(s, Suspended) <==>
            s in {ControlChecks, ReservationPending, FxAcceptancePending, FxAccepted, MessageDelivered, ValueSettlement}
    ensures MayBecome(s, OperationallyClosed) <==> s == CustomerCompleted
    ensures MayBecome(s, OperationallyClosedUnsuccessful) <==> s in {ComplianceRejected, ExecutionCancelled, Suspended}
  {
  }

  datatype Decision = Undecided | Passed | Refused

  datatype FactKind =
    | Message | Authorization | Compliance | Funding | Fx | Settlement | Beneficiary | Reconciliation | Cancellation

  /** One immutable fact; facts of one kind and reference are numbered from 1. */
  datatype Fact = Fact(kind: FactKind, reference: string, sequence: nat)

  datatype ReservationState =
    | ReservationRequested | Reserved | Released | Consumed
    | ReservationFailed | ReservationExpired | ReservationUnknown

  /** A funding reservation; `intent` is the FX trade intent it belongs to, none for the payment's own.
      `trail` is the history of its `state` column. */
  datatype Reservation = Reservation(amount: nat, intent: Option<nat>, state: ReservationState,
                                     trail: seq<ReservationState>) {
    function Move(next: ReservationState): Reservation {
      this.(state := next, trail := trail + [next])
    }
  }

  function NewReservation(amount: nat, intent: Option<nat>): Reservation {
    Reservation(amount, intent, ReservationRequested, [ReservationRequested])
  }

  datatype LegState = LegPending | LegSubmitted | LegFinal | LegFailed | LegUnknown
  datatype Leg = Leg(amount: nat, state: LegState)

  datatype IntentState = Preparing | ReadyToAccept | TradeAccepted | TradeRejected | TradeUnknown

  /** An FX trade intent with the amounts of the quote it accepts: what is sold and what is bought. */
  datatype Intent = Intent(quote: nat, sold: nat, bought: nat, state: IntentState)

  datatype CreditState = CreditUnknown | Credited | CreditReversed
  datatype Credit = Credit(state: CreditState, evidenced: bool)

  datatype ReconciliationState = Unmatched | Matched | Broken

  datatype CancelState =
    | CancelRequested | CancelValidating | CancelSent | CancelAccepted | CancelRejected | CancelUnknown | CancelClosed

  predicate CancelMayBecome(s: CancelState, t: CancelState) {
    match s
    case CancelRequested => t.CancelValidating? || t.CancelRejected?
    case CancelValidating => t.CancelSent? || t.CancelRejected? || t.CancelUnknown?
    case CancelSent => t.CancelAccepted? || t.CancelRejected? || t.CancelUnknown?
    case CancelAccepted => t.CancelClosed?
    case CancelRejected => t.CancelClosed?
    case CancelUnknown => t.CancelClosed?
    case CancelClosed => false
  }

  /** Tenant, participant, corridor and currency: the scope of an exposure position. */
  type Scope = string

  /** A limit counter is kept per scope and business date. */
  datatype LimitKey = LimitKey(scope: Scope, day: int)

  /** An order row with the rows of the other tables that carry its order id. `leg` is the value leg; `fxLegs` are
      the sell leg and the buy leg, once a trade is accepted. `counter` is the limit counter the order reserved on.
      `closedWith` records the outcome given with the closing call; no operation but the finalisation reads it. */
  datatype Order = Order(
    state: OrderState,
    outcome: Option<Outcome>,
    version: nat,
    amount: nat,
    sameCurrency: bool,
    screeningPasses: bool,
    scope: Scope,
    counter: Option<LimitKey>,
    closedWith: Option<Outcome>,
    authorizations: seq<Decision>,
    compliances: seq<Decision>,
    facts: seq<Fact>,
    intents: seq<Intent>,
    reservations: seq<Reservation>,
    leg: Leg,
    fxLegs: seq<Leg>,
    credits: seq<Credit>,
    reconciliations: seq<ReconciliationState>,
    postedJournals: nat,
    openCases: nat,
    cancellations: seq<CancelState>
  )

  function NewOrder(amount: nat, sameCurrency: bool, screeningPasses: bool, scope: Scope,
                    counter: Option<LimitKey>): Order {
    Order(ControlChecks, None, 1, amount, sameCurrency, screeningPasses, scope, counter, None,
          [Undecided], [Undecided],
          [Fact(Message, "payment-message", 1), Fact(Authorization, "authz_", 1), Fact(Compliance, "comp_", 1),
           Fact(Funding, "debit", 1), Fact(Fx, "fx-", 1), Fact(Settlement, "PAYMENT_VALUE", 1),
           Fact(Beneficiary, "beneficiary", 1), Fact(Reconciliation, "reconciliation", 1)],
          [], [], Leg(amount, LegPending), [], [], [], 0, 0, [])
  }

  /** The compare-and-set behind every change of state. */
  function SetOrderState(o: Order, target: OrderState, outcome: Option<Outcome>, expected: nat): Result<Order> {
    if Terminal(o.state) then
      if o.state == target then Ok(o) else Err(Conflict)
    else if target != o.state && !MayBecome(o.state, target) then Err(Conflict)
    else if o.version != expected then Err(Conflict)
    else
      Ok(o.(state := target,
            version := expected + 1,
            outcome := if outcome.Some? then outcome else o.outcome,
            closedWith := if Terminal(target) then outcome else o.closedWith))
  }

  function Transition(o: Order, target: OrderState, outcome: Option<Outcome>): Result<Order> {
    SetOrderState(o, target, outcome, o.version)
  }

  /** The number of the latest fact of this kind and reference, 0 when there is none. */
  function LatestSequence(facts: seq<Fact>, kind: FactKind, reference: string): nat {
    if facts == [] then 0
    else
      var last := facts[|facts| - 1];
      if last.kind == kind && last.reference == reference then last.sequence
      else LatestSequence(facts[..|facts| - 1], kind, reference)
  }

  function AppendFact(o: Order, kind: FactKind, reference: string): Order {
    o.(facts := o.facts + [Fact(kind, reference, LatestSequence(o.facts, kind, reference) + 1)])
  }

  /** The reference of the i-th row of a kind; distinct dots stand for distinct generated suffixes. */
  function Numbered(prefix: string, i: nat): string {
    prefix + seq(i, _ => '.')
  }

  const FX_ROLES: seq<string> := ["FX_SELL", "FX_BUY"]
}

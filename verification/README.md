# Payment core: a verified model

A Dafny model of the stateful core of the payment backend, with proofs about all of its runs. Every subsystem has the
same shape: a state (the rows of the tables), a step function (one committed transaction, or one event of the
environment), runs over arbitrary sequences of steps, theorems about every reachable state, and a class whose methods
change the same tables statement by statement and are proved equal to the steps.

- **Saga** (`Orders`, `Completion`, `Outbox`, `Handlers`, `Saga`, `SagaInvariant`, `SagaTables`, `SagaSafety`,
  `SagaSteps`, `SagaEndings`, `SagaLimits`, `SagaCancellation`, `Worker`, `Api`): payment orders in one currency or two,
  driven by any number of workers over a transactional outbox and inbox, with leases, crashes, retries, dead letters,
  maker-checker replay, FX acceptance, cancellation, limits and the completion gate. Connector answers, faults, lost
  races, the rows other transactions have locked, posted journals and open cases are inputs of the steps. `SagaEvents`,
  `SagaRows` and `SagaFailures` follow the events of a run: who adds them, what they speak of, and what becomes of those
  that fail; `SagaFacts` follows the facts of an order. The turn theorems (`SagaTurns`, `SagaControlTurns`,
  `SagaFundingTurns`, `SagaTradeTurns`, `SagaEndingTurns`, `SagaRequests`) say for each topic and request, in rows and
  without the handlers, what it does in every run; `SagaCompletion` puts them together into whole payments.
- **Limits** (`LimitDesk`, `Limits`, `OrderStore`): daily counters and exposure positions bound to the order lifecycle.
  `Limits` runs them under arbitrary changes of state, `SagaLimits` under the saga's own.
- **Subledger** (`Ledger`, `LedgerInvariant`, `LedgerAgreement`, `LedgerTheorems`, `LedgerFunds`, `LedgerMulti`,
  `LedgerDrafts`, `LedgerStore`, `JournalBalance`): double entry with cached balances, drafts, multi-currency posting,
  reversal, reservations and holds.
- **CIPS** (`Cips`, `CipsNetting`, `CipsRuns`, `CipsQueue`, `CipsSteps`, `CipsStore`): the RTGS queue and net settlement
  of batches.
- **Side cores**: `Iban`, `IbanForms`, `IbanErrors`, `IbanParts` (MOD 97-10 as in ISO 13616), `AuditChain` (the hash
  chain), `JtiStore` (the replay store behind its cache), `Idempotency` (idempotency keys). `Results`, `Sums` and `Text`
  are shared helpers.

A request or worker handler is one atomic step: it commits, or every table is as before, because the routers and the
worker roll back on any exception. The clock is an integer that never goes back. Automatic row ids are positions in a
sequence; keys chosen by callers are map keys. History variables (`ran`, `trail`, `opening`, `running`) record what
happened and are read by no operation; `closedWith` hands the outcome of a closing call to the finalisation. A hash is
a function parameter; what a theorem needs of it is a stated precondition.

Results that differ from what one would expect of the code:

- Every outbox event is enqueued with sequence 1 under a unique key (topic, aggregate, sequence). So an order is asked to
  be cancelled at most once: a request is accepted if and only if the order is open and was never asked before
  (`SagaCancellation.RequestAcceptedExactlyWhen`), and after a REJECTED answer it can never be cancelled by request
  (`SagaCancellation.DeniedOrdersAreNeverCancelled`). An undecided answer fits no state a request can be in: its handler
  always raises (`SagaCancellation.UndecidedAnswersRaise`).
- Exposure is released on closing even for an order created while no exposure limit was set. A scope that mixes the two
  can hold an order that cannot be closed (`Limits.AMixedScopeBlocksClosing`, `SagaLimits.AMixedScopeOverdraws`); the
  exact conditions for a close and for a cancellation are `SagaLimits.ValueClosesExactlyWhen` and
  `SagaLimits.CancellationEndsExactlyWhen`.
- The IBAN pattern ends in `$`, which also matches before a final line break; such an input raises instead of being
  rejected.
- A reversal can be refused although its journal was accepted a moment ago (`LedgerTheorems.AReversalCanBeRefused`);
  the exact condition is `LedgerTheorems.ReversalExactlyWhen`.
- The replay cache can outlive its row, for every capacity (`JtiStore.CacheCanOutliveItsRow`). Store and table alone
  answer alike throughout a run if and only if no cleanup deletes the row of an identifier that the cache keeps
  (`JtiStore.TransparentExactlyWhen`).
- Two attempts under one idempotency key can run at once when a retry's lifetime ends before its key does, and only then
  (`Idempotency.ShorterRetriesOverlap`, `Idempotency.OverlapPossibleExactlyWhen`).

## Model

| member | source | states |
|---|---|---|
| SagaSafety.EffectsCommitOnce | backend/production/worker.py:82-133 | In every run, with any number of workers, crashes, expired leases, stale failures and replays, an event's handler effects commit at most once, and exactly once for a PUBLISHED event; receipts and committed handler runs are the same multiset |
| SagaSafety.ClosedOrdersAreFulfilled | backend/production/worker.py:349-412 | In every run, an OPERATIONALLY_CLOSED order has a final value leg, exactly one evidenced credit, a MATCHED reconciliation and a posted journal. In one currency it has passed both controls and has one reservation, whose states were PENDING, RESERVED and one of the consumption answers given, and reservation, value leg and order are of one amount. In two currencies both legs of one accepted quote are final and the value leg is for what that quote bought |
| SagaSafety.SandboxOrdersAreConsumed | backend/production/worker.py:366-378 | With the sandbox connectors every closed same-currency order has one reservation, CONSUMED after PENDING and RESERVED; SagaCompletion.SandboxPaymentsComplete closes one |
| SagaSafety.CompletionExcludesCancellation | backend/production/cancellation_service.py:36-55 | In every run, for orders of one currency and of two, no order has both a credit and an ACCEPTED cancellation; the value leg is FINAL, a credit exists and the outcome is COMPLETED exactly when the order is OPERATIONALLY_CLOSED; the four intermediate states are never committed |
| SagaSafety.RunKeepsInv | backend/production/worker.py:152-425 | The invariant behind the saga's safety is kept by every run from every state that satisfies it |
| SagaSafety.ApplyKeepsInv | backend/production/worker.py:82-133 | Each of the twelve kinds of step keeps it, whatever the connectors answer |
| SagaSafety.DispatchUpholds | backend/production/worker.py:135-150 | The handler of each of the seven topics keeps its order sound and enqueues only what the causal chain allows |
| SagaEndings.EndingsAreFinal | backend/production/service.py:712-736 | Once an order is in a terminal state, no continuation of the run changes its state, outcome, version, credits or a reservation that has been tried; after a successful close its legs and reconciliations stay as well, and in one currency its controls and every reservation |
| SagaLimits.SagaCountersMatchOrders | backend/production/service.py:737-741 | In every run of the saga each limit counter's reserved amount is the sum over its open orders, and its consumed amount the sum over its orders closed as COMPLETED |
| SagaLimits.SagaExposureMatchesOrders | backend/production/limit_reservation.py:33-43 | Where each scope sets its exposure limit always or never, a position is the sum over the open orders of its scope, in every run of the saga |
| SagaLimits.ValueClosesExactlyWhen | backend/production/worker.py:349-412 | In every run, a final settlement closes an open order if and only if it is delivered or suspended, no reservation is RESERVED or PENDING once each RESERVED one has its consumption answer, no case is open, a journal is posted and the scope's exposure is not smaller than the order; otherwise the handler raises |
| SagaLimits.UniformValueClosesExactlyWhen | backend/production/service.py:737-741 | Where exposure limits are set always or never, the first four conditions alone decide |
| SagaLimits.CancellationEndsExactlyWhen | backend/production/cancellation_service.py:36-55 | In every run, a granted cancellation ends an open order as CANCELLED if and only if the scope's exposure is not smaller than the order |
| SagaLimits.AMixedScopeOverdraws | backend/production/service.py:737-741 | Two payments of one scope after which an open order exceeds the exposure of its scope |
| SagaCancellation.AskedAtMostOnce | backend/production/service.py:524-556 | In every run an order has at most one cancellation request, and has one exactly when its cancellation event exists |
| SagaCancellation.RequestAcceptedExactlyWhen | backend/production/service.py:524-556 | In every run a request is accepted if and only if the order exists, is not terminal and has no request yet |
| SagaCancellation.AnswersAreFinal | backend/production/cancellation_service.py:28-34 | The answer to a request never changes in any continuation of the run |
| SagaCancellation.DeniedOrdersAreNeverCancelled | backend/production/worker.py:414-425 | After a REJECTED or UNKNOWN answer every further request is refused and the order never ends as CANCELLED, whatever follows |
| SagaCancellation.RequestsWaitOrAreAnswered | backend/production/cancellation_service.py:13-21 | In every run a request is REQUESTED, ACCEPTED or REJECTED |
| SagaCancellation.UndecidedAnswersRaise | backend/production/worker.py:424-425 | An UNKNOWN answer is never recorded: in every run its handler raises |
| SagaCompletion.PaymentsComplete | backend/production/worker.py:152-412 | After any run in which each scope sets its exposure limit always or never, every payment in one currency with a positive amount that passes screening and fits into its limits is closed by its own ten steps (create, claim and work its creation, its funding and its message, post a journal, claim and work its value) when the connectors answer favourably: it is OPERATIONALLY_CLOSED and COMPLETED, its one reservation was PENDING, RESERVED and what its consumption was answered with, its value is final and credited, and no other order is touched |
| SagaCompletion.SandboxPaymentsComplete | backend/production/worker.py:152-412 | In the sandbox the first payment, for any positive amount in one currency that passes screening and is within its limits, ends OPERATIONALLY_CLOSED with its reservation CONSUMED |
| SagaControlTurns.CreatedTurn | backend/production/worker.py:152-219 | In every run the leaseholder's turn on a new payment records its decisions and then, by cases on permission, screening, currency and state, suspends the order as refused, ends it as REJECTED unless its scope is overdrawn, asks for its funds with one reservation and event, lets it wait for its quote, or fails and changes no order |
| SagaFundingTurns.FundingTurn | backend/production/worker.py:221-252 | In every run the turn on a reservation writes the answer to it; when that makes every reservation of its purpose RESERVED, the message event is added, or the trade becomes READY_TO_ACCEPT with its event (or the turn fails, by the order's state); otherwise nothing is added |
| SagaTradeTurns.TradeTurn | backend/production/worker.py:254-302 | In every run the turn on an acceptance leaves an accepted trade alone; an order at the FX barrier without legs takes the answer, its value leg takes the bought amount, and one leg for what is sold and one for what is bought are added with their events; otherwise the turn fails |
| SagaTradeTurns.LegTurn | backend/production/worker.py:304-333 | In every run the turn on a leg leaves a final one alone and otherwise writes the answer, and the message event is added if and only if all legs are then final |
| SagaTurns.MessageTurn | backend/production/worker.py:335-347 | In every run the turn on a message makes a funded, settled, delivered or parked order MESSAGE_DELIVERED and adds its value event if the answer is DELIVERED or NETWORK_ACKED; any other answer makes an open order SUSPENDED and adds nothing; otherwise the turn fails |
| SagaTurns.DeliveryDecides | backend/production/worker.py:335-347 | In every run, after that turn an order that was RESERVATION_PENDING, FX_ACCEPTED or SUSPENDED is MESSAGE_DELIVERED and has a value event if and only if the answer is DELIVERED or NETWORK_ACKED; otherwise it is SUSPENDED and has none |
| SagaRows.ValueFollowsDelivery | backend/production/worker.py:342-345 | Every value event of a run was added by a committed turn on the message of its order that was answered DELIVERED or NETWORK_ACKED |
| SagaEndingTurns.ValueTurn | backend/production/worker.py:349-412 | In every run the turn on the value leaves a closed order alone and writes an answer that is not final to the leg. A final answer closes the order, with each RESERVED reservation moved to its consumption answer, one evidenced credit and a MATCHED reconciliation, if it is MESSAGE_DELIVERED or SUSPENDED, no reservation is RESERVED or PENDING after the answers, no case is open, a journal is posted and the scope is not overdrawn; otherwise the turn fails |
| SagaEndingTurns.CancellationTurn | backend/production/worker.py:414-425 | In every run the turn on a request for cancellation finds it REQUESTED. Granted, it ends an open order as CANCELLED with what was RESERVED released, unless the scope is overdrawn; it is recorded as REJECTED when denied; an undecided answer makes the turn fail; a closed order keeps its rows |
| SagaRequests.CreatedExactlyWhen | backend/production/service.py:303-378 | In every run a payment is created if and only if its amount is positive and fits into its daily counter and its exposure position; then its row, its first facts, its event and exactly its own counter and position are written, and otherwise nothing |
| SagaRequests.QuoteAcceptedExactlyWhen | backend/production/service.py:448-522 | In every run a quote is accepted if and only if it is usable, no order has an intent for it and the order is in two currencies; then the order gets its intent, two reservations and their events, and otherwise nothing changes |
| SagaRequests.AskedExactlyWhen | backend/production/service.py:524-556 | In every run a request for cancellation writes its row, its fact and its event if and only if the order is open and was never asked, and otherwise nothing |
| SagaFacts.FactsAreNumbered | backend/production/service.py:654-709 | In every run the facts of one kind and reference of an order are numbered from 1 on without a gap |
| SagaFacts.FactsAreKept | backend/production/service.py:654-709 | In every continuation of a run an order keeps all its facts, in place and unchanged |
| SagaInvariant.CreatedKeepsSound | backend/production/worker.py:152-219 | Screening, suspension, rejection and the funding request keep the order sound and enqueue at most the funding event |
| SagaInvariant.FundingKeepsSound | backend/production/worker.py:221-252 | A reservation's answer keeps the order sound under the history that records it, and enqueues at most the message or one acceptance; a same-currency order is pursued only once its reservation is RESERVED |
| SagaInvariant.TradeKeepsSound | backend/production/worker.py:254-302 | Accepting a quote keeps the order sound, with two legs and a value leg of that quote's amounts, and enqueues both submissions or nothing |
| SagaInvariant.SettlementKeepsSound | backend/production/worker.py:304-333 | A leg's answer keeps the order sound, and the message follows only when both legs are final |
| SagaInvariant.ClosingKeepsSound | backend/production/worker.py:366-412 | Consumption, credit, reconciliation and close leave every row a closed order rests on |
| SagaInvariant.AcceptanceKeepsSound | backend/production/cancellation_service.py:36-55 | Accepting a cancellation before finality moves the order to its unsuccessful end and leaves its one request ACCEPTED |
| SagaInvariant.GateOpensExactlyWhen | backend/production/completion_policy.py:23-44 | For any order, the closing call goes through if and only if the customer side is complete or the order is closed already, the facts its profile asks for are there, no reservation is RESERVED or PENDING, no case is open, a reconciliation is MATCHED, every leg is final, exactly one row is CREDITED and it is evidenced, and a journal is posted |
| Completion.ProjectionWitnesses | backend/production/completion_policy.py:26-36 | The latest-fact projection satisfies a required item exactly when some fact of the whole history does |
| Completion.LatestFacts | backend/production/completion_policy.py:27-31 | The loop keeps, for every kind and reference, a fact with the highest sequence number |
| Completion.Evaluate | backend/production/completion_policy.py:23-44 | Raises exactly when the profile is missing or several credited rows exist; otherwise answers what the policy says of the fact history and of all legs |
| Outbox.PickIsExact | backend/production/runtime.py:236-254 | A batch is the first eligible rows that nobody has locked, in table order: nothing else, nothing skipped, none twice, no more than the cap |
| Outbox.BatchHoldsOneSequencePerPartition | backend/production/runtime.py:236-254 | Two events of one partition in one batch have the same sequence number |
| Outbox.ClaimedExactlyWhen | backend/production/runtime.py:227-262 | A claim takes an event if and only if it is PENDING or its lease is absent or over, its time has come, no lower sequence of its partition is unfinished, nobody has locked it, and fewer such events come before it than the batch may hold, which is the limit brought between 1 and 500 |
| Outbox.ClaimWrites | backend/production/runtime.py:227-262 | An event taken is PROCESSING under the worker's lease for sixty seconds with one attempt more; an expired lease is taken back; every other row stays |
| Outbox.RenewedLeasesHold | backend/production/runtime.py:227-283 | A heartbeat renews the lease for sixty seconds, exactly for the worker that has it, and until they are over no claim takes the event or changes its row |
| SagaFailures.AttemptsAreClaims | backend/production/runtime.py:255-262 | In every run the attempts of an event are the number of its claims |
| SagaFailures.FailingTurns | backend/production/runtime.py:285-294 | In every run a failing turn changes nothing but its event, which is then unleased and DEAD_LETTER if and only if it has been claimed at least eight times, and PENDING otherwise |
| SagaFailures.FailedEventsWait | backend/production/runtime.py:285-294 | After a failure before the eighth claim the event is in no batch before ten seconds have passed, whatever else happens |
| SagaFailures.DeadLettersStay | backend/production/dlq_replay.py:12-42 | In every run a dead-lettered event stays dead-lettered until the turn of a worker that still holds it commits, which publishes it, or a checker other than the maker approves its replay, which makes it PENDING at once |
| SagaFailures.ReplayedAtMostOnce | backend/production/dlq_replay.py:12-42 | In every run an event is replayed at most once, and has been exactly when its replay request is approved |
| SagaRows.RunKeepsPartitions | backend/production/runtime.py:191-225 | In every run each event is the only sequence number of its partition, which is its aggregate |
| PartitionOrder.ClaimedInPartitionOrder | backend/production/runtime.py:227-262 | When an event is claimed, every lower sequence of its partition is PUBLISHED or DEAD_LETTER, and stays so in every continuation without stale workers and replays |
| PartitionOrder.StepKeepsSettled | backend/production/runtime.py:264-294 | A step by the leaseholder never unsettles an event, and new events come last in their partition |
| Outbox.OutboxService.Claim | backend/production/runtime.py:227-262 | Sweeps expired leases, picks the batch and leases exactly its rows |
| Outbox.OutboxService.SelectBatch | backend/production/runtime.py:237-254 | The scan returns the picked batch |
| Outbox.OutboxService.LeaseBatch | backend/production/runtime.py:255-260 | Exactly the rows of the batch are leased and counted as attempted |
| Outbox.OutboxService.Complete | backend/production/runtime.py:264-275 | Publishes the row, or refuses by lease fencing and changes nothing |
| Outbox.OutboxService.Heartbeat | backend/production/runtime.py:277-283 | Renews a lease for its owner only |
| Outbox.OutboxService.Fail | backend/production/runtime.py:285-294 | Frees the lease and schedules a retry, or dead-letters the row after eight attempts |
| Worker.Database.Move | backend/production/service.py:712-741 | The guarded update of the order row with the finalisation of its limits, or an error |
| Worker.Database.Note | backend/production/service.py:654-709 | Appends a fact numbered one after the latest of its kind and reference |
| Worker.Database.Enqueue | backend/production/runtime.py:191-225 | Adds an event, or refuses because its unique key exists |
| Worker.ProductionWorker.PaymentCreated | backend/production/worker.py:152-219 | The handler's rows, limits and events are those of the creation step, and it raises when the step does |
| Worker.ProductionWorker.FundingReserveRequested | backend/production/worker.py:221-252 | The same for funding |
| Worker.ProductionWorker.TradeRequested | backend/production/worker.py:254-302 | The same for the acceptance of a quote |
| Worker.ProductionWorker.SettlementRequested | backend/production/worker.py:304-333 | The same for a leg of the trade |
| Worker.ProductionWorker.MessageRequested | backend/production/worker.py:335-347 | The same for the message |
| Worker.ProductionWorker.ValueRequested | backend/production/worker.py:349-364 | The same for the value leg |
| Worker.ProductionWorker.CompletePaymentOf | backend/production/worker.py:366-412 | The same for completion and close, through the gate and the limits |
| Worker.ProductionWorker.AcceptCancellationOf | backend/production/cancellation_service.py:36-55 | The same for accepting a cancellation, with the loop that releases reservations and the limits |
| Worker.ProductionWorker.CancellationRequested | backend/production/worker.py:414-425 | The same for the cancellation event |
| Worker.ProductionWorker.Attempt | backend/production/worker.py:90-101 | Receipt, handler and completion of one event form one transaction of the saga |
| Worker.ProductionWorker.RunOne | backend/production/worker.py:89-108 | One turn of the loop is one committed step, or a full rollback with the failure recorded |
| Worker.ProductionWorker.RunOnce | backend/production/worker.py:82-109 | A pass over a batch is the sequence of its turns, and every claimed event is counted as processed or failed |
| Api.PaymentApi.CreatePayment | backend/production/service.py:303-378 | Adds the order with its reservation on the limits, its first facts and the event that starts it, or nothing |
| Api.PaymentApi.AcceptQuote | backend/production/service.py:448-522 | Adds the trade intent, its two reservations with an event each and a fact, or nothing |
| Api.PaymentApi.RequestCancellation | backend/production/service.py:524-556 | Adds the request and its event, or nothing: terminal orders and second requests are refused |
| Api.PaymentApi.CreateReplay | backend/production/dlq_replay.py:12-22 | One replay request per dead-lettered event |
| Api.PaymentApi.ApproveReplay | backend/production/dlq_replay.py:25-42 | A different checker puts the dead-lettered event back to PENDING; any refusal changes nothing |
| LedgerInvariant.AccountingEquation | backend/production/_ledger_core.py:102-146 | Per currency, debit-normal minus credit-normal balances are the same before and after every run of postings, multi-currency postings, reversals, drafts, reservations and holds |
| LedgerInvariant.OperationMovesNet | backend/production/_ledger_core.py:37-197 | Only an opening balance or a consumption moves that difference, and by exactly its amount |
| LedgerInvariant.PostingIsPrefixwise | backend/production/_ledger_core.py:118-131 | The loop over the entries accepts a journal exactly when no prefix of it leaves the current entry's account negative |
| LedgerInvariant.PostingMoves | backend/production/_ledger_core.py:118-131 | An accepted posting moves each account by the entries that name it: debits raise assets, expenses and suspense, credits raise liabilities, equity, income and contra |
| LedgerInvariant.PostingRaises | backend/production/_ledger_core.py:22-30 | An accepted posting raises a liability, equity, income or contra account by its credits minus its debits, and an asset, expense or suspense account by its debits minus its credits |
| LedgerInvariant.PostedExactlyWhen | backend/production/_ledger_core.py:102-146 | A journal is posted if and only if its id is new, it has at least two entries of one currency with positive amounts, as much debited as credited, on active accounts of that currency, and no prefix of the entries drives the account of its last entry below zero |
| LedgerMulti.MultiPostedExactlyWhen | backend/production/_ledger_core.py:169-183 | A multi-currency posting is accepted if and only if it has two currencies and every currency group has its clearing leg and could be posted on its own on the books as they were before: posting one group never bears on another |
| LedgerDrafts.DraftedExactlyWhen | backend/production/_ledger_core.py:148-157 | A draft is stored if and only if its id is new and its positive entries of one currency balance |
| LedgerDrafts.ValidatedExactlyWhen | backend/production/_ledger_core.py:159-167 | In every run a journal passes validation if and only if it exists and is not posted: the balance check never fails, because a draft's entries read back as they were given |
| LedgerFunds.ReservedExactlyWhen | backend/production/_ledger_core.py:57-79 | In every run a new reservation is made if and only if its account is active and of its currency and its amount is positive and at most the balance minus all RESERVED reservations and all HELD or UNKNOWN holds |
| LedgerFunds.ReleasedExactlyWhen | backend/production/_ledger_core.py:81-89 | In every run releasing a RESERVED reservation takes exactly its amount off what is reserved; any other known one stays |
| LedgerFunds.ConsumedExactlyWhen | backend/production/_ledger_core.py:91-100 | In every run consuming a RESERVED reservation takes its amount off balance and reserved amount, and is refused exactly when the balance is smaller |
| LedgerFunds.HeldExactlyWhen | backend/production/funding_service.py:34-46 | In every run a hold is placed if and only if its id is new and its amount is positive and available, in the same sense, on an active account of its currency |
| LedgerFunds.ChangedExactlyWhen | backend/production/funding_service.py:48-60 | In every run a hold moves on if and only if it is HELD, at the expected version, and moves away from HELD; its funds are freed unless the outcome is unknown |
| LedgerFunds.SweepFreesExactly | backend/production/funding_service.py:62-68 | The expiry sweep frees on each account exactly the amounts of its due holds with an external reference |
| LedgerInvariant.PostingKeepsNonnegative | backend/production/_ledger_core.py:124-131 | No posting makes a balance negative |
| LedgerAgreement.OperationKeepsInv | backend/production/_ledger_core.py:37-197 | Every operation keeps the agreement of cached amounts with journals, reservations and holds, on every account |
| LedgerAgreement.ClampsNeverBite | backend/production/_ledger_core.py:81-100 | In every agreeing state the clamps at zero in release and consume never clip, consume is refused exactly when the balance is below the reservation, and the amount of a HELD hold, subtracted without a clamp, is covered by what its account has reserved |
| LedgerTheorems.BalancesAgreeWithJournals | backend/production/_ledger_core.py:221-241 | After any run every stored balance is the opening balance plus the POSTED entries minus the consumed reservations, every reserved amount is the sum of RESERVED reservations and HELD or UNKNOWN holds, and neither is negative |
| LedgerTheorems.TrialBalanceNetsToZero | backend/production/_ledger_core.py:221-241 | After any run the recomputed balances of one currency cancel between debit-normal and credit-normal accounts |
| LedgerTheorems.ReversalExactlyWhen | backend/production/_ledger_core.py:185-197 | A reversal straight after its journal is accepted if and only if, in the order of the readback, the later entries always leave the current account covered |
| LedgerTheorems.ReversalRestoresBalances | backend/production/_ledger_core.py:185-197 | An accepted reversal restores every balance, in whatever order the entries are read back |
| LedgerTheorems.ReversalCancelsMovement | backend/production/_ledger_core.py:185-197 | And it cancels the journal's contribution to the trial balance |
| LedgerTheorems.JournalsNamingAccountsOnceReverse | backend/production/_ledger_core.py:185-197 | A journal that names each account at most once can always be reversed at once |
| LedgerTheorems.AReversalCanBeRefused | backend/production/_ledger_core.py:124-131 | A concrete journal that is accepted and whose immediate reversal is refused |
| LedgerTheorems.JournalFreeRunsStayCovered | backend/production/_ledger_core.py:57-100 | Without postings, reserved never exceeds the balance and no consumption is refused |
| LedgerTheorems.FreedOnlyOnce | backend/production/_ledger_core.py:81-100 | In every run, a reservation or hold that has left RESERVED or HELD never changes state again |
| LedgerStore.LedgerService.ValidateEntries | backend/production/_ledger_core.py:209-219 | Accepts exactly two or more entries of one currency with equal positive sides |
| LedgerStore.LedgerService.MoveBalances | backend/production/_ledger_core.py:118-131 | The loop over entries computes the sequential application, or raises where it fails |
| LedgerStore.LedgerService.PostJournal | backend/production/_ledger_core.py:102-146 | The journal is posted with its rows and balances, or the call raises, exactly as the posting step says |
| LedgerStore.LedgerService.MakeDraft | backend/production/_ledger_core.py:148-157 | A draft stores rows and moves nothing; entries the table forbids are refused |
| LedgerStore.LedgerService.Validate | backend/production/_ledger_core.py:159-167 | Validates an unposted journal whose entries balance, and moves nothing |
| LedgerStore.LedgerService.PostMulti | backend/production/_ledger_core.py:169-183 | Posts one journal per currency, or rolls all of them back |
| LedgerStore.LedgerService.Reverse | backend/production/_ledger_core.py:185-197 | Posts the flipped entries in readback order, or leaves the books unchanged |
| LedgerStore.LedgerService.ReserveFunds | backend/production/_ledger_core.py:57-79 | Reserves available funds once per reservation id |
| LedgerStore.LedgerService.ReleaseFunds | backend/production/_ledger_core.py:81-89 | Frees a RESERVED reservation and leaves any other as it is |
| LedgerStore.LedgerService.ConsumeFunds | backend/production/_ledger_core.py:91-100 | Consumes a RESERVED reservation, unless the balance would become negative |
| LedgerStore.LedgerService.PlaceHold | backend/production/funding_service.py:34-46 | Holds available funds under a new id |
| LedgerStore.LedgerService.ChangeHold | backend/production/funding_service.py:48-60 | Moves a HELD hold at its version; an unknown outcome keeps the funds reserved |
| LedgerStore.LedgerService.ExpireDue | backend/production/funding_service.py:62-68 | Every due hold is EXPIRED if the custodian has a reference for it and UNKNOWN otherwise, whatever the order; every other hold is unchanged, no version conflict occurs, and the whole is a run of the ledger |
| LedgerStore.LedgerService.TrialBalance | backend/production/_ledger_core.py:221-241 | Each listed line is the sum of the POSTED entries of its account, and the totals are the sums of the lines and of the reserved amounts |
| LedgerStore.CurrencyTrialBalanceIsRestriction | backend/production/_ledger_core.py:221-241 | The trial balance of one currency shows the same lines as the full one: filtering entries loses nothing |
| JournalBalance.ValidateJournalBalance | backend/production/financial_invariants.py:18-33 | The one-pass map accepts exactly nonempty positive DEBIT/CREDIT entries whose every currency group would pass the check made before posting |
| JournalBalance.GroupsPartition | backend/production/_ledger_core.py:169-173 | The currency groups together are the entries, each as often as given |
| JournalBalance.CurrenciesAscend | backend/production/_ledger_core.py:170-173 | The groups are formed for exactly the currencies that occur, each once, in ascending order |
| Limits.CountersMatchOrders | backend/production/limit_reservation.py:21-72 | In every run, each counter's reserved amount is the sum over its open orders and its consumed amount the sum over its orders closed as COMPLETED |
| Limits.LegalMoveRefusedExactlyWhen | backend/production/service.py:737-741 | In every run of arbitrary changes of state, an otherwise legal one is refused if and only if it closes an order whose scope has a position smaller than the order |
| Limits.PaymentAcceptedExactlyWhen | backend/production/limit_reservation.py:21-46 | In every run with uniform scopes, a payment is accepted if and only if its amount is positive, fits beside the open and completed payments of its scope and day into the daily limit, and fits beside the open payments of its scope into the exposure limit |
| Limits.ExposureMatchesOrders | backend/production/limit_reservation.py:33-43 | If each scope sets its exposure limit always or never, a position is the sum over the open orders of its scope |
| Limits.FinalizationIsNeverRefused | backend/production/service.py:720-741 | Then the limits never refuse a legal change of state |
| Limits.DailyLimitHolds | backend/production/limit_reservation.py:29-31 | Reserved plus consumed stays within the daily limit |
| Limits.ExposureLimitHolds | backend/production/limit_reservation.py:33-43 | Exposure stays within the exposure limit and is never negative |
| Limits.AMixedScopeBlocksClosing | backend/production/service.py:737-741 | A concrete run after which a legal closing call is refused |
| OrderStore.OrderService.Reserve | backend/production/limit_reservation.py:21-46 | Counter and position move together, or the call raises |
| OrderStore.OrderService.Finalize | backend/production/limit_reservation.py:60-72 | Moves the amount out of reserved, into consumed if asked, and off the position, or raises |
| OrderStore.OrderService.AddOrder | backend/production/service.py:303-322 | The order is stored with its counter, or the call raises |
| OrderStore.OrderService.SetOrderState | backend/production/service.py:712-741 | Compare-and-set of the row, then finalisation if it closes a limited order, or the call raises |
| CipsNetting.NettingSettlesWhatGrossCan | backend/nextgen/cips.py:207-240 | A batch that some order could settle gross, each payment in turn finding its amount on its debtor's first CNY account beyond what is reserved there, is settled net, and every balance is the one that order leads to |
| CipsNetting.NettingBreaksGridlock | backend/nextgen/cips.py:207-240 | The converse fails: a gridlocked batch is settled net and in no gross order |
| CipsNetting.NetPassesExactlyWhen | backend/nextgen/cips.py:220-224 | The liquidity check passes exactly when paying everything unchecked would leave each account no lower or with its reserve intact |
| CipsNetting.NetPositionsCancel | backend/nextgen/cips.py:216-219 | Net positions add up to zero |
| CipsNetting.NettingConserves | backend/nextgen/cips.py:225-228 | Net settlement neither makes nor loses money |
| CipsNetting.PayAllMoves | backend/nextgen/cips.py:170-173 | Paying a list one by one moves each participant's first account by its net position and nothing else |
| CipsNetting.BatchMembers | backend/nextgen/cips.py:207-214 | The batch holds each queued DNS settlement of its name as often as it was submitted, and nothing else |
| CipsSteps.SettledExactlyWhen | backend/nextgen/cips.py:151-191 | An unsettled settlement whose parties have accounts is paid, from the first CNY account of its debtor to that of its creditor, if and only if its amount is at most the debtor's balance minus what is reserved; otherwise nothing changes |
| CipsSteps.SubmittedExactlyWhen | backend/nextgen/cips.py:120-149 | A submission of unknown mode or without a positive amount is refused; a DNS one is queued; an RTGS one is queued and settled at once if it can be |
| CipsSteps.BatchSettledExactlyWhen | backend/nextgen/cips.py:207-240 | A batch is settled if and only if it has a member and every participant has an account whose balance minus reserve covers what the batch takes from it; then exactly its members are settled and every first account moves by its net flow |
| CipsRuns.BalancesAreSettledPayments | backend/nextgen/cips.py:99-240 | In every run, no account is overdrawn, each holds its opening balance plus its settled payments, each counted once, and all money is money deposited |
| CipsRuns.OperationConserves | backend/nextgen/cips.py:99-240 | Each operation keeps the difference between money held and money deposited, from every state |
| CipsRuns.PaidStaysCovered | backend/nextgen/cips.py:161-171 | A real-time settlement never takes an account below its reserve |
| CipsQueue.QueueIsExact | backend/nextgen/cips.py:195-200 | The queue lists every queued real-time settlement once, higher priority first, older first among equals |
| CipsQueue.ReleaseNeverRaises | backend/nextgen/cips.py:193-205 | A release never raises, because a settlement without accounts is never queued |
| CipsQueue.IdlePassFindsNoLiquidity | backend/nextgen/cips.py:161-169 | A pass that settles nothing changes nothing, and for every row it visited the balance minus the reserve of the debtor's first CNY account is less than its amount |
| CipsQueue.PassSettles | backend/nextgen/cips.py:201-205 | A pass changes nothing but the settled flag of exactly the rows it returns |
| CipsQueue.DrainEndsShortOfLiquidity | backend/nextgen/cips.py:151-205 | Repeated releases end, with the amount of every payment still queued above the balance minus the reserve of its debtor's first CNY account, money conserved, no overdraft and nothing but queued payments settled |
| CipsStore.CipsService.OpenAccount | backend/nextgen/cips.py:99-118 | Opens an account for a registered direct participant, or raises |
| CipsStore.CipsService.SubmitSettlement | backend/nextgen/cips.py:120-149 | Queues a settlement, attempts a real-time one at once, and rolls back if an account is missing |
| CipsStore.CipsService.SettleRtgs | backend/nextgen/cips.py:151-191 | Pays when the debtor's available balance suffices, queues otherwise, and never pays twice |
| CipsStore.CipsService.ReleaseRtgsQueue | backend/nextgen/cips.py:193-205 | The loop is one pass over the queue read at its start, and returns the settled rows |
| CipsStore.CipsService.NetPositions | backend/nextgen/cips.py:216-219 | The accumulated dictionary holds the net position of exactly the participants named |
| CipsStore.CipsService.SettleDnsBatch | backend/nextgen/cips.py:207-240 | Settles the batch net for all participants, or changes nothing |
| Iban.ValidateIban | backend/core/iban.py:65-92 | Accepts exactly the strings that, cleaned, are well-shaped, fit their country's template position by position and have remainder one; raises exactly on a well-shaped string followed by a line break. Upper-casing includes the nine characters outside ASCII that become ASCII letters |
| Iban.Expand | backend/core/iban.py:72-74 | The expanded decimal string denotes the number whose remainder is checked |
| Iban.FitsStructure | backend/core/iban.py:84-92 | The walk over the segments accepts exactly what fits the template |
| Iban.LengthsAgree | backend/core/iban.py:40-55 | Every length of the table is four plus the length of its segments |
| IbanForms.AcceptedExactlyWhen | backend/core/iban.py:40-92 | A string is accepted if and only if, without spaces and in capitals, it is two letters, two digits and letters or digits, has the length of its country and digits in the places its country demands them, and leaves remainder one |
| IbanErrors.SubstitutionsAreDetected | backend/core/iban.py:71-76 | An accepted IBAN with one digit replaced by another digit, or one letter by another letter, is rejected |
| IbanErrors.SwapsAreDetected | backend/core/iban.py:71-76 | An accepted IBAN with two different neighbouring digits, or letters, swapped anywhere in it is rejected |
| IbanErrors.ExactlyOneCheckValue | backend/core/iban.py:71-92 | For each country and well-formed account part exactly one check value in 02..98 is accepted, and all accepted ones are congruent to it modulo 97 |
| IbanErrors.PowersAvoidOne | backend/core/iban.py:71-76 | No power of ten from the first to the seventy-first leaves remainder one modulo 97 |
| IbanParts.ParseIban | backend/core/iban.py:107-145 | Parses exactly what matches the pattern, valid or not, into the first, second and last slice of its country's segments; a valid IBAN is put together again from them, up to the third of four segments |
| AuditChain.LastHashFixesHistory | backend/nextgen/platform.py:198-207 | Two accepted logs with the same last hash have the same payloads and length, if their hashed texts do not collide |
| AuditChain.SameHashSameHistory | backend/nextgen/platform.py:198-207 | The same from any two rows with equal hashes: they stand at the same place after the same history |
| AuditChain.ChangedPayloadIsRejected | backend/nextgen/platform.py:198-207 | A log with one payload changed in place is rejected, under the same condition |
| AuditChain.BuiltLogsAreAccepted | backend/nextgen/platform.py:175-196 | Every log built by appending is accepted and holds the appended payloads |
| AuditChain.PrefixesAndTagsPass | backend/nextgen/platform.py:198-207 | Verification sees neither a missing end nor a change of the columns outside the hash |
| AuditChain.AuditChainService.Append | backend/nextgen/platform.py:175-196 | Adds one linked row and keeps the verdict on the log |
| AuditChain.AuditChainService.Verify | backend/nextgen/platform.py:198-207 | Accepts exactly the logs whose every row links to its predecessor and hashes to its hash |
| JtiStore.AcceptedOnceUntilCleanup | backend/auth/jti_store.py:53-91 | After an identifier is accepted with expiry e every call reports a replay, for any capacity, evictions and restarts, until a cleanup runs after e |
| JtiStore.TransparentExactlyWhen | backend/auth/jti_store.py:37-91 | For every capacity and run, the store answers whatever is asked next, at every point of the run, as the table alone would, if and only if no cleanup deletes the row of an identifier whose cached expiry is not over |
| JtiStore.CacheIsTransparent | backend/auth/jti_store.py:37-76 | In every run without such a cleanup, answers and rows are those of the table alone |
| JtiStore.CleanupDiffersExactlyWhen | backend/auth/jti_store.py:79-91 | After a cleanup the answer for an identifier differs from the table's if and only if its cached expiry is not over while its row's is |
| JtiStore.ConstantExpiriesNeverOutlive | backend/auth/jti_store.py:37-91 | If an identifier always carries the same expiry, no cleanup of the run is of that kind |
| JtiStore.CacheCanOutliveItsRow | backend/auth/jti_store.py:79-91 | For every capacity, a concrete run after which the cache refuses what the table would accept |
| JtiStore.ForgottenAfterCleanup | backend/auth/jti_store.py:79-91 | A cleanup after the expiry forgets the identifier, if both tiers agree on the expiry |
| JtiStore.ReplayStore.Seen | backend/auth/jti_store.py:37-47 | Reports a cached identifier, or caches it and evicts the oldest beyond the capacity |
| JtiStore.ReplayStore.CheckAndRecord | backend/auth/jti_store.py:53-76 | Answer and state of the two-tier check |
| JtiStore.ReplayStore.CleanupExpired | backend/auth/jti_store.py:79-91 | Both tiers lose exactly what has expired, and the number of deleted rows is returned |
| Idempotency.AtMostOneAttemptRuns | backend/production/runtime.py:78-158 | In every run in which no attempt allowed on an existing key has a lifetime shorter than the key's, at most one attempt per key runs, and nobody is told to execute while one does |
| Idempotency.ResponseIsStable | backend/production/runtime.py:94-120 | In such runs a completed key answers its request with the stored response, and refuses any other, until it expires |
| Idempotency.TakeoverIsUnreachable | backend/production/runtime.py:104-112 | In such runs whoever could take over an expired lock finds the key expired |
| Idempotency.OneLifetimeCovers | backend/production/runtime.py:78-143 | Runs in which all keys get one lifetime are such runs |
| Idempotency.DecidesExactly | backend/production/runtime.py:78-143 | A request executes if and only if its key is fresh, or was made for it, has not expired and its last attempt failed retryably or lost its lock; it is answered if and only if the key is completed for it; otherwise it is refused |
| Idempotency.RetryableFailureReopens | backend/production/runtime.py:111-118 | After a retryable failure the same request executes as the next attempt until the key expires, and no other does |
| Idempotency.FinalFailureIsFinal | backend/production/runtime.py:119-120 | After a final failure every request under the key is refused, whatever follows |
| Idempotency.OverlapPossibleExactlyWhen | backend/production/runtime.py:104-122 | After such a run, an attempt allowed on an existing key, by retry or by takeover, can come to run beside another one in some continuation of the same kind if and only if its lifetime ends before the key does |
| Idempotency.ShorterRetriesOverlap | backend/production/runtime.py:104-122 | A concrete run with two attempts of one key at once |
| Idempotency.IdempotencyService.BeginAttempt | backend/production/runtime.py:78-143 | The answer and record of every branch, including an insertion that meets a concurrent one |
| Idempotency.IdempotencyService.BeginRequest | backend/production/runtime.py:78-143 | As a request: a refusal leaves the records unchanged, so EXPIRED is never stored |
| Idempotency.IdempotencyService.RecoverStarted | backend/production/runtime.py:160-184 | Completes the key with the effect found, or unlocks it, only after the lock has ended |

## Left out

- SagaSafety.ClosedOrdersAreFulfilled: says nothing of the controls of a cross-currency order, since FX acceptance does not look at the order's state; return payments are not part of the saga.
- Api.PaymentApi.AcceptQuote: the quotes table is reduced to the amounts of the quote and to whether it is usable; nothing in the source compares the quote's base amount with the order's amount.
- PartitionOrder.ClaimedInPartitionOrder: assumes sequences enqueued in increasing order, no failure reported by a former leaseholder and no replay; `fail` is not fenced by owner, so a PUBLISHED event can become PENDING again.
- Outbox.OutboxService.Claim: broker metadata and the heartbeat timestamp are not kept.
- SagaLimits.SagaExposureMatchesOrders: needs the exposure limit of a scope to be set always or never; without that, SagaLimits.ValueClosesExactlyWhen says what is left.
- Api.PaymentApi.CreatePayment: entitlement, limit profile look-up, message validation and account access are inputs or absent, and the idempotency record is modelled in a module of its own.
- Api.PaymentApi.RequestCancellation: idempotency and the check of ownership are absent.
- Api.PaymentApi.CreateReplay: tenants are not modelled.
- Api.PaymentApi.ApproveReplay: tenants and the comparison of payload hashes are not modelled, because payloads never change in the model.
- LedgerStore.LedgerService.PostJournal: legal entity, book, reason, dates and hashes of a journal are not kept; balances are unbounded integers.
- LedgerStore.LedgerService.Reverse: the reversal reason and references are one flag.
- CipsStore.CipsService.SettleRtgs: the lease taken and released inside the call, the lens and the outbox events are left out.
- IbanParts.ParseIban: the third of four segments is not returned, as in the code.
- AuditChain.LastHashFixesHistory: the hash is an arbitrary function with nonempty values free of the separator; freedom from collisions is assumed only for the texts of the two logs.
- Idempotency.AtMostOneAttemptRuns: recovery reads the same clock as every other call.
- Concurrency below the transaction: handlers and requests are atomic steps; the races that remain are the lost insertion of a receipt, the lost insertion of an idempotency key, and locked rows.
- `cancellation_service.transition` is called only as the worker calls it; evidence records, audit events and external references are reduced to whether they exist.
- `limit_reservation.release`, `HoldService.release` and `HoldService.consume`: nothing calls the first, and the others use a field their class does not set.
- A cancelled order can still receive its funds: a funding event handled late moves the reservation to RESERVED.
- Account types without a normal balance, such as the seeded NOSTRO accounts, and journal templates.
- The dispatcher script and the payment aggregate commands, which write the same tables through other entry points.
- Routers, sessions, migrations, settings, XML, certificates, signatures, e-CNY operators and the user interface.

# Cash-on-delivery order protocol, verified

A Dafny 4.11 model of the cash-on-delivery (COD) order flow of the e-commerce platform and of the stores it must keep
honest, with proofs over every input, every run or every interleaving. `dafny verify dfyconfig.toml` checks it all.

The code keeps its decisions in pure `*_rules.py` modules and applies them in services that mutate rows. The model has
the same two layers. Decisions are functions. Each service is a class whose methods update its fields and are proved
equal to a function on the old fields; runs are sequences of steps over those functions, and the theorems are about
runs. Every lemma carries `{:induction false}`: a proof is what its body says, and nothing rests on an induction
hypothesis the verifier made up.

| files | what they model |
|---|---|
| `Inventory`, `StockLedger`, `StockAnswers` | inventory-service: levels, holds, idempotency keys; the two records of one fact agree after every history; how each call is answered |
| `OrderLines`, `Payload`, `Reservation` | one items payload read by order-saga's splitter and by the dispatcher's planner; the line-by-line reservation with rollback |
| `Transitions`, `SellerOrders`, `OrderSaga` | order-saga: the saga table, the seller-order lifecycle, the transactions and the reaper |
| `SagaFate`, `ParcelLife` | what becomes of a saga and of each seller order over every run, and how every event and request is answered |
| `Outbox`, `OutboxClock` | saga-dispatcher: claim, attempt, backoff, park; the waits and the lease in clock time |
| `Protocol`, `StockLeak`, `Disposition` | the services composed, with lost answers, refusals, shed load, retries and late events |
| `ReservationReport`, `ParcelStock` | when a reported reservation is true, and when a completed order's stock follows its parcels |
| `SellerCancel`, `EarlyCancel` | when a seller's cancellation is safe for stock, and when it can strand some |
| `SagaReports`, `SellerCoverage`, `Recovery` | each order as a run of its own saga, what its sellers answer for, and that its stock can always be recovered |
| `Cart`, `CartRefinement`, `Basket`, `CartSweeps` | cart-service: Redis in front of `cart_state`, the sweeps |
| `CheckoutRace`, `CheckoutSafety` | the checkout lock, and the stages of a checkout interleaved with everything else |
| `AuditChain` | audit-service: the hash chain |
| `Escrow`, `Payments`, `Charging` | payment-service: the double-entry escrow ledger and the charge/refund ledger |
| `Breaker` | the shared circuit breaker with its bulkhead |
| `Reindex` | reindex-worker: the keyset scan |
| `Basics`, `Sequences`, `Ordering` | options and status codes, filters and sums, text order and sorting |

## Hypotheses

- A service call is one atomic step; calls of different workers interleave freely, and an answer may be lost after its
  call commits. Failed commits, lock contention and lock timeouts appear only as a refusal without effect.
- The saga and stock theorems are about COD orders. `Resolve` has the card arms too; nothing is claimed about them.
- Order ids, message ids and lock tokens are fresh. There is one ReserveInventoryCommand per order, so a line's
  idempotency key is written `LineKey(order, product)`.
- In `Protocol` a worker that recorded an event lives until it settles the row (`Allowed` excludes `Crash`), only the
  dispatcher reports InventoryReserved, a refusal without effect is at least 300 (`PlausibleFate`), and no report is
  refused with a 422, which order-saga answers only to event types it does not know. `StockLeak.CrashLeaks` shows the
  first is needed. A lease never lapses under a live holder: a row is claimed only while nobody works it. No other
  caller reserves under the id of an order that was placed.
- The inventory tables are those of the service's models. The constraint of `migrations/011` admits only the hold
  statuses held and released; under it every consume that selects a row would fail its commit with a 500.
- A cart call reads the clock once, and Redis and Postgres writes succeed; Redis may lose keys at any time.
- The digest of the audit chain is any function without collisions that never yields the genesis value or the empty
  text (`Ideal`).
- The breaker's critical sections do not suspend, so starting and finishing a call are one step each.
- Backoff, leases and cart clocks are `real`; money, stock and scan times are `int`.

## Where the code and its own words part

The model follows the code.

- `split_rules.py:115` says the splitter has the same tolerance as the reservation planner. It does not: a coerced
  quantity or a stray non-object entry is split and not planned (`OrderLines.SplitButNotPlannable`). They agree exactly
  on well-typed payloads (`OrderLines.SplitIsPlannable`).
- `dispatch_rules.py:340-341` says roughly fifty minutes of retrying. The scheduled waits total at most 2310 seconds
  (`Outbox.TotalBackoffIsBounded`).
- `payment_service.py:17-19` says summing an order's rows always yields its net position. It does exactly when none of
  its charges was declined (`Payments.PlainSumIsTheNetUnlessDeclined`).
- `resilience.py:111` says exactly one probe. From an open circuit past its reset time that holds in every half-open
  continuation if and only if nothing else was in flight or the limit is one (`Breaker.SingleProbeIff`).
- `migrations/011` has no consumed status; `consume_inventory` writes one, and so does the model.
- `cod_rules.py:133-135` says a cancel racing a reservation must still be safe. Whether it is turns on one thing, not on
  the seller order's status: has every planned line on that seller's products been attempted. If so, the seller's next
  processed stock command leaves nothing held on them for good (`SellerCancel.SafeOnceAttempted`); past PENDING that is
  always so (`SellerCancel.LateCancelIsSafe`). While the order is still being reserved and its lines are on the shelf,
  cancelling a PENDING seller order can strand a unit if and only if some such line is unattempted
  (`EarlyCancel.CancelStrandsIff`).
- A completed order's holds are not yet safe while its reservation row can be worked again, which a lost answer to the
  report is enough for: a retry that is refused on a line rolls all of them back. They follow the parcels in every
  continuation if and only if that row is processed or parked (`ParcelStock.UntouchedIffQuiet`).
- A replayed key of a refused line answers 200, so a retried command can complete an order that holds nothing
  (`ReservationReport.RetriedReportIsFalse`). A report is true if and only if no planned key was spent by a refusal and
  none of those holds was settled (`ReservationReport.ReportIsTrueIff`).
- A failed reservation reported to a saga that the reaper timed out is answered 409, so its command is retried and in the
  end parked. An answered report takes the order out of PENDING in every case, and finishes the command if and only if
  the saga had not timed out (`SagaReports.AnsweredFailureIsHeard`).
- `payment_service.py:128-131` wants a compensation that never errors. A refund is answered if and only if the order has
  at most one successful charge; with two it answers 500 for ever (`Payments.RefundIsAnsweredIff`).
- A refund recorded before its charge is a no-op for good. With at most one charge, a refund leaves the order square if
  and only if nothing was charged, nothing was settled before, or the charge was reversed (`Payments.RefundSquaresIff`).
- `add_to_cart` does not take the checkout lock. An add repeats the items of a closed cart if and only if the Redis key
  is live and no row is active (`CheckoutSafety.AddRepeatsIff`), which happens only between a checkout's commit and its
  deletion of the key (`CheckoutSafety.NoRepeatOutsideTheWindow`). And an add between a checkout's read and its claim is
  closed with the cart and announced to nobody; the announcement is the row if and only if there was no such add
  (`CheckoutSafety.AnnouncesTheRowIff`).
- A scan of an unchanging table ends having visited every row if and only if every row has a creation time or the table
  is shorter than a batch, and ends at all unless the dated rows are fewer than a batch and the table is not
  (`Reindex.PassIsCompleteIff`, `Reindex.PassEndsIff`). In the one case where it never ends and the table is exactly one
  batch, it still reads every row, over and over.

## Model

| member | source | states |
|---|---|---|
| StockLeak.NoRunLeaksSilently | services/order-saga/app/services/transitions.py:122-213 | in every run of the whole protocol, from any stock, an order that is TIMED_OUT or ROLLBACK_COMPLETED while it still holds units has a reserve or release command not marked processed; so once all of those are processed it holds nothing |
| StockLeak.EveryRunKeepsInv | workers/saga-dispatcher/app/main.py:302-356 | the inductive invariant of every order: a reported reservation has spent every line's key, a processed reserve or release row left the order empty-handed or latched, and a latched ended saga has a release row |
| StockLeak.StepKeepsWorldInv | workers/saga-dispatcher/app/main.py:464-540 | each single step of any order, any other caller and any outcome of a call keeps that invariant for every order at once |
| StockLeak.InvariantExcludesLeak | services/order-saga/app/main.py:79-146 | the invariant rules out an ended order holding units with nothing outstanding |
| StockLeak.EventKeepsInv | services/order-saga/app/services/saga_orchestrator.py:170-322 | any event that does not report a reservation, first-time, replayed, late or out of order, keeps the order's invariant |
| StockLeak.ReservedKeepsInv | services/order-saga/app/services/transitions.py:149-171 | a reported reservation keeps it too, on time or after the saga ended, when a release is emitted for the late stock |
| StockLeak.CrashLeaks | workers/saga-dispatcher/app/main.py:475-478 | from an order placed with one seller and one line, a dispatcher that dies after recording the event gives a run in which the units leak: the row is marked processed unheard |
| SellerCancel.ClearedForGood | services/inventory-service/app/services/inventory_service.py:24-36 | once every planned line on some products was attempted and nothing of the order is held on them, nothing ever is again, whatever step of whomever follows, crashes included |
| SellerCancel.CallClearsForGood | workers/saga-dispatcher/app/main.py:405-423 | a seller's stock call served with a 200 once those lines were attempted clears its products for good, whatever the seller order's status and whether or not the answer arrives |
| SellerCancel.SafeOnceAttempted | services/order-saga/app/services/cod_rules.py:132-142 | after any allowed run, if every planned line on a seller order's products was attempted, then in any allowed continuation a stock command of that seller order marked processed since has left nothing held on them |
| SellerCancel.LateCancelIsSafe | services/order-saga/app/services/cod_rules.py:92-146 | the same for any seller order past PENDING and not cancelled, with nothing else asked of the run |
| SellerCancel.WorkingHasNothingToCome | services/order-saga/app/services/saga_orchestrator.py:283-302 | in every allowed run a seller order past PENDING and not cancelled has had every planned line on its products attempted |
| SellerCancel.EveryRunKeepsShape | services/order-saga/app/services/saga_orchestrator.py:473-565 | the invariant behind it: no seller is at work before the reservation is reported, and no stock command belongs to a PENDING seller order |
| EarlyCancel.CancelStrandsIff | services/order-saga/app/services/cod_rules.py:132-142 | after any allowed run, for a PENDING seller order of a saga still reserving whose lines are each on the shelf or already answered: cancelling it can end with its release processed and a unit held on its products if and only if some planned line on them was not attempted |
| EarlyCancel.NothingToComeNothingStranded | services/order-saga/app/services/cod_rules.py:132-142 | the safe half without those premises: with every such line attempted no allowed continuation ends that way |
| EarlyCancel.SomethingToComeCanStrand | services/order-saga/app/services/cod_rules.py:132-142 | the failing half over the whole system: an unattempted line gives an allowed continuation of the cancel that ends that way |
| EarlyCancel.EarlyCancelStrands | workers/saga-dispatcher/app/main.py:405-423 | from the cancel on, wherever the reservation worker stands, the order's own steps reach that line held, the release and the reservation processed and the saga completed |
| EarlyCancel.ReachedInTheWorld | workers/saga-dispatcher/app/main.py:464-540 | what one order's allowed steps reach, an allowed run of the whole system reaches, with every other order as it was |
| EarlyCancel.LoopHolds | workers/saga-dispatcher/app/main.py:319-356 | from lines that are each on the shelf or already answered, the reservation loop reports success and holds every line it had not attempted |
| EarlyCancel.CancelBeforeReservationStrandsStock | services/order-saga/app/services/cod_rules.py:132-142 | that failure at its smallest: an order just placed with one seller and one line meets the premises, and cancelling can strand the line |
| ReservationReport.ReportIsTrueIff | workers/saga-dispatcher/app/main.py:319-356 | in every allowed run, when the dispatcher is about to report a reservation, every planned line is held in its quantity if and only if no planned key was spent by a refusal and none of those holds was settled since the order was placed |
| ReservationReport.LineIsHeldIff | services/inventory-service/app/services/inventory_service.py:24-36 | the same for each line on its own |
| ReservationReport.EveryLineIsTold | services/inventory-service/app/services/inventory_service.py:65-132 | at every moment of every run, however often the command is retried, a planned line has one live hold of its exact quantity or none, and one exactly when its key was spent by a grant that nothing has settled |
| ReservationReport.RetriedReportIsFalse | services/inventory-service/app/services/inventory_service.py:24-36 | an allowed run of the whole system that places an order and completes it with nothing held: a refusal, a rollback, a refused report and a retry answered from the keys |
| ParcelStock.StockFollowsTheParcelInTheWorld | services/order-saga/app/services/saga_orchestrator.py:473-565 | for an order completed and fully reserved with one seller per product, its reservation row processed or parked, and any allowed continuation of the whole system in which nobody but the dispatcher settles it: at most one stock command per seller order, a hold is untouched while its seller order owes nothing, and once the sellers' commands are marked processed it is consumed if delivered, released if returned or cancelled |
| ParcelStock.UntouchedIffQuiet | workers/saga-dispatcher/app/main.py:319-356 | for a completed, fully reserved order that holds something, every such continuation leaves the holds of sellers that owe nothing as they were if and only if the reservation row is processed or parked |
| ParcelStock.RunMirrors | workers/saga-dispatcher/app/main.py:405-423 | every such continuation is, for that order, a run of seller actions, events, sweeps, repeated stock commands and other orders' calls, and a processed stock command is one that ran |
| ParcelStock.LostAnswerExposesTheStock | workers/saga-dispatcher/app/main.py:302-356 | a run that completes an order, loses the answer to its report and so leaves its stock exposed |
| Protocol.ProtocolKeepsTheLedger | services/inventory-service/app/services/inventory_service.py:65-132 | after every run of the whole protocol, whatever is lost, refused, retried or late, levels and holds agree and units are conserved |
| Protocol.RunIsAHistory | workers/saga-dispatcher/app/main.py:302-423 | the stock after any protocol run is the stock after the inventory calls it made, in order |
| Protocol.StepsAreTheLoop | workers/saga-dispatcher/app/main.py:319-356 | always answered and undisturbed, the worker's single steps leave the stock, and report the event, that the uninterrupted loop would |
| StockLedger.EveryHistoryAgrees | services/inventory-service/app/services/inventory_service.py:65-132 | after any history of reserves, releases and consumes each product has available >= 0, reserved equal to its live holds plus order-less units, and available + reserved + consumed equal to its opening stock |
| StockLedger.SettleIsExactAfterAnyHistory | services/inventory-service/app/services/reservation_rules.py:157-175 | after any history a release or consume succeeds, clamps and refuses nothing, moves exactly the selected units, and reports the units that left the reserved columns over all products and the rows it settled |
| StockLedger.SettleIsExact | services/inventory-service/app/services/inventory_service.py:201-268 | in any agreeing database a release or consume moves each level by the units of the rows it selects, settles exactly those rows and counts them |
| StockLedger.ReportedUnitsMoved | services/inventory-service/app/services/inventory_service.py:252-268 | the reported units are the sum over all products of what left their reserved columns |
| StockLedger.ReserveKeepsAgreement | services/inventory-service/app/services/inventory_service.py:19-165 | every answer to a reserve, replays and refusals included, keeps levels and holds in agreement |
| StockLedger.SettleKeepsAgreement | services/inventory-service/app/services/inventory_service.py:304-368 | every release and consume keeps them in agreement |
| StockLedger.SpentKeysStaySpent | services/inventory-service/app/services/inventory_service.py:24-36 | a key once spent, by a grant or by an out-of-stock refusal, never moves stock again whatever happens in between |
| StockAnswers.ReservationIsAnswered | services/inventory-service/app/services/inventory_service.py:38-132 | under a new key: 400 if and only if nothing is asked for, 404 if nobody stocks it, 409 if the shelf is short, 500 if the order already holds it, 200 otherwise |
| StockAnswers.ReservationLeaves | services/inventory-service/app/services/inventory_service.py:65-132 | a grant moves exactly its units and adds one hold of them, a shortage only spends the key, no other refusal leaves a trace |
| StockAnswers.RepeatIsAnsweredOk | services/inventory-service/app/services/inventory_service.py:24-36 | after any history a repeated key is answered 200 and moves nothing, however its first use ended |
| StockAnswers.ReleaseNeverOverdraws | services/inventory-service/app/services/reservation_rules.py:128-175 | whatever a hold claims, a release loses no unit, leaves nothing reserved below zero and says when it gave back less |
| StockAnswers.ConsumeIsWholeOrRefused | services/inventory-service/app/services/reservation_rules.py:244-285 | a consume takes the whole hold or refuses |
| StockAnswers.NoLevelNoMove | services/inventory-service/app/services/reservation_rules.py:128-150 | without a level a release skips the hold and a consume refuses it |
| StockAnswers.RefusedWhole | services/inventory-service/app/services/inventory_service.py:201-268 | a settling call that is refused moves, settles and reports nothing |
| StockLedger.PlanIsFull | services/inventory-service/app/services/reservation_rules.py:268-285 | a hold covered by the reserved column is settled in full: no clamp, no skip, no drift refusal |
| Inventory.InventoryService.ReserveInventory | services/inventory-service/app/services/inventory_service.py:19-165 | the in-place reserve leaves exactly the database and answers exactly the status of the reserve specification |
| Inventory.InventoryService.SettleInventory | services/inventory-service/app/services/inventory_service.py:201-268 | the loop over the order's live holds, committed at the end and abandoned whole on a refusal, equals the settle specification with its unit and row counts |
| Reservation.ReservationIsAllOrNothing | workers/saga-dispatcher/app/main.py:307-356 | after any history, a fresh command for an order holding nothing ends with every planned product held at exactly its quantity, or with nothing held and every level as before; the former exactly when every planned product is on the shelf |
| Reservation.RefusalTellsWhy | workers/saga-dispatcher/app/main.py:334-352 | and when it is not held, the reported status is that of the first planned line not on the shelf: 409 if its product is short, 404 if nobody stocks it |
| Reservation.RollBackRestores | services/inventory-service/app/services/inventory_service.py:201-257 | releasing an order that holds a granted prefix of its lines restores every level and leaves it holding nothing |
| Reservation.GrantNext | workers/saga-dispatcher/app/main.py:319-331 | each line of a fresh command is granted on top of exactly the earlier lines, or refused with nothing moved; never a server error |
| Reservation.LineIsGrantedIffOnShelf | services/inventory-service/app/services/reservation_rules.py:65-102 | a line is granted if and only if its product was on the shelf in that quantity before the command started |
| Reservation.ReserveAll | workers/saga-dispatcher/app/main.py:319-356 | the loop over the inventory service leaves the database and outcome of the recursive specification |
| Disposition.StockFollowsTheParcel | services/order-saga/app/services/saga_orchestrator.py:473-565 | for a fully reserved order with one seller per product, after any interleaving of actions, events, sweeps, repeated stock commands and other orders' calls: at most one stock command per seller order, and once each has run every hold is consumed if delivered, released if returned or cancelled, untouched otherwise |
| Disposition.EveryRunIsOk | workers/saga-dispatcher/app/main.py:405-423 | in every such run the stock commands match the seller statuses one to one and each hold has the fate of its own seller's command |
| Disposition.ActionKeepsRowsOk | services/order-saga/app/services/cod_rules.py:251-283 | every action attempt keeps: each seller order has the stock command its status calls for, and no second one |
| Disposition.SettlingOneHold | services/inventory-service/app/services/inventory_service.py:288-357 | one scoped call settles its own seller's holds and leaves another seller's untouched |
| OrderSaga.ParentAndChildrenAgree | services/order-saga/app/services/saga_orchestrator.py:259-302 | in every committed state a live seller order past PENDING sits under ORDER_COMPLETED, an ended saga has no cancellable child, and no charge command was ever emitted |
| OrderSaga.NothingIsStuckUnderAnEndedOrder | services/order-saga/app/services/saga_orchestrator.py:324-406 | when an event ends a saga every child is cancellable or terminal, so the parcel-under-an-ended-order error is unreachable |
| OrderSaga.EveryRunIsSafe | services/order-saga/app/main.py:79-109 | the parent/child invariant holds after every sequence of events, seller actions and reaper sweeps |
| OrderSaga.CodDecision | services/order-saga/app/services/transitions.py:173-213 | for every COD state and event: exactly which are unknown, applied and compensated, where an applied one leads and what it emits; in particular PENDING is left exactly by a reservation that succeeded or failed |
| SagaFate.FirstDecisionIsFinal | services/order-saga/app/services/transitions.py:83-213 | over every run of events, seller actions and sweeps, under any keys: the saga is PENDING exactly until the first reservation outcome or stale sweep; reserved stock then completes it for good, a failure rolls it back for good, and a timeout stays one until something is reported given back under a key no late report of stock has used |
| SagaFate.FateIsAnnouncedOnce | services/order-saga/app/services/saga_orchestrator.py:170-322 | over every run OrderFailed is emitted once if the failure came first and never otherwise, SagaTimedOut once if the reaper came first and never otherwise, and the reservation command once |
| SagaFate.EventIsAnswered | services/order-saga/app/services/saga_orchestrator.py:170-258 | under a new key an event is answered 422 if and only if it is unknown, 200 if and only if the saga is finished or awaits it, 409 otherwise; what is not taken changes nothing |
| SagaFate.FailedReservationEndsTheOrder | services/order-saga/app/services/transitions.py:89-91 | at PENDING it is answered 200, ends in ROLLBACK_COMPLETED, cancels exactly the children that are pending, reserved or confirmed, and appends exactly one OrderFailed |
| SagaFate.ReservationCompletesTheOrder | services/order-saga/app/services/transitions.py:122-124 | at PENDING a reservation completes the order, moves exactly the PENDING children on and appends nothing |
| SagaFate.LateStockIsReturned | services/order-saga/app/services/transitions.py:149-164 | at TIMED_OUT or ROLLBACK_COMPLETED a reported reservation appends one release and changes no status |
| SagaFate.GivenBackClosesTheSaga | services/order-saga/app/services/transitions.py:96-104 | at TIMED_OUT a release or refund that is reported ends in ROLLBACK_COMPLETED with the rest of the children closed |
| SagaReports.AnsweredFailureIsHeard | workers/saga-dispatcher/app/main.py:334-352 | in every allowed run an answered report of a failed reservation leaves the order no longer PENDING, rolled back if it was, and its command processed if and only if the saga had not timed out |
| SagaReports.AnsweredReleaseClosesTheSaga | workers/saga-dispatcher/app/main.py:382-398 | in every allowed run an answered report of a whole-order release leaves the saga in ROLLBACK_COMPLETED and the command processed |
| SagaReports.ProcessedMeansHeard | workers/saga-dispatcher/app/main.py:302-356 | in every allowed run an order whose reservation command is processed is no longer PENDING |
| SagaReports.RowsAreARun | workers/saga-dispatcher/app/main.py:302-462 | in every run of the whole system an order's rows are those of a run of its own saga from the split of the payload it was placed with, so every result about sagas holds inside the protocol |
| SellerCoverage.PlacingAnOrder | services/order-saga/app/services/saga_orchestrator.py:76-167 | an order is placed if and only if its id is new and its payload acceptable, and then has the planner's reading of it, one reservation command, and one PENDING seller order per seller named, each with exactly the products of that seller's entries |
| SellerCoverage.OrdersAreAnswerable | services/order-saga/app/services/saga_orchestrator.py:507-519 | in every run every order's seller orders still answer for exactly the products their sellers' entries name |
| SellerCoverage.EveryPlannedProductIsSold | workers/saga-dispatcher/app/dispatch_rules.py:95-152 | in every run the planned products of an order are exactly those on its seller orders |
| SellerCoverage.SellersEmptyTheOrder | services/order-saga/app/services/saga_orchestrator.py:473-565 | in every allowed run, once every line was attempted and every seller order has had a stock command processed since, the order holds nothing at all |
| Recovery.EndedOrderCanBeEmptied | workers/saga-dispatcher/app/main.py:302-403 | after any allowed run an ended order that holds units, none of whose reserve and release commands is parked, has an allowed continuation after which it holds nothing |
| Recovery.ReleaseCanBeFinished | workers/saga-dispatcher/app/main.py:382-398 | after any allowed run a whole-order release neither processed nor parked has a continuation after which the order holds nothing, the release is processed and the saga rolled back |
| Recovery.FailedLineIsUndoneOrRetried | workers/saga-dispatcher/app/main.py:319-346 | a line call refused below 500 sends the order to its rollback; refused above, shed or lost, the command is only put off |
| Recovery.OtherCommandIsDone | workers/saga-dispatcher/app/main.py:435-458 | a timeout notice is finished whatever happens; an escrow booking is finished by an answer, parked by a hopeless refusal or the fifteenth failure, and kept otherwise |
| Recovery.CrashMarksTheRow | workers/saga-dispatcher/app/main.py:475-478 | for any order and row: a worker that dies with it has it marked processed, without a call, at the next claim |
| ParcelLife.EveryParcelCameByItsSteps | services/order-saga/app/services/cod_rules.py:92-146 | over every run each seller order has taken exactly the requests, in order, that lead to its status: delivered only after confirm, dispatch and deliver, returned only after confirm, dispatch, mark_rto and complete_return, and so on |
| ParcelLife.RequestIsAnswered | services/order-saga/app/services/cod_rules.py:251-288 | a request is answered 200 if and only if it is one of the options of the status and says why if it stops or turns round a parcel, 422 if it is unknown or lacks that reason, 409 otherwise; what is not taken changes nothing |
| ParcelLife.NobodyThere | services/order-saga/app/services/saga_orchestrator.py:473-490 | a request is answered 404 if and only if there is no such seller order |
| ParcelLife.FirstStageIsTold | services/order-saga/app/services/split_rules.py:203-231 | the buyer is told stage k of the parcel's way if and only if some child is at it and none at an earlier one |
| ParcelLife.BadEndingIsTold | services/order-saga/app/services/split_rules.py:220-231 | with every child cancelled or returned the buyer is told RETURNED if any came back and CANCELLED otherwise |
| OrderSaga.EscrowIsBookedOncePerDelivery | services/order-saga/app/services/saga_orchestrator.py:473-565 | over every run a seller order has exactly one escrow booking command if it was delivered and none otherwise |
| OrderSaga.BuyerStatusNeverRegresses | services/order-saga/app/services/split_rules.py:203-243 | along any run from any rows the buyer-facing status never falls back, and stays put once the order is complete |
| OrderSaga.ChildrenToCancel | services/order-saga/app/services/cod_rules.py:191-214 | the positions returned are, in increasing order, exactly the cancellable children of an ended saga |
| OrderSaga.OrderSagaService.constructor | services/order-saga/app/services/saga_orchestrator.py:76-167 | a new saga has one PENDING child per seller plan, one reservation command and no keys; which products a child has is SellerCoverage.PlacingAnOrder |
| OrderSaga.OrderSagaService.AdvanceSaga | services/order-saga/app/services/saga_orchestrator.py:170-322 | the transaction leaves the rows and answers the status of the event specification, idempotency, compensation and child cascade included; what that specification does is SagaFate |
| OrderSaga.OrderSagaService.CancelChildrenOfEndedSaga | services/order-saga/app/services/saga_orchestrator.py:324-406 | under an ended saga exactly the cancellable children become CANCELLED, and the reported list is exactly the live children it could not touch |
| OrderSaga.OrderSagaService.PushReservation | services/order-saga/app/services/saga_orchestrator.py:283-302 | exactly the PENDING children become INVENTORY_RESERVED |
| OrderSaga.OrderSagaService.TransitionSellerOrder | services/order-saga/app/services/saga_orchestrator.py:473-565 | an accepted action moves one child and emits its booking and its stock command; a refused one changes nothing |
| OrderSaga.OrderSagaService.ReaperSweep | services/order-saga/app/main.py:79-227 | a stale PENDING saga times out and the children of an ended saga are closed, in one step |
| SellerOrders.EndingMeansComplete | services/order-saga/app/services/split_rules.py:233-243 | the buyer sees SETTLED, RETURNED or CANCELLED if and only if the order is complete, which is if and only if no child has an action left |
| SellerOrders.DerivedStatusIsOrderFree | services/order-saga/app/services/split_rules.py:203-231 | the derived status and completeness do not depend on the order of the children |
| SellerOrders.DerivedStatusNeverRegresses | services/order-saga/app/services/split_rules.py:66-83 | when every child advances or stays, the derived status does not fall back, and a complete order keeps it |
| SellerOrders.SlowestIsLeast | services/order-saga/app/services/split_rules.py:203-231 | the derived status of an order with active children is one of theirs and none is behind it |
| SellerOrders.SomeActionUnlessTerminal | services/order-saga/app/services/cod_rules.py:239-283 | a status is terminal if and only if every action, reasoned or not, is refused in it |
| OrderLines.SplitBySeller | services/order-saga/app/services/split_rules.py:131-190 | the grouping loop computes the split, or refuses; which payloads it accepts and what the plans hold is in Payload |
| OrderLines.SplitConserves | services/order-saga/app/services/split_rules.py:131-200 | the seller orders hold every parsed line exactly once and their subtotals sum to its line totals; the same on the entries' own fields is Payload.SplitTellsThePayload |
| Payload.AcceptedIff | services/order-saga/app/services/split_rules.py:131-174 | a payload is split if and only if some entry is an object and every object names a seller and a product, a positive quantity, a price and a line total of at least zero |
| Payload.SplitTellsThePayload | services/order-saga/app/services/split_rules.py:131-200 | on the entries' own fields, for every accepted payload: one seller order per seller named, in strict seller order; its lines are copy for copy the product, quantity, price and line total of that seller's entries, its subtotal their line totals; and the subtotals add up to all line totals |
| Payload.PlanTellsThePayload | workers/saga-dispatcher/app/dispatch_rules.py:95-152 | on the entries' own fields: a payload is planned if and only if it is not empty and every entry names a product and a positive integer quantity or none; the plan names each product once, in order, for all units asked for, one where none is given; otherwise the error is the fault of the first entry that has one |
| OrderLines.GroupBySeller | services/order-saga/app/services/split_rules.py:131-174 | the dictionary built by the loop maps each seller to exactly its lines in payload order |
| OrderLines.SplitIsSorted | services/order-saga/app/services/split_rules.py:131-190 | seller orders come in strict seller order, each non-empty, with its own seller's lines only, in product order |
| OrderLines.SplitIsOrderFree | services/order-saga/app/services/split_rules.py:131-190 | permuting the payload leaves the split unchanged when no (seller, product) pair repeats |
| OrderLines.PlanItemReservations | workers/saga-dispatcher/app/dispatch_rules.py:95-152 | the accumulating loop computes the plan, or the error of the first bad entry |
| OrderLines.PlanAgreesWithSplit | workers/saga-dispatcher/app/dispatch_rules.py:95-152 | for every well-typed payload the splitter accepts, the planner accepts it too, its lines strictly increase by product, every product on a seller order is planned, and each for exactly its units across all seller orders |
| OrderLines.SplitIsPlannable | services/order-saga/app/services/split_rules.py:112-128 | a payload that splits is planned if and only if every entry is an object with an integer quantity |
| OrderLines.SplitButNotPlannable | services/order-saga/app/services/split_rules.py:112-128 | two payloads that split and are refused by the planner |
| OrderLines.PlanIsWellFormed | workers/saga-dispatcher/app/dispatch_rules.py:95-152 | a usable plan has positive quantities and no product twice |
| OrderLines.PlanIsOrderFree | workers/saga-dispatcher/app/dispatch_rules.py:95-152 | permuting the payload leaves a usable plan unchanged |
| Outbox.LifecycleIsSound | workers/saga-dispatcher/app/main.py:126-213 | in every run, crashes included, a row is never both processed and parked, and while unparked it has fewer than 15 attempts |
| Outbox.ProcessedMeansSettled | workers/saga-dispatcher/app/main.py:464-540 | without a crash a row is processed if and only if some attempt was settled by the handler |
| Outbox.CrashMarksProcessedUnhandled | workers/saga-dispatcher/app/main.py:475-478 | with a crash it is not: a run that ends processed though no attempt was settled |
| Outbox.SheddingNeverParks | workers/saga-dispatcher/app/main.py:496-516 | after any run, shedding load does not park the row |
| Outbox.EndsWithinFifteenTries | workers/saga-dispatcher/app/main.py:509-540 | whatever the handler answers, a row that has spent fifteen tries is processed or parked |
| Outbox.ParksOnTheFifteenth | workers/saga-dispatcher/app/dispatch_rules.py:372-383 | a row that only fails retryably is parked if and only if it has spent exactly fifteen tries, sheds not counted |
| Outbox.TotalBackoffIsBounded | workers/saga-dispatcher/app/dispatch_rules.py:340-370 | its scheduled waits then total more than 1155 and at most 2310 seconds for every jitter sequence |
| Outbox.BackoffIsBetween | workers/saga-dispatcher/app/dispatch_rules.py:349-370 | jitter never lengthens a wait and never halves it |
| Outbox.OutboxRow.Claim | workers/saga-dispatcher/app/main.py:126-157 | a row is claimed if and only if it is unprocessed, unparked, not before its next attempt, and unclaimed or claimed more than 120 seconds ago |
| OutboxClock.EveryWaitIsWaited | workers/saga-dispatcher/app/main.py:137-147 | in every run, crashes included and whatever the clock does, once a try put the row off nobody takes it before that wait has passed |
| OutboxClock.ParksAfterNineteenMinutes | workers/saga-dispatcher/app/dispatch_rules.py:340-383 | a row that only fails retryably is parked more than 1155 seconds of clock time after its first try |
| OutboxClock.LeaseKeepsOthersOut | workers/saga-dispatcher/app/main.py:144-147 | with a clock that never runs back, a row whose worker never let go of it is taken by nobody else within 120 seconds |
| OutboxClock.NoRowIsLeftBehind | workers/saga-dispatcher/app/main.py:126-157 | five minutes after any run a row can be taken if and only if it is neither processed nor parked |
| OutboxClock.WaitsDouble | workers/saga-dispatcher/app/dispatch_rules.py:349-370 | without jitter the first wait is two seconds and each next one double, up to five minutes |
| Outbox.AnswerDecides | workers/saga-dispatcher/app/dispatch_rules.py:312-337 | a downstream answer finishes the row if and only if it is a success, parks it if and only if it is one of 400, 404, 409, 410, 422 or the fifteenth failure, and otherwise spends one try and puts it off |
| Outbox.ReportDecides | workers/saga-dispatcher/app/dispatch_rules.py:34-61 | a report finishes the row if and only if it is answered below 300 or 422, and the fifteenth other answer parks it |
| Outbox.SheddingIsFree | workers/saga-dispatcher/app/main.py:496-516 | shedding load spends no try, frees the row and puts it off |
| Outbox.OutboxRow.ProcessOne | workers/saga-dispatcher/app/main.py:464-540 | one attempt leaves the delivery columns of the specification, and answers true exactly when the row left the queue |
| CartRefinement.CacheIsInvisible | services/cart-service/app/services/cart_service.py:42-72 | over every run of adds, reads, checkouts, sweeps, evictions and ticks the cached service answers, stores and publishes exactly what a service without a cache does; a live key has the row's items and expires no later |
| CartRefinement.AnswerRefines | services/cart-service/app/services/cart_service.py:82-222 | each single call does, and keeps that coherence |
| CartRefinement.RewarmIsCoherent | services/cart-service/app/services/cart_service.py:53-72 | writing a rehydrated cart back never lets the key outlive its row |
| CartRefinement.SweepIsCoherent | services/cart-service/app/main.py:56-92 | a sweep never closes the row behind a live key |
| CartRefinement.UpsertKeepsOneActive | services/cart-service/app/services/cart_service.py:107-124 | an add leaves one active row, holding the merged items for an hour |
| CartRefinement.AddWarmsTheCache | services/cart-service/app/services/cart_service.py:100-131 | for an hour after an add the cart is served from the cache as the add left it |
| CartRefinement.ReadWarmsTheCache | services/cart-service/app/services/cart_service.py:53-72 | a read that had to go to the database puts the cart back for the whole seconds it has left, an hour at most |
| CartRefinement.CheckoutNeverConflicts | services/cart-service/app/services/cart_service.py:158-176 | in serial runs from empty stores a checkout is never refused with a conflict |
| Basket.CartIsOneBasket | services/cart-service/app/services/cart_cache_rules.py:95-145 | over every run from empty stores the answers are those of a single basket with a one-hour deadline, each product at the sum of what was added, and the checkout events carry exactly the baskets checked out, in order |
| Basket.PlainRunTells | services/cart-service/app/services/cart_service.py:82-131 | rows, statuses and sweeps tell of that one basket after every run |
| CartSweeps.RunOutCartsAreClosed | services/cart-service/app/main.py:56-71 | after the first sweep no cart is open past its expiry, and exactly those that were have been closed, now |
| CartSweeps.StaleCheckoutsAreReclaimed | services/cart-service/app/main.py:78-92 | after the second no checkout is under way that was not touched for 600 seconds, and exactly those that were have been reclaimed, now |
| CartSweeps.CheckoutHasTenMinutes | services/cart-service/app/main.py:73-92 | whatever happens meanwhile, the next sweep for abandoned checkouts reclaims a cart if and only if more than 600 seconds have passed since its checkout was initiated |
| CartSweeps.EveryExpiryIsAnnouncedOnce | services/cart-service/app/main.py:56-92 | over every run a cart is announced as expired once if it is and never otherwise, and a checkout under way was announced once |
| CartSweeps.EveryAnnouncementIsRight | services/cart-service/app/main.py:56-92 | over every run each announcement, of an expiry or of a checkout, carries the items of the closed row it speaks of |
| Cart.SweepTreatsEachRow | services/cart-service/app/main.py:56-92 | a sweep expires exactly the rows its condition selects and changes no other |
| Cart.CartService.ResolveFromBoth | services/cart-service/app/services/cart_service.py:42-51 | the view read from both stores and the active row it found, if any |
| Cart.CartService.Get | services/cart-service/app/services/cart_service.py:207-222 | the read and its rewarming leave the stores and answer of the specification, touching only the cache |
| Cart.CartService.Add | services/cart-service/app/services/cart_service.py:82-131 | the add leaves the stores and answer of the specification, replayed keys included |
| Cart.CartService.Checkout | services/cart-service/app/services/cart_service.py:147-197 | the checkout leaves the stores and answer of the specification, with its three refusals |
| Cart.CartService.RunSweep | services/cart-service/app/main.py:56-109 | the sweeping loop leaves the rows and events of the specification and the cache alone |
| CheckoutRace.NoDoubleCheckout | services/cart-service/app/services/cart_service.py:133-205 | however checkouts interleave with each other and everything else, and wherever the lock lapses, each cart row is announced at most once and is closed for good once announced |
| CheckoutRace.HolderExcludesOthers | services/cart-service/app/services/checkout_lock.py:29-57 | while a holder is within its TTL and unfinished the lock stays its own and every newcomer is turned away |
| CheckoutRace.BeginningLocksForTenSeconds | services/cart-service/app/services/checkout_lock.py:29-52 | a checkout that begins with the lock free keeps every newcomer out for ten seconds unless it ends |
| CheckoutRace.NobodyIsLockedOutForLong | services/cart-service/app/services/checkout_lock.py:29-52 | ten seconds after any run a new checkout gets through, whoever never finished |
| CheckoutRace.FinishingFreesTheLock | services/cart-service/app/services/checkout_lock.py:55-57 | ending a checkout that holds the lock lets the next one in at once |
| CheckoutRace.OneCheckoutPerKey | services/cart-service/app/services/cart_service.py:147-176 | under one idempotency key a checkout is committed at most once, whatever happens in between |
| CheckoutRace.FinishSparesOtherOwners | services/cart-service/app/services/checkout_lock.py:26-32 | finishing never frees a lock held under another token |
| CheckoutSafety.CoherentOutsideTheWindow | services/cart-service/app/services/cart_service.py:189-197 | in every interleaving in which a committed checkout deletes the key before it releases the lock, a live key agrees with the active row unless some request has committed and not yet deleted it |
| CheckoutSafety.EveryRunIsLinked | services/cart-service/app/services/cart_service.py:82-131 | in every interleaving at all, at most one row is active, and while one is a live key holds its items and expires no later |
| CheckoutSafety.AddRepeatsIff | services/cart-service/app/services/cart_service.py:82-131 | in every interleaving an add opens a cart holding more than what it adds if and only if its idempotency key is new, the Redis key is live and no row is active |
| CheckoutSafety.NoRepeatOutsideTheWindow | services/cart-service/app/services/cart_service.py:186-197 | so an add repeats nothing while no request stands between its commit and its key deletion |
| CheckoutRace.AddBeforeKeyDeletionRepeatsItems | services/cart-service/app/services/cart_service.py:186-197 | inside that window the next cart starts with exactly the items just checked out |
| CheckoutSafety.NoAddNoLoss | services/cart-service/app/services/cart_service.py:147-186 | in every interleaving, a checkout with no add accepted between its read and its claim appends one outbox record carrying exactly the items of the row it closes |
| CheckoutSafety.AnnouncesTheRowIff | services/cart-service/app/services/cart_service.py:147-186 | for a request that closes the cart it read before that cart ran out, the outbox record it appends carries what it read, and that is what the closed row holds if and only if no add was accepted in between |
| CheckoutSafety.AddBeforeTheClaimIsLost | services/cart-service/app/services/cart_service.py:147-197 | a run in which an item added between read and claim is closed with the cart, announced to nobody and gone from the cache |
| CheckoutRace.KeyOutlivesTheCommit | services/cart-service/app/services/cart_service.py:186-197 | a run that reaches that window |
| CheckoutRace.RedisLock.Acquire | services/cart-service/app/services/checkout_lock.py:49-52 | acquires if and only if nobody owns the lock, and then owns it |
| CheckoutRace.RedisLock.Release | services/cart-service/app/services/checkout_lock.py:55-57 | deletes if and only if the caller owns the lock; another owner keeps it |
| AuditChain.AppendsVerify | services/audit-service/app/services/audit_service.py:60-97 | every sequence of appends verifies without a break |
| AuditChain.SameTailSameHistory | services/audit-service/app/services/audit_rules.py:85-139 | two non-empty intact chains with the same final hash are equal record by record |
| AuditChain.RewriteUnderTheSameTailBreaks | services/audit-service/app/services/audit_rules.py:85-139 | deleting, inserting, reordering or rewriting records under an unchanged final hash is always reported |
| AuditChain.EditIsPinpointed | services/audit-service/app/services/audit_rules.py:68-139 | editing any hashed field but the sequence yields exactly one break, a hash mismatch at that record |
| AuditChain.AnyEditIsReported | services/audit-service/app/services/audit_rules.py:68-139 | editing any hashed field, the sequence too, reports that record first and nothing before it |
| AuditChain.TruncationIsInvisible | services/audit-service/app/services/audit_rules.py:85-139 | an intact log cut short verifies as intact |
| AuditChain.EveryFaultIsReported | services/audit-service/app/services/audit_rules.py:85-139 | a break of each kind is reported at a record if and only if its own fields have it: a wrong link, a wrong hash, a number not above the last one given, or one that skips |
| AuditChain.CleanMeansNoBreaks | services/audit-service/app/services/audit_rules.py:85-139 | the report is empty if and only if every record is linked, hashed and numbered right |
| AuditChain.VerifyChain | services/audit-service/app/services/audit_rules.py:85-139 | the loop reports exactly the breaks of the recursive definition, in order |
| AuditChain.AuditLog.AppendRecord | services/audit-service/app/services/audit_service.py:60-97 | one record is added, numbered one past the last, and the table stays exactly what its appends wrote |
| Escrow.BooksAreRight | services/payment-service/app/services/escrow_service.py:108-277 | after any run of bookings, repeats and refusals included, the ledger sums to zero and every account is the closed sum over the requests: a seller is owed collected less commission for each delivery that is the first of its seller order less payouts, couriers owe first deliveries less first settlements, cash is remitted less paid out, revenue is the commissions |
| Escrow.BookMeetsExpectation | services/payment-service/app/services/escrow_service.py:143-265 | each single booking moves the ledger exactly as that running account |
| Escrow.BookingIsAnswered | services/payment-service/app/services/escrow_service.py:143-265 | after any run: a booking is answered 200 if and only if it repeats one or its amounts can be taken, 503 if the rate is unavailable, 409 without a contract, 422 otherwise, and adds a transaction if and only if it is answered 200 and repeats nothing |
| Escrow.EveryTransactionBalances | services/payment-service/app/services/ledger_rules.py:118-132 | every transaction ever committed sums to zero |
| Escrow.ReportedDeltaIsReal | services/payment-service/app/services/escrow_service.py:143-265 | after any run the reported change in what the seller is owed is the change in the seller's balance |
| Escrow.DeliveryBalances | services/payment-service/app/services/ledger_rules.py:135-169 | a delivery balances, charges the courier what was collected, credits the seller that less commission and recognises the commission |
| Escrow.SettlementBalances | services/payment-service/app/services/ledger_rules.py:172-197 | a settlement turns the courier's debt into cash and changes nobody's claim |
| Escrow.PayoutBalances | services/payment-service/app/services/ledger_rules.py:200-218 | a payout balances and reduces that one seller's claim and the cash |
| Escrow.CommissionIsAShare | services/payment-service/app/services/ledger_rules.py:97-115 | a commission lies between nothing and its own amount |
| Escrow.CommissionIsRoundedDown | services/payment-service/app/services/ledger_rules.py:97-115 | a commission is the exact share in basis points, rounded down to a minor unit |
| Escrow.RoundingLossIsBounded | services/payment-service/app/services/ledger_rules.py:97-115 | over n distinct deliveries at one rate the commission booked never exceeds the commission on the sum and falls short by at most n - 1 minor units |
| Escrow.EscrowService.IsBooked | services/payment-service/app/services/escrow_service.py:108-115 | the search finds a booking of that seller order and reason if and only if there is one |
| Escrow.EscrowService.WriteEntries | services/payment-service/app/services/escrow_service.py:117-141 | a transaction is appended if and only if it is non-empty and sums to zero |
| Escrow.EscrowService.BookEscrow | services/payment-service/app/services/escrow_service.py:143-265 | the three bookings leave the ledger and give the answer of the specification, refusals and repeats included |
| Payments.RefundIsSafe | services/payment-service/app/services/payment_service.py:138-233 | over every run an order is settled at most once, and with at most one successful charge its net is the charge or nothing, never negative, and nothing if and only if there was no charge or it was reversed |
| Payments.RepeatedRefundAppendsNothing | services/payment-service/app/services/refund_rules.py:58-104 | once settled, a refund repeated after anything else appends nothing |
| Payments.ReplayedKeyAppendsNothing | services/payment-service/app/services/charge_rules.py:62-106 | a key that has charged once never appends again, whatever it carries and whatever happened in between |
| Payments.SettledStays | services/payment-service/app/services/payment_service.py:138-233 | a refund answered 200 leaves the order settled |
| Payments.EveryRowIsAnnounced | services/payment-service/app/services/payment_service.py:27-121 | over every run each ledger row has exactly one event, for its own order and of its own kind |
| Payments.RefundSquaresIff | services/payment-service/app/services/refund_rules.py:58-104 | read off the books before the call: with at most one charge a refund is answered, and the order nets to zero afterwards if and only if nothing was charged, nothing was settled yet or the charge was already reversed |
| Payments.RefundIsAnsweredIff | services/payment-service/app/services/payment_service.py:122-160 | in any books a refund is answered 200 if and only if the order has at most one successful charge, and with more it answers 500 after every continuation too |
| Payments.TwoChargesBlockTheRefund | services/payment-service/app/services/payment_service.py:138-160 | two charges under different keys reach such books |
| Payments.ChargeAfterNoopIsKept | services/payment-service/app/services/refund_rules.py:58-104 | after a no-op refund a later charge stays with the platform: the next refund still nets to the whole charge |
| Payments.NoopThenCharge | services/payment-service/app/services/payment_service.py:138-233 | one refund and one charge reach such a ledger |
| Payments.PlainSumIsTheNetUnlessDeclined | services/payment-service/app/services/refund_rules.py:107-113 | over every run the sum of all of an order's rows is its net position if and only if none of its charges was declined |
| Payments.DeclinedChargeSpoilsTheSum | services/payment-service/app/services/payment_service.py:17-19 | one declined charge of any amount: the net is zero and the rows sum to that amount |
| Payments.PaymentService.Select | services/payment-service/app/services/payment_service.py:138-160 | the rows returned are exactly those that pass the test, in order |
| Payments.PaymentService.ProcessCharge | services/payment-service/app/services/payment_service.py:27-121 | the charge leaves the books and answer of the specification, replays included; what that takes is in Charging |
| Charging.ChargedIsWhatWasAsked | services/payment-service/app/services/payment_service.py:27-121 | over every run what an order has been charged is the sum of the amounts requested for it, each key counted once, at its first use with a positive amount, and the declined token not at all |
| Charging.ChargeTakesTheAmount | services/payment-service/app/services/payment_service.py:69-85 | under a new key a charge of at least one appends one row of exactly the requested amount, successful if and only if the token is not the declined one, and moves that order's net by it and nobody else's |
| Charging.ChargeIsAnswered | services/payment-service/app/services/charge_rules.py:62-106 | a charge is answered 422 if and only if it asks for less than one, 409 if and only if its key names a row that cannot be read, 201 otherwise, and changes the books if and only if it asks for something under a new key |
| Charging.NoChargeIsPutOff | services/payment-service/app/services/charge_rules.py:62-106 | so in every run a charge is answered 201 exactly when it asks for something |
| Charging.RepeatIsAnsweredFromTheFirst | services/payment-service/app/services/payment_service.py:35-66 | over every run a key names the row its first use wrote, with that order, amount and outcome |
| Charging.RefundReportsTheMoney | services/payment-service/app/services/refund_rules.py:58-104 | the first refund of an order reports what it had been charged and takes exactly that off its net |
| Charging.RepeatedRefundReportsTheSame | services/payment-service/app/services/refund_rules.py:58-104 | every later refund that is answered, after anything else, reports the same money |
| Payments.PaymentService.ProcessRefund | services/payment-service/app/services/payment_service.py:138-233 | the refund leaves the books and answer of the specification |
| Breaker.NeverWedges | shared/libs/python-common/resilience.py:102-176 | after any interleaving, with nothing in flight and the reset time past, the next call is admitted |
| Breaker.CallEntersIff | shared/libs/python-common/resilience.py:102-162 | a call enters if and only if there is room and the circuit is closed, open past its reset time, or half-open with no probe out; without room the bulkhead turns it away |
| Breaker.FailureShutsFromThen | shared/libs/python-common/resilience.py:137-156 | a failed probe, or the failure that reaches the threshold, shuts the circuit for the reset time counted from then, unless a call in flight succeeds |
| Breaker.OpeningForgets | shared/libs/python-common/resilience.py:148-156 | after opening at the threshold, fewer than that many further failures do not start the reset time again |
| Breaker.EveryRunIsSound | shared/libs/python-common/resilience.py:102-176 | in every run in-flight is within the limit, failures below the threshold, and the probe flag implies half-open with a call in flight, even when the bulkhead turned the probe away |
| Breaker.OpenKeepsCallsOut | shared/libs/python-common/resilience.py:102-120 | once open, until the reset time has passed no call enters unless one already in flight succeeds |
| Breaker.OpensAtTheThreshold | shared/libs/python-common/resilience.py:130-156 | the circuit is closed if and only if fewer than threshold calls in a row have failed since the last success |
| Breaker.AnyEndClearsTheProbe | shared/libs/python-common/resilience.py:122-156 | any call that ends clears the probe flag |
| Breaker.SingleProbeIff | shared/libs/python-common/resilience.py:110-120 | from an open circuit past its reset time, at most one probe is in flight in every half-open continuation if and only if nothing was in flight or the limit is one |
| Breaker.ProbesOneAtATime | shared/libs/python-common/resilience.py:110-120 | half-opened with nothing else in flight, the calls in flight are the probes, at most one, and the flag says which |
| Breaker.StaleCallAdmitsSecondProbe | shared/libs/python-common/resilience.py:130-136 | otherwise, below a limit of two or more and with the bulkhead full or not, 4xx endings of earlier calls let two probes in together |
| Breaker.AsyncCircuitBreaker.constructor | shared/libs/python-common/resilience.py:74-96 | a closed, idle breaker within its limits |
| Breaker.AsyncCircuitBreaker.Begin | shared/libs/python-common/resilience.py:102-162 | admission and bulkhead leave the fields and verdict of the specification and keep the breaker sound |
| Breaker.AsyncCircuitBreaker.End | shared/libs/python-common/resilience.py:122-176 | a call's end leaves the fields of the specification and keeps the breaker sound |
| Reindex.RunPass | workers/reindex-worker/app/main.py:140-168 | for any batch size, whatever is inserted between queries, the pass visits every row present at its start, in key order, nothing outside the table, and ends once the table stops growing |
| Reindex.VisitedOnce | workers/reindex-worker/app/main.py:83-106 | rows visited in key order are visited once each |
| Reindex.BatchKeepsProgress | workers/reindex-worker/app/reindex_rules.py:249-260 | a full batch extends what was visited in order, and every row of the start is visited or past the new cursor |
| Reindex.LastBatchCompletes | workers/reindex-worker/app/reindex_rules.py:263-265 | a short batch means every row present at the start has been visited |
| Reindex.FewerRemain | workers/reindex-worker/app/main.py:83-106 | a full batch leaves strictly fewer rows past the cursor |
| Reindex.UndatedRowsAreSkipped | workers/reindex-worker/app/main.py:83-106 | past a real cursor a row without a creation time is never selected |
| Reindex.PassIsCompleteIff | workers/reindex-worker/app/main.py:140-168 | over an in-order table that does not change, the pass ends having visited every row if and only if every row has a creation time or the table is shorter than a batch |
| Reindex.PassEndsIff | workers/reindex-worker/app/reindex_rules.py:249-265 | and it ends if and only if it is not the case that the dated rows are fewer than a batch while the table is not |
| Reindex.PassVisitsTheDated | workers/reindex-worker/app/main.py:83-106 | with at least a batch of dated rows it ends having visited exactly the dated rows, in order |
| Reindex.PassLoops | workers/reindex-worker/app/reindex_rules.py:249-260 | with fewer dated rows than a batch and a full first batch it has not ended after any number of batches |
| Reindex.UndatedRowIsMissed | workers/reindex-worker/app/main.py:83-106 | a two-row table whose pass ends without its undated row |
| Reindex.UndatedRowRestartsThePass | workers/reindex-worker/app/reindex_rules.py:249-260 | a one-row table whose pass never ends |

## Left out

- The card payment path: the PAID arm of the reaper and any leak statement for card orders; the reaper's refund-only arm makes it false there.
- HTTP routes, gateways, Kafka, Debezium, Redis and Postgres clients, tracing, logging, bootstrap and deployment.
- SHA-256 and JSON canonicalisation: one abstract digest of the previous hash and the hashed fields.
- Database locks, `SKIP LOCKED`, lock timeouts and failed commits: transactions are committed, serial steps.
- Batching and ordering of claims in the dispatch loop: any row may be claimed next, which covers every batch.
- Notifications, webhooks, media, catalog, rate limits, seller scope, courier mapping and topology: single-branch decisions that would add only easy members.
- Ranking and metrics in floating point, and the Node circuit breaker.
- Payload text, event details and timestamps other than those used for expiry, lease, backoff and scan order.
- Document building, the skip of documents already up to date and the orphan reaper of reindex-worker.
- Reservation.ReservationIsAllOrNothing: is about a first delivery of the command; what a retried one holds is in ReservationReport.
- CartRefinement.CacheIsInvisible: is about serial calls; interleaved checkout stages are in CheckoutRace and CheckoutSafety.
- Reindex.RunPass: counts rows visited, not the writes to the search index.

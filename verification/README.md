# Seat reservation and payment: a verified model

This project models the correctness core of a ticketing backend: seats are held for a few minutes, an
order is opened over held seats, a payment gateway is asked for money and may never answer, and a
confirmation turns held seats into sold ones. Around the database stand a lossy Redis gate and a
short-lived seatmap cache. `dafny verify dfyconfig.toml` checks everything.

The model has three layers.

1. **Tables and transactions.** `Tables` is the schema as values, `Transactions` says what each
   transaction does to it in one go, `Invariants` and `History` prove what every transaction keeps and
   what follows for arbitrary histories, `Effects` says column by column what each transaction of the
   saga leaves behind, `Resale` when a seat can be sold. `Statements` is the same tables in place, one
   method per SQL statement; `OrderTransactions` and `HoldService` string the statements together as
   the services do and are proved to compute exactly the functions of `Transactions`, rollbacks included.
2. **Interleaving.** `Saga` is the payment saga as a step machine: one step per transaction and per
   gateway message, any number of concurrent calls of place, reconcile and cancel, lost replies,
   aborted transactions, stops between any two steps. `SagaSafety`, `Cancellations` and
   `GatewayNumbers` hold with no assumption about scheduling. `SagaMoney` proves money conservation
   under seven named assumptions; `SagaLimits` and `SagaRuns` show that none can be left out, with a run
   from the start for each that breaks only this one. `OrderService` is the service as programs:
   each call takes the world where the machine's driver takes it, whatever happens at every await, so
   the theorems about runs are theorems about the programs; `ServiceAnswers` proves that what they
   answer is true of the tables. `HoldProtocol` takes seat holding apart
   into lock, snapshot, row-lock, write and commit steps; `HoldTheorems` proves that these interleaved
   steps are a history of whole transactions, and proves quota, deadlock freedom and termination;
   `HoldRefusals` proves that they refuse nothing without a reason.
   `LazyExpiry` is the simulation between a database that is swept and one that is not.
   `ReconcilerDrains` proves progress of the reconciler under any interference by others.
3. **The layers in front.** `SeatGate` and `GateClient` are the Lua scripts and their client;
   `HoldService` proves the gate transparent. `SeatmapCache` is the single-flight cache. `FakeGateway`
   is the gateway used for fault injection.

Time is an integer clock in seconds (milliseconds in the gate). A row of `schedule_seats` is named by
(schedule, seat), which a UNIQUE constraint makes equivalent to its id. What a call cannot choose is a
parameter: clock readings, the number a sequence hands out, the rows another worker has locked, the
fate of every Redis round trip, and for the saga a *plan* (what others do at each await, whether the
transaction aborts, whether a reply arrives). I/O, connection pools and the HTTP layer are not modelled.

## Findings

- A seat that was sold and cancelled can be held again but never confirmed again: its order item stays
  and is UNIQUE. The design document promises restored stock (docs/design.md:191); the code refunds the
  next buyer. `History.RestoredSeatIsNeverSoldAgain` proves it for every later history,
  `Resale.ConfirmedIffNeverSold` says exactly when an order is confirmed, and
  `Resale.RestoredSeatDisappoints` gives a history for every seat of every fresh inventory.
- `release` says its result leaves out expired seats (app/service/hold_service.py:154); the statement has
  no expiry test. `LazyExpiry.ReleaseReportsExpiredHolds` gives the exact condition,
  `LazyExpiry.ReleaseReturnsAnExpiredSeat` an input.
- Asking for a seat that does not exist can be answered with the quota verdict;
  `History.UnknownSeatReadsAsQuota` says exactly when.
- At the instant a hold expires the seat is neither live nor claimable, because both comparisons are
  strict: `History.NobodysInstant`.
- Money conservation needs what the code does not enforce: no reconcile and no cancel of an order that
  a driver is working on, no webhook between a failed confirmation and the record of its refund, no
  inquiry while an approval is undecided, no refund that moves money with its reply lost, no stop and no
  abort between an approved refund and its record. `SagaRuns.EveryAssumptionIsNeeded`: drop any one of
  the seven, and a run from the start that breaks only this one, once, loses money.
- A cancel that finds the order cancelled by somebody else after its own refund went through reports success
  and, against its comment (app/service/order_service.py:401), records nothing:
  `Effects.SecondCancelIsNotRecorded`.
- The three seconds of staleness the seatmap allows itself (app/domain/policy.py:36-39) count from the
  write of the copy, not from the read of the rows: a response can be older by what passed in between.
  `SeatmapCache.StaleForALifetime` is the bound, `SeatmapCache.StalerThanTheCap` shows it is reached, and
  `SeatmapCache.CapIsLifetimeAndLatency` says which cap holds for which time between read and write.
- The client says that after a blocked answer nothing is left to give back (app/infra/redis/client.py:351-352).
  If an earlier attempt took all the keys unanswered and the user released one of them meanwhile, so that
  somebody else could take it, the keys behind that one stay for their whole lifetime:
  `GateClient.KeyLeftBehind` is the input, `GateClient.LeftBehindExactly` says which keys stay, and
  `GateClient.LeavingAddsNothing` that none does while nobody deletes the user's keys.
- The gate outlives a hold of zero seconds, because of its floor of one millisecond, and no longer hold
  (`GateClient.GateDiesFirst`).

## Model

| member | source | states |
|---|---|---|
| `Domain.FeeBands` | app/domain/policy.py:60-97 | The fee is free from eight days before, a tenth from three, a fifth from one, refused from the day of the show; the code's last raise is unreachable |
| `Domain.FeeIsFair` | app/domain/policy.py:71-97 | Fee at most the amount, never cheaper by waiting, monotone in the amount, closed exactly from the show day |
| `Statements.Database.SweepExpiredHolds` | app/infra/db/queries.py:357-374 | Takes held rows past their deadline that nobody has locked, oldest first, a full batch or all there are; just those become free without a hold, every other row stays |
| `Statements.PickOldest` | app/infra/db/queries.py:359-367 | The chosen rows are as many as the batch allows and no row left out expired earlier |
| `Statements.Database.RestoreOrderSeats` | app/infra/db/queries.py:662-674 | Writing only the status leaves rows of the checked shape, because a booked row has no hold |
| `Statements.Database.ApprovedPayment` | app/infra/db/queries.py:714-721 | Finds the newest approval exactly when one is counted |
| `Statements.Database.UnresolvedOrders` | app/infra/db/queries.py:753-771 | Pending orders created before the cutoff and not locked, oldest first, without repeats, a full batch or all of them |
| `Invariants.ApplyInv` | app/infra/db/models.py:164-246 | Every transaction keeps the checked row shape, the uniqueness constraints and all links between seats, items, orders, keys, payments and outbox |
| `Invariants.RunInv` | app/infra/db/models.py:164-246 | So does every history of transactions |
| `Invariants.SettleTids` | app/infra/db/queries.py:724-736 | Promoting an order's attempt keeps gateway numbers unique, because at most one attempt is open |
| `Invariants.ApprovingRows` | app/infra/db/queries.py:724-736 | Promoting the open attempt, or inserting an approval, with a new number keeps numbers unique and amounts equal to totals |
| `History.SeatsRefineTable` | app/domain/seat.py:39-43 | Every transaction moves every seat along the transition table once expired holds count as free, and keeps its price |
| `History.OrdersRefineTable` | app/domain/order.py:40-47 | Every transaction moves every order along its table; a snapshot appears only with PENDING to PAID; new orders are pending |
| `History.ItemsOnlyGrow` | app/service/order_service.py:126-159 | Items are never removed, and only a confirmation adds any |
| `History.HistoryKeeps` | app/infra/db/queries.py:552-608 | Over any history terminal statuses, snapshots, items, keys and prices stay, and PAID leads only to CANCELED |
| `History.StatusNeverReturns` | app/domain/order.py:40-47 | Over any history FAILED and CANCELED stay, PAID becomes at most CANCELED, and nothing becomes PENDING again |
| `History.NoDoubleSale` | app/service/order_service.py:113-159 | From fresh stock, in every history: booked iff the one item belongs to a paid order; paid orders own exactly their seats; unpaid ones none; a sold row never changes owner |
| `History.RestoredSeatIsNeverSoldAgain` | app/service/order_service.py:394-419 | An order naming a row another order was ever sold is never paid; confirming it changes nothing and reports an expired hold |
| `Resale.ConfirmedIffNeverSold` | app/service/order_service.py:113-159 | After any history a pending order is confirmed iff every seat is held live by its buyer and was never sold in that history, and the number is new; else the answer is an expired hold |
| `Resale.ItemsAreSales` | app/infra/db/queries.py:611-641 | A seat has an item iff a confirmation in the history sold it |
| `Resale.RestoredSeatDisappoints` | app/service/order_service.py:394-419 | For any seat of any fresh inventory: sold, cancelled, held and ordered by the next buyer, the confirmation reports an expired hold though the hold is live |
| `History.ConfirmedExactlyOnce` | app/service/order_service.py:113-192 | Over all callers at most one confirmation per order; ever paid iff it happened iff one approval iff one order.paid message |
| `History.AmountsAgree` | app/service/order_service.py:241-247 | Total of a paid order is the sum of its item prices and the amount of its one approval; one open attempt at most, none after PENDING |
| `History.StockIsConserved` | app/infra/db/queries.py:406-415 | AVAILABLE + HELD + BOOKED of a schedule is constant over every history and no row breaks the hold shape |
| `History.AcquireVerdict` | app/infra/db/queries.py:228-331 | All or nothing: granted iff all exist, are claimable and fit the quota, and then exactly those rows become the user's; SEAT_TAKEN names exactly the unclaimable; QUOTA_EXCEEDED means all were claimable |
| `History.UnknownSeatReadsAsQuota` | app/service/hold_service.py:108-125 | With an unknown seat the quota verdict comes iff every existing requested seat is claimable |
| `History.ReleaseFreesOwnHolds` | app/infra/db/queries.py:334-351 | Frees what the user holds among the named seats, expired or not; no other row changes, nobody else's hold is touched, and a second release finds nothing |
| `History.OpenedIffHeld` | app/infra/db/queries.py:464-519 | An order is opened iff the list names distinct seats each held by the user beyond the margin and the key is new; any later use of the key is answered with this order |
| `History.NobodysInstant` | app/infra/db/queries.py:90-102 | Others can take the seat strictly after the deadline, the holder can order it strictly before, so at the instant nobody can |
| `Effects.OpeningLeaves` | app/infra/db/queries.py:464-519 | An opened order is the buyer's, pending, made now, for the seats and key asked for, with one open attempt for its total; nothing else changes |
| `Effects.ConfirmingLeaves` | app/service/order_service.py:113-159 | A confirmed order's seats are booked without a hold and carry its items, it is PAID with a response naming just them; no other seat, item, order or key changes |
| `Effects.ConfirmingPays` | app/service/order_service.py:160-178 | The open attempt becomes APPROVED with the gateway's number, or one such row is added; other rows stay |
| `Effects.ConfirmingAnnounces` | app/service/order_service.py:179-184 | One order.paid message is added, with the order's seat list |
| `Effects.ClosingFreesTheSeats` | app/service/order_service.py:553-578 | FAILED or CANCELED as asked; every named seat the buyer held is free without a hold, every other row stays, releasing again finds nothing, the open attempt has failed |
| `Effects.ClosedSeatsAreForSale` | app/service/order_service.py:571-578 | Another user within the quota is then granted any of the seats the buyer held |
| `Effects.RefundLeaves` | app/service/order_service.py:595-622 | One row with the refund's amount and number; only if approved are the buyer's holds freed and a pending order FAILED |
| `Effects.RefundedSeatsAreForSale` | app/service/order_service.py:609-622 | Another user within the quota is then granted any of the seats the buyer held |
| `Effects.CancellingLeaves` | app/service/order_service.py:394-419 | Every seat of the order is free, the order CANCELED with items and response kept, one REFUNDED row and one message carry fee and refund; nothing else changes |
| `Effects.SecondCancelIsNotRecorded` | app/service/order_service.py:394-402 | A cancel that comes second writes nothing, its own refund included |
| `Effects.RefusalLeaves` | app/service/order_service.py:376-392 | One FAILED row with the refund amount and the fee, without a number; nothing else changes |
| `Effects.SweepFreesWhatItReports` | app/infra/db/queries.py:369-374 | Exactly the chosen rows whose hold has run out are freed and reported |
| `OrderTransactions.ConfirmableByCounts` | app/service/order_service.py:123-159 | The counts confirm_paid makes hold iff every seat is live, the buyer's and never sold |
| `OrderTransactions.ConfirmPaid` | app/service/order_service.py:95-192 | The statements in order, with every exception rolled back, compute the one-shot confirmation: same tables, same outcome |
| `OrderTransactions.ClaimAndBook` | app/service/order_service.py:123-159 | Claiming and booking succeed iff the order is confirmable, and then book exactly its seats |
| `OrderTransactions.ClaimedAreBooked` | app/infra/db/queries.py:644-659 | After the claim, the order's held item rows are exactly its seats, so booking them books all of them |
| `OrderTransactions.OpenPending` | app/service/order_service.py:217-247 | The first transaction of place opens order and attempt together, or finds the order with the key, or reports no hold |
| `OrderTransactions.CloseOrder` | app/service/order_service.py:553-578 | Closing moves PENDING on, fails the attempt and frees the buyer's holds, or does nothing |
| `OrderTransactions.RecordRefundOutcome` | app/service/order_service.py:601-622 | A refund is written down always; status and seats change only if it was approved |
| `OrderTransactions.RecordCancellation` | app/service/order_service.py:394-419 | After an approved refund PAID becomes CANCELED, its booked seats are freed and refund and message recorded, or nothing happens |
| `LazyExpiry.StepAlike` | app/infra/db/queries.py:90-102 | Two databases that differ only by expired holds give the same answer to every transaction and still differ only so |
| `LazyExpiry.SweepingIsInvisible` | app/infra/db/queries.py:357-374 | Over any history with a monotone clock, sweeping any expired holds at any times changes no answer and no table but for expired holds |
| `LazyExpiry.ViewAtLaterTime` | app/infra/db/queries.py:90-102 | Equal views stay equal as the clock advances |
| `LazyExpiry.ReleaseReportsExpiredHolds` | app/service/hold_service.py:151-160 | The released list is the live holds iff no named hold of the user is expired and unswept |
| `LazyExpiry.ReleaseReturnsAnExpiredSeat` | app/service/hold_service.py:151-160 | An input on which the released list contains an expired seat |
| `HoldProtocol.StepInv` | app/service/hold_service.py:92-139 | Every step of every interleaved acquire, and every commit by others, keeps the lock discipline and what each transaction has secured |
| `HoldProtocol.OwnedShrinks` | app/infra/db/queries.py:246-267 | No transaction but an acquire of that user in that schedule adds to what the quota counts |
| `HoldProtocol.CommitIsAnAcquire` | app/infra/db/queries.py:228-317 | What a stepwise acquire commits is what the one-shot acquire would grant on the tables as they are at commit |
| `HoldTheorems.ReachableHall` | app/service/hold_service.py:92-139 | Every hall reached from sound tables with nobody holding satisfies the protocol's invariant |
| `HoldTheorems.HoldingIsAHistory` | app/service/hold_service.py:92-139 | Any interleaving of stepwise acquires with everything else leaves the tables of a history of whole transactions |
| `HoldTheorems.QuotaHolds` | app/infra/db/queries.py:207-225 | In every interleaving and for any lock hash, live holds plus seats of paid orders of a user in a schedule never exceed the limit asked with |
| `HoldTheorems.QuotaFromFresh` | app/infra/db/queries.py:207-225 | From a fresh inventory nobody ever owns more than the limit the acquires ask with |
| `HoldTheorems.JoinCountsSeats` | app/infra/db/queries.py:246-267 | The rows the quota's outer joins count are as many as the seats owned, by UNIQUE order_items |
| `HoldTheorems.NoDeadlock` | app/infra/db/queries.py:269-281 | While a transaction is unfinished some transaction can step forward |
| `HoldTheorems.AcquiresTerminate` | app/service/hold_service.py:88-106 | Without new acquires, the running ones take a bounded number of steps in any run |
| `HoldTheorems.EverybodyCanFinish` | app/service/hold_service.py:88-106 | From every reachable state all acquires can finish without anybody giving up |
| `HoldRefusals.RefusalHasAReason` | app/infra/db/queries.py:269-291 | In every interleaving a refused acquire gave up, found at its snapshot the quota exceeded or a requested seat missing or not claimable, or found so when it locked that row |
| `HoldRefusals.AloneLikeOneShot` | app/service/hold_service.py:92-139 | Steps of one transaction while nobody else moves end granted iff the one-shot acquire on the same tables grants, and leave its tables |
| `HoldRefusals.AloneFromTheStart` | app/service/hold_service.py:92-139 | So an acquire that begins and runs alone ends as the one-shot acquire by its clock |
| `Saga.SagaIsAHistory` | app/service/order_service.py:113-622 | Every run of the saga with its stops, aborts and lost replies is a history of committed transactions |
| `SagaSafety.StepInv` | app/service/order_service.py:198-622 | Every step of anybody keeps the saga invariant: books, drivers, evidence, approvals, responses |
| `SagaSafety.ConclusionsNeedEvidence` | app/service/order_service.py:256-337 | In every run a paid, failed or cancelled order goes back to the gateway answer the code requires for it |
| `SagaSafety.ApprovedAtMostOnce` | app/service/order_service.py:249-253 | Approval is asked for at most once per order, and at most the total is charged, in every run |
| `SagaSafety.OneResponsePerKey` | app/service/order_service.py:501-528 | All calls with one key that return carry the same order and snapshot, before or after cancellation; no second order has the key |
| `SagaSafety.SagaNeverSellsTwice` | app/service/order_service.py:113-159 | No double sale in any run of the saga with arbitrary interleaving and stops |
| `Cancellations.CancelledOnce` | app/service/order_service.py:394-419 | In every history an order cancelled after it was paid has one message and one REFUNDED row with a snapshot, saying the same fee and refund; any other order has none |
| `Cancellations.CancellationIsPriced` | app/service/order_service.py:360-374 | In every run of the saga that fee is the policy's for days on which a cancel read the order, and fee plus refund is the total |
| `GatewayNumbers.StepNumbered` | app/infra/db/models.py:237-246 | Every step keeps the gateway's numbers apart: charges, recorded rows and refunds not yet recorded |
| `GatewayNumbers.ChargesAreUnused` | app/service/order_service.py:160-180 | In every run the number of a charge belongs to one order, and is on no row until that order is paid |
| `SagaMoney.StepMoney` | app/service/order_service.py:252-622 | Every disciplined step keeps books, statuses, recorded refunds and numbers in agreement; a webhook may come at any time but while a failed confirmation is being refunded |
| `SagaMoney.MoneyIsConserved` | app/service/order_service.py:252-421 | In every disciplined run the gateway keeps the total of a paid order, nothing of a failed one, and of a cancelled paid one exactly the fee announced and recorded, which is the policy's for the days cancel read; never less than nothing or more than the total |
| `SagaLimits.InquiringTooEarly` | app/service/order_service.py:317-337 | From any such world: inquiring while the approval is undecided ends cancelled with the total charged, so money is not conserved |
| `SagaLimits.RefundingOnceMore` | app/service/order_service.py:581-622 | From any such disciplined world: a stop or abort between refund and record makes the reconciler refund again, and more is given back than was charged |
| `SagaLimits.RefundingTwice` | app/service/order_service.py:376-392 | From any world: two drivers of one order about to refund, two cancels or a place and a reconcile, give back more than was charged |
| `SagaLimits.HookWhileGivingBack` | app/service/order_service.py:95-192 | From any such disciplined world: a webhook between the failed confirmation and the refund makes the order paid while the whole total is given back |
| `SagaLimits.LosingARefundReply` | app/service/order_service.py:376-392 | From any such disciplined world: a lost reply of a refund leaves the order paid, the seats booked and only the fee kept, so money is not conserved |
| `SagaLimits.LosingTheRecord` | app/service/order_service.py:394-419 | From any such disciplined world: a cancel that stops after its refund, or whose record aborts, leaves the order paid and only the fee kept |
| `SagaRuns.EveryAssumptionIsNeeded` | app/service/order_service.py:198-421 | For each of the seven assumptions, from the start of any inventory with a seat that costs something, a run in which a single step is undisciplined, that step breaks this assumption and no other, and money is not conserved at the end |
| `OrderService.CallIsARun` | app/service/order_service.py:198-421 | A call of the service under any plan is a run of the saga machine |
| `OrderService.SilenceConcludesNothing` | app/service/order_service.py:256-262 | A place or reconcile whose question gets no reply ends, and its own steps change no table, whatever others do in between |
| `OrderService.Service.Place` | app/service/order_service.py:198-278 | Takes the world where the machine's driver takes it under every interference, abort and lost reply; its result is exactly what the driver's last step says, and backed by the gateway answer or the stored response |
| `OrderService.Service.StoredResponse` | app/service/order_service.py:501-528 | The polling loop follows the driver for at most forty looks and answers with the stored snapshot, a closed order or "in progress" |
| `OrderService.Service.RefundAndFail` | app/service/order_service.py:581-622 | Refund, then record, follows the driver; raises exactly when the record fails; confirms nothing |
| `OrderService.Service.Cancel` | app/service/order_service.py:345-421 | Follows the driver and answers exactly what its last step says; success means the refund was approved and the order is no longer paid |
| `OrderService.Service.FeeAndApproval` | app/service/order_service.py:360-374 | Cancelling gets past its checks iff the order is paid and the show is later; a paid order always has its approval |
| `OrderService.Service.ReconcileOne` | app/service/order_service.py:318-337 | One order of a tick follows the driver, is counted iff this call confirmed it, raises iff an exception escapes |
| `OrderService.Service.Reconcile` | app/service/order_service.py:284-339 | A tick takes pending orders older than the limit that nobody has locked, all of them or a full batch of the oldest, and resolves them in turn; the list it returns names exactly those its own calls confirmed |
| `ServiceAnswers.PlaceTellsTheTruth` | app/service/order_service.py:198-278 | Under any interference an answer of place is true when given: stored response of the key's order, closed as failed or cancelled unpaid, in progress as pending, declined and closed, refund on record, no hold and no order |
| `ServiceAnswers.PlacedIsWhatWasAsked` | app/service/order_service.py:198-214 | A first answer is about the caller's order and names exactly the seats asked for |
| `ServiceAnswers.ReplayedMeansKeyInUse` | app/service/order_service.py:226-250 | A response is marked replayed iff the key was in use at the call's first transaction |
| `ServiceAnswers.PaidIsPlaced` | app/service/order_service.py:266-278 | An approved payment is answered with the stored response, whoever confirmed first |
| `ServiceAnswers.SameKeyIsReplayed` | app/service/order_service.py:501-514 | A second call with the key of a paid order gets the same response and changes no table |
| `ServiceAnswers.PlaceRaisesOnlyOnFailure` | app/service/order_service.py:198-278 | place raises only if an own transaction aborts, a reply is lost or a row number is taken |
| `ServiceAnswers.CancelTellsTheTruth` | app/service/order_service.py:345-421 | Success means an approved refund, an order no longer paid and the policy's fee; failure a refund not approved and on record; refusal an order not paid or a show not later |
| `ServiceAnswers.CancelRaisesOnlyOnAbort` | app/service/order_service.py:394-419 | cancel raises only if its own transaction aborts |
| `ReconcilerDrains.ReachableIsReady` | app/service/order_service.py:284-339 | Every reachable world with an idle driver is one the reconciler can drain: its numbers are sound in every run |
| `ReconcilerDrains.TurnConcludes` | app/service/order_service.py:318-337 | Whatever others do before each of its steps, a turn whose inquiry and refund are answered ends without an exception and its order is no longer pending; other settled orders stay settled and the old backlog does not grow |
| `ReconcilerDrains.TickConcludes` | app/service/order_service.py:318-339 | Whatever others do meanwhile, such a tick goes through all its candidates without an exception and concludes each |
| `ReconcilerDrains.OldestTaken` | app/infra/db/queries.py:762-771 | Scanning oldest first takes a full batch of the old backlog or all of it that nobody has locked, even when younger orders have become due |
| `ReconcilerDrains.ReconcilerDrainsTheBacklog` | app/service/order_service.py:284-339 | From any reachable world, and with any steps of others before and during the ticks, every order that was pending and older than the limit is concluded once the ticks together have room for them; if others keep some locked at the scans, at most that many are left |
| `ReconcilerDrains.ListsAreExact` | app/service/order_service.py:294-316 | Under any interference: the number of times an order becomes PAID is the number of times it is listed plus the number of times others confirm it; so each listed order was unpaid, was paid by this reconciler's own call, and is listed once over all ticks |
| `ReconcilerDrains.CalmTurnIsExact` | app/service/order_service.py:318-337 | Without interference a turn touches no other order and counts iff it made its order PAID |
| `FakeGateway.FakePG.Approve` | app/infra/pg/fake.py:72-89 | A lost response charges and says UNKNOWN; an approval repeats the ledger's number; no other entry changes; anything else changes nothing; numbers stay unique |
| `FakeGateway.FakePG.Inquire` | app/infra/pg/fake.py:91-106 | The forced answer or the truth of the ledger, and only the call counter changes |
| `FakeGateway.FakePG.Refund` | app/infra/pg/fake.py:108-119 | An approved refund has a number that is nobody's charge |
| `FakeGateway.FakeApproves` | app/infra/pg/fake.py:72-89 | An approval of the fake is request, decision and reply of the saga machine's gateway: same answer, charge and number, and its ledger stays the mirror of the books |
| `FakeGateway.FakeAnswers` | app/infra/pg/fake.py:91-106 | Its inquiry is an answer of that gateway unless it is told to deny a charge it made or to approve, which it does without a number |
| `FakeGateway.FakeRefunds` | app/infra/pg/fake.py:108-119 | Its refund is one of that gateway: same answer and number, money moves iff APPROVED, the ledger still mirrors the books |
| `SeatGate.RedisStore.AcquireScript` | app/infra/redis/lua/seat_gate.lua:21-48 | The loop with its rollback computes the blocker and the resulting store |
| `SeatGate.RedisStore.ReleaseScript` | app/infra/redis/lua/seat_gate_release.lua:16-24 | Deletes exactly this token's live keys and returns their number |
| `SeatGate.GateIsAllOrNothing` | app/infra/redis/lua/seat_gate.lua:3-10 | 0: every key is this token's; i: key i is the first foreign one, earlier keys are free, no key added; foreign and unnamed keys untouched |
| `SeatGate.RetryIsSafe` | app/infra/redis/lua/seat_gate.lua:16-19 | Running it again with the same token gives the same answer and the same owners |
| `GateClient.Client.Enter` | app/infra/redis/client.py:326-358 | Retries until a reply comes, each time on a store others may have changed, fails open without one, reports the blocking seat |
| `GateClient.Client.Release` | app/infra/redis/client.py:382-394 | Best effort: the token's keys go if the request arrives, the count comes if the reply does |
| `GateClient.LeavingAddsNothing` | app/infra/redis/client.py:349-363 | With others changing the store at will between attempts, except that nobody sets this token's keys asked for, nor deletes any before a blocked answer: entering and leaving without keep leaves no live key of the token that was not there before; all other entries are as others left them |
| `GateClient.LeftBehindExactly` | app/infra/redis/client.py:350-354 | After a blocked answer a key of the token that was not there before stays iff it lies behind the blocker and still carries the live entry of an earlier unanswered attempt |
| `GateClient.KeyLeftBehind` | app/service/hold_service.py:161-167 | An input on which a key stays: the first reply is lost, the user releases the middle seat, somebody takes it, the second attempt is blocked there |
| `GateClient.GateDiesFirst` | app/infra/redis/client.py:59-66 | The gate's lifetime is shorter than the hold's iff the hold lasts a second or more |
| `GateClient.GateTtlIsTheRatio` | app/infra/redis/client.py:59-66 | For a hold of a second or more the lifetime is 41 parts in 42 of it, rounded down to the millisecond |
| `HoldService.Holds.Acquire` | app/service/hold_service.py:41-148 | Either the gate refuses, naming a requested seat that somebody else's key guards, and the database is untouched, or the database decides exactly as without a gate; and the joint new state |
| `HoldService.Holds.Release` | app/service/hold_service.py:151-168 | The rows, then the gate keys of just the rows released |
| `HoldService.Holds.SweepExpired` | app/service/hold_service.py:171-177 | A sweep of the oldest expired holds |
| `HoldService.GateIsTransparent` | app/service/hold_service.py:77-139 | Whatever Redis does, the reachable database states are reachable without it, and the database invariant carries over |
| `HoldService.LosersStayOut` | app/service/hold_service.py:83-86 | While a foreign key guards a requested seat and Redis answers, the request does not reach the database |
| `HoldService.GrantKeepsTheGate` | app/service/hold_service.py:134-139 | After answer 0 and a grant every seat asked for is held until now + ttl and has the user's key for the gate's lifetime |
| `HoldService.RefusalGivesBack` | app/infra/redis/client.py:358-363 | After answer 0 and a refusal whose give-back arrives the user has no live key on the seats asked for |
| `HoldService.BlockedNamesTheSeat` | app/service/hold_service.py:83-86 | The seat a blocked answer names was asked for and somebody else has its key |
| `HoldService.ReleaseOpensTheGate` | app/service/hold_service.py:151-168 | A release leaves the user no live key on the seats it freed and touches no other key |
| `SeatmapCache.PayloadRoundTrip` | app/service/seatmap_service.py:59-130 | Decoding what was stored gives the cells and tag a fresh read gives |
| `SeatmapCache.StepInv` | app/service/seatmap_service.py:150-172 | Every step of every request keeps the lock, the count of reads, and that copies and responses hold what the query returned when it was read |
| `SeatmapCache.OneFlightPerLoss` | app/service/seatmap_service.py:150-172 | Database reads are at most one more than cache losses; every response is what the query returned at its read instant, fresh or shown within the copy's lifetime |
| `SeatmapCache.ResponsesShowTheRows` | app/service/seatmap_service.py:59-69 | Every response has one cell per row the query returned when it was read, with that row's seat, zone, row, column, grade, price and status |
| `SeatmapCache.ResponsesShowTheStock` | app/infra/db/queries.py:385-403 | Held against the tables, it shows every seat of the schedule once, with the price and status it had when read |
| `SeatmapCache.ReadsPerFaultAndLifetime` | app/service/seatmap_service.py:150-172 | Database reads are at most one, plus one per fault (flush, cancelled request, failed read under the lock, failed write), plus one per full lifetime passed |
| `SeatmapCache.CopyServes` | app/service/seatmap_service.py:150-160 | A request that finds a copy is served from it, without the lock at the first look, and reads no database |
| `SeatmapCache.StaleForALifetime` | app/service/seatmap_service.py:1-14 | A response that shows superseded rows is given less than the lifetime after they were superseded, plus the time from read to write; no change before the read is missing |
| `SeatmapCache.StalerThanTheCap` | app/domain/policy.py:33-39 | For any time between read and write there is a run that reaches that bound |
| `SeatmapCache.CapIsLifetimeAndLatency` | app/domain/policy.py:33-39 | Over all runs, hits stored a given time after their read stay within a cap iff the cap is at least the lifetime less one second plus that time: below the lifetime iff it is zero, at most the lifetime iff it is at most one |
| `SeatmapCache.FollowIsARun` | app/service/seatmap_service.py:150-172 | A call of get under any plan is a run of the cache machine |
| `SeatmapCache.Seatmaps.Get` | app/service/seatmap_service.py:150-172 | get takes the process where the machine's request goes, under any interference and any failing read or write |

## Left out

- Statement-level effects inside the saga transactions: each is one atomic step with one clock reading; foreign-key locks, stale now() and plan-dependent row order are not modelled. Only acquire is taken apart.
- The second statement of a refused acquire reads a later snapshot than the refusal; here both use the tables of the transaction.
- LazyExpiry.SweepingIsInvisible: assumes the hold margin of place is not negative; the code never passes a negative one.
- SagaMoney.MoneyIsConserved: holds under the discipline stated in `Disciplined`, because the code does not enforce it; `SagaRuns.EveryAssumptionIsNeeded` shows that no part of it can be dropped.
- A refund is one step at the gateway, with a reply that may be lost; a refund still in flight when its caller gives up is not modelled.
- ReconcilerDrains.ReconcilerDrainsTheBacklog: assumes that the gateway answers this reconciler and honours its refunds; without that nothing need ever be concluded, as the code intends.
- GateClient.GateDiesFirst: the product is an exact fraction rounded down, not a float.
- SeatmapCache.PayloadRoundTrip: JSON text is a tree of values; numbers given as strings, which int() would accept, count as malformed.
- The text of seat labels and the digest behind the etag: a label is its parts, the etag a function of the rows.
- Several processes sharing one cache: each has its own lock, as in the code.
- Prices and amounts are natural numbers of any size; the 32-bit columns and negative prices are not modelled.
- `_explain_hold` and other texts for people, created/updated/paid time stamps except the creation time of orders, and the rest of the response bodies.
- Rolling back the caller's transaction after acquire returned, which leaves the gate key until it expires.
- Connection pools, timeouts, event-loop keyed caches and degrade counters: plumbing without domain state.
- Venue and seat expansion, routers, workers, webhooks' signatures and migrations: a webhook is one more caller of the confirmation.

# Logistics back end: line haul, parcels and money

This project models the transactional core of a logistics back end as typed
tables and commands on them, and proves what every command, every run and
every interleaving of transactions keeps.

## What is modelled

* **Tables.** Rows are never deleted, so a table is a sequence and a row's id
  is its index (`Rows`, `Tables`). Eleven tables: warehouses, drivers (with
  their user's active flag), vehicles, shipments, money ledgers (one per
  shipment: fee, disputes, COD, remittances, payout), transfers, trips,
  manifest links, routes, assignments, delivery attempts.
* **Commands.** `TripCommands`, `TransferCommands`, `ParcelCommands`,
  `DriverCommands` and `Ledgers` say what each service call does to the
  database value: same guards, in the same order, with the same refusals. One
  committed transaction is one command; a refusal rolls back.
* **Services.** `TripService`, `WarehouseService`, `ParcelService`,
  `DriverService` and `LedgerService` run over a mutable `Store`, row by row
  and loop by loop as the services do. Each service method is proved equal to
  its command, refusals and rollbacks included, and keeps the joint invariant.
* **The joint invariant** (`Invariants`, kept by `KeepTrips`, `KeepTransfers`,
  `KeepParcels`, `KeepDrivers`) and **runs** (`Reachability`, `Histories`,
  `Rollback`), with what follows for every reachable state and every run
  (`NetworkTheorems`, `ManifestTheorems`, `ParcelTheorems`, `LedgerLaws`,
  `Replays`, `KeyedReplays`).
* **Exact answers.** For each command in a reachable state, when it answers
  Done, with what it is refused where that is not settled by one condition, and
  the rows it writes, in the words of `Facts` (`TripAnswers`,
  `TransferAnswers`, `ParcelAnswers`, `DriverAnswers`, `MoneyAnswers`).
* **Interleavings.** `CapacityRace`, `ScheduleRace`, `DriverRace` and `Sessions`
  (with `SessionRuns`) split transactions into their lock, read, write and commit steps for any number of
  concurrent transactions. A lock request waits; uncommitted writes are
  invisible to others; an abort may come at any time.
* **The planner.** `Planner` has its loops, `PlannerLaws` what they compute,
  `PlannerOrder` what its list, scores and loads mean to a reader;
  `PlannerAgreement` proves that `create` accepts what it recommends and
  `PlannerCompleteness` that it proposes what `create` would accept. `Ordering`
  is the sorting they rely on.
* **Small protocols.** `WorkerPool`, `Throttle`, `StageClock`, `Deviation`.

Names. Some statuses have shorter or distinct names: `Underway` is IN_TRANSIT
of a trip, `Withdrawn` CANCELLED of a trip; `Waiting` and `Moving` are PENDING
and IN_TRANSIT of a transfer; `Offered`, `Finished`, `Replaced` are PENDING,
COMPLETED, CANCELLED of an assignment; `Outgoing` and `Handed` are
OUT_FOR_DELIVERY and DELIVERED of an attempt; `Free` is AVAILABLE of a driver;
`AwaitingPickup`, `AtOrigin`, `AtDestination`, `AwaitingDelivery` are the
shipment statuses AWAITING_PICKUP_ASSIGNMENT, AT_ORIGIN_WAREHOUSE,
AT_DESTINATION_WAREHOUSE, AWAITING_DELIVERY_ASSIGNMENT.

Inputs from outside are parameters: the clock (`now`), whether a candidate
driver's position and area match (`located`), whether a road route was found
(`routed`), the road metric, the line-haul cutover, and the events of the
online payment service, of which only its contract is used (a payment opens
from a pending fee, fails back to it, or pays it in full).

Notable results. A sender-paid fee under dispute blocks delivery
(`DueExact`). Replaying a dispute or a resolution is not idempotent; the exact
condition and an example of each are in `LedgerLaws`. Several guards can never fire in
a reachable state; the exactness theorems name those that can. The planner never
proposes a driver on the road, although `create` would accept him for a later
window (`ProposesWhatCreateAccepts`).

## Model

| member | source | states |
|---|---|---|
| `Reachability.StepKeeps` | backend/src/modules/line-haul/line-haul-trips.service.ts:594-741 | Every command of the whole back end, refused or committed, keeps the joint invariant over all eleven tables |
| `Reachability.ReachableInv` | backend/src/modules/line-haul/line-haul-trips.service.ts:934-1157 | Every state any run of commands can reach from the empty database satisfies the joint invariant |
| `Reachability.ReachableOnwards` | backend/src/modules/line-haul/line-haul-trips.service.ts:934-1157 | Runs compose: what a reachable state leads to is reachable |
| `Rollback.OnlyDoneWrites` | backend/src/modules/line-haul/line-haul-trips.service.ts:594-680 | A command that does not answer Done (a refusal, or a recognised replay) leaves every table as it was |
| `Histories.StepFollows` | backend/src/modules/assignments/shipment-transition.policy.ts:6-118 | One command moves each shipment along one edge of the life cycle, each trip along PLANNED to READY to IN_TRANSIT to ARRIVED (or CANCELLED), each transfer forward, raises the version of every changed row (restoring a user account aside), and keeps manifests frozen from READY on |
| `Histories.RowsStayOnTheirPath` | backend/src/modules/assignments/assignments.service.ts:1021-1036 | Over any run from a reachable state: equal versions mean equal rows, no phase is ever left backwards, finished rows never change, assignments and attempts keep their key, shipment and driver, satisfied fees keep their evidence |
| `Replays.RetriesWriteNothing` | backend/src/modules/assignments/delivery.service.ts:281-315 | A command sent again right after it went through writes nothing, for every command that carries a key, a version or a state to recognise |
| `KeyedReplays.KeysAreForLife` | backend/src/modules/line-haul/line-haul-trips.service.ts:75-92 | A create, assign or transfer command with a client key, sent again in any later state, writes nothing and is recognised (a trip changed since then has its key refused) |
| `ManifestTheorems.AssignExact` | backend/src/modules/line-haul/line-haul-trips.service.ts:594-680 | The exact answer of assigning a transfer to a PLANNED trip: only the transfer itself can be refused |
| `ManifestTheorems.AssignEffect` | backend/src/modules/line-haul/line-haul-trips.service.ts:594-680 | Assigning puts exactly that transfer on exactly that manifest |
| `ManifestTheorems.RemoveEffect` | backend/src/modules/line-haul/line-haul-trips.service.ts:682-741 | Removing takes exactly that transfer off exactly that manifest |
| `ManifestTheorems.RemoveUndoesAssign` | backend/src/modules/line-haul/line-haul-trips.service.ts:594-741 | Removing a transfer just assigned restores every manifest and its weight |
| `ManifestTheorems.CancelEffect` | backend/src/modules/line-haul/line-haul-trips.service.ts:1374-1393 | Cancelling empties the trip's manifest and no other |
| `ManifestTheorems.CreateEffect` | backend/src/modules/line-haul/line-haul-trips.service.ts:95-222 | A created trip has exactly the requested manifest |
| `NetworkTheorems.DispatchExact` | backend/src/modules/line-haul/line-haul-trips.service.ts:934-1047 | In a reachable state a READY trip is refused dispatch exactly when its vehicle is IN_TRANSIT with another trip, or else an endpoint warehouse is inactive; otherwise exactly the trip, its vehicle, its manifest and their shipments change |
| `NetworkTheorems.PrepareExact` | backend/src/modules/line-haul/line-haul-trips.service.ts:816-932 | Preparing a PLANNED trip is refused for exactly seven reasons, told in row fields; the overlap, dispatchability and weight guards behind them never fire |
| `NetworkTheorems.ArriveExact` | backend/src/modules/line-haul/line-haul-trips.service.ts:1049-1157 | Arrival of an IN_TRANSIT trip never fails and frees its vehicle |
| `NetworkTheorems.ReceiveExact` | backend/src/modules/warehouses/warehouse-transfer-lifecycle.service.ts:221-361 | The exact answer of receiving a transfer at its open destination; the route-mismatch and shipment-status guards never fire |
| `NetworkTheorems.TransfersLeaveFromOrigin` | backend/src/modules/warehouses/warehouse-transfer-lifecycle.service.ts:53-94 | The AT_DESTINATION_WAREHOUSE branches of transfer creation and dispatch are unreachable |
| `NetworkTheorems.NetworkCoupling` | backend/src/modules/line-haul/line-haul-trips.service.ts:957-1097 | Trip, manifest, transfer and vehicle statuses agree; a transfer is on at most one manifest; a vehicle is IN_USE exactly while one trip of it, and only one, is IN_TRANSIT |
| `NetworkTheorems.ShipmentTransferCoupling` | backend/src/modules/warehouses/warehouses.service.ts:853-1022 | A shipment has at most one transfer in its life, is IN_TRANSIT exactly while that transfer is, is pinned at its origin while it is pending, and is at its destination once AT_DESTINATION_WAREHOUSE |
| `NetworkTheorems.WindowsDisjoint` | backend/src/modules/line-haul/line-haul-trips.service.ts:1530-1564 | Scheduled windows of active trips sharing a driver or vehicle are disjoint; every READY or IN_TRANSIT trip has a valid window |
| `NetworkTheorems.ManifestIsFrozen` | backend/src/modules/line-haul/line-haul-trips.service.ts:838-890 | From READY through ARRIVED, over any run, the manifest is the same and the stored prepared weight is its sum, within the stored capacity |
| `NetworkTheorems.RerouteSawTheCurrentTrip` | backend/src/modules/line-haul/line-haul-trips.service.ts:1159-1356 | Whatever ran while the provider was asked, a reroute commits exactly when the trip row and the destination place are still those its preflight read and its position sample is still fresh |
| `NetworkTheorems.RerouteOnce` | backend/src/modules/line-haul/line-haul-trips.service.ts:1159-1356 | One preflight commits at most once |
| `NetworkTheorems.RouteVersions` | backend/src/modules/line-haul/line-haul-trips.service.ts:1159-1356 | A trip's routes carry the versions 1..n, once each and in order, and the current route is the newest |
| `ParcelTheorems.DriverExclusive` | backend/src/modules/assignments/driver-task-ownership.service.ts:7-44 | A driver never has a parcel task beside a READY or IN_TRANSIT trip, never two tasks, and is not available while having one |
| `ParcelTheorems.StatusIsTask` | backend/src/modules/assignments/assignments.service.ts:706-909 | Each of the four task statuses holds exactly when there is an active assignment of that type and state, and there is never a second active one |
| `ParcelTheorems.UntypedCommandsChangePickupsOnly` | backend/src/modules/assignments/assignments.service.ts:339-704 | Accept, reject and pickup, which do not look at the assignment type, change nothing when given a delivery |
| `ParcelTheorems.TasksCanProceed` | backend/src/modules/assignments/delivery.service.ts:281-581 | A task in hand can always go on: only the fee can refuse pickup or completion, nothing can refuse accept, reject, start or fail |
| `ParcelTheorems.DueExact` | backend/src/modules/shipping-fees/shipping-fees.service.ts:51-187 | Exactly which payment a pickup or delivery needs, including that a disputed sender fee blocks delivery |
| `ParcelTheorems.AssignmentGuards` | backend/src/modules/assignments/assignments.service.ts:741-766 | The missing-previous and already-assigned guards of pickup assignment never fire |
| `ParcelTheorems.AttemptNumbers` | backend/src/modules/assignments/delivery.service.ts:281-371 | Attempts are numbered 1..n once each and in order, all but the newest FAILED, the newest open exactly while OUT_FOR_DELIVERY and delivered exactly when DELIVERED |
| `ParcelTheorems.ReturnExact` | backend/src/modules/assignments/delivery.service.ts:646-749 | A requested return starts exactly for the driver of the newest attempt in good standing; the superseded-ownership guard never fires |
| `ParcelTheorems.FinishedIsFinal` | backend/src/modules/assignments/shipment-transition.policy.ts:6-118 | DELIVERED, RETURNED and CANCELLED shipments never change again |
| `ParcelTheorems.FeeFollowsShipment` | backend/src/modules/shipments/shipments.service.ts:236-316 | A fee is CANCELLED exactly when its shipment is; a delivered shipment's fee was satisfied once in the exact amount; the evidence never changes in any run |
| `ParcelTheorems.CodFollowsDelivery` | backend/src/modules/assignments/delivery.service.ts:440-451 | A COD row exists exactly for delivered shipments with positive COD; what is verified and paid out is that amount |
| `ParcelTheorems.VerifiedWeightIsFinal` | backend/src/modules/warehouses/warehouses.service.ts:534-558 | The weight verified at check-in is what every later state counts for the shipment |
| `ParcelTheorems.CheckInOrigin` | backend/src/modules/warehouses/warehouses.service.ts:1352-1370 | The fallback to the pickup driver's warehouse at check-in is never taken: every picked-up shipment has its origin |
| `ParcelTheorems.OriginIsFinal` | backend/src/modules/assignments/assignments.service.ts:542-704 | The origin is for good the home warehouse of the driver who picked up |
| `ParcelTheorems.CashIsFinal` | backend/src/modules/assignments/delivery.service.ts:440-451 | The COD cash is for good the exact amount in the hands of the delivering driver |
| `ParcelTheorems.MoneyReplay` | backend/src/modules/cod/cod.service.ts:38-368 | Replaying a committed remittance, review, settlement or payout command after any run writes nothing |
| `LedgerLaws.MoneyStepKeeps` | backend/src/modules/shipping-fees/shipping-fees.service.ts:721-794 | Every money command keeps the ledger invariant, and writes only when it answers Done |
| `LedgerLaws.CollectedOnce` | backend/src/modules/shipping-fees/shipping-fees.service.ts:51-187 | A satisfied fee is never collected again; a collection that writes records the exact amount and one driver |
| `LedgerLaws.EvidenceIsFinal` | backend/src/modules/shipping-fees/shipping-fees.service.ts:400-683 | Who paid, how much and when survive remit, settle, dispute and resolve |
| `LedgerLaws.DisputedFeeIsFrozen` | backend/src/modules/shipping-fees/shipping-fees.service.ts:546-606 | While a fee is disputed only a successful resolution touches it |
| `LedgerLaws.ResolutionRestores` | backend/src/modules/shipping-fees/shipping-fees.service.ts:608-683 | Dispute, any other money commands, then resolve: the fee row is exactly what it was |
| `LedgerLaws.OneOpenDispute` | backend/src/modules/shipping-fees/shipping-fees.service.ts:546-683 | A DISPUTED fee has exactly one open dispute, any other fee none |
| `LedgerLaws.CodIsConserved` | backend/src/modules/cod/cod.service.ts:38-264 | The COD amount is with the driver, then verified once, then paid out: never more, less or twice |
| `LedgerLaws.RemittanceCounts` | backend/src/modules/cod/cod.service.ts:38-172 | Exactly one remittance is confirmed once REMITTED or SETTLED, none before, and at most one is pending |
| `LedgerLaws.ReplayWritesNothing` | backend/src/modules/cod/cod.service.ts:209-368 | Replay of a committed money command after any money commands writes nothing |
| `LedgerLaws.DisputeReplay` | backend/src/modules/shipping-fees/shipping-fees.service.ts:546-606 | The exception: a replayed dispute writes exactly when the fee is COLLECTED or REMITTED again |
| `LedgerLaws.ResolveReplay` | backend/src/modules/shipping-fees/shipping-fees.service.ts:608-683 | A replayed resolution writes exactly when the fee is disputed again |
| `LedgerLaws.DisputeReplayWrites` | backend/src/modules/shipping-fees/shipping-fees.service.ts:546-606 | A concrete fee for which the same dispute command writes twice |
| `LedgerLaws.ResolveReplayWrites` | backend/src/modules/shipping-fees/shipping-fees.service.ts:608-683 | A concrete fee for which the same resolution command resolves two disputes |
| `LedgerLaws.SampleIsReal` | backend/src/modules/shipping-fees/shipping-fees.service.ts:51-187 | That fee is one collection at pickup produces |
| `TripAnswers.CreateExact` | backend/src/modules/line-haul/line-haul-trips.service.ts:75-268 | The answer to creating a trip under a new key, as one table over the rows: which endpoint, driver, vehicle, window, transfer or weight is refused with what, and Done otherwise; and the row that Done adds |
| `TripAnswers.CreateKnownExact` | backend/src/modules/line-haul/line-haul-trips.service.ts:75-92 | Under a used key the same request, its manifest still the same, gets its trip back; any other is refused; nothing is written |
| `TripAnswers.ScheduleExact` | backend/src/modules/line-haul/line-haul-trips.service.ts:1419-1512 | A window is booked exactly on a PLANNED trip at its expected version, for an eligible driver without a task and an available vehicle, both free then; only window and version change |
| `TripAnswers.UnscheduleExact` | backend/src/modules/line-haul/line-haul-trips.service.ts:761-814 | A window is cleared exactly on a scheduled PLANNED trip at its expected version |
| `TripAnswers.PrepareEffect` | backend/src/modules/line-haul/line-haul-trips.service.ts:838-890 | A prepared trip is READY with the weight of its manifest and the capacity of its vehicle; route version 1 is stored and current exactly when one was found and both ends have a place |
| `TripAnswers.ArriveEffect` | backend/src/modules/line-haul/line-haul-trips.service.ts:1049-1157 | Arrival writes the trip as ARRIVED and its vehicle as AVAILABLE and nothing else |
| `TripAnswers.RerouteEffect` | backend/src/modules/line-haul/line-haul-trips.service.ts:1226-1311 | A committed reroute adds the next route version, makes it current and changes nothing else |
| `TripAnswers.RerouteExact` | backend/src/modules/line-haul/line-haul-trips.service.ts:1159-1356 | A reroute can be asked for exactly while the trip is IN_TRANSIT on a stored route to a warehouse with a place, from a position less than 20 s old; if nothing changes it commits exactly until that age is reached |
| `TripAnswers.CancelExact` | backend/src/modules/line-haul/line-haul-trips.service.ts:1358-1417 | A trip is cancelled exactly while PLANNED or READY; its whole manifest is freed and nothing else written |
| `TripAnswers.RemoveExact` | backend/src/modules/line-haul/line-haul-trips.service.ts:682-741 | A transfer is taken off exactly a PLANNED trip that has it |
| `TripAnswers.CapacityExact` | backend/src/modules/line-haul/line-haul-vehicles.service.ts:104-192 | A capacity changes exactly when it is valid, the vehicle is not IN_USE, the trips locked are its active trips and every one of their manifests fits |
| `TripAnswers.VehicleStatusExact` | backend/src/modules/line-haul/line-haul-vehicles.service.ts:206-274 | A vehicle changes service exactly while it is not IN_USE and no READY or IN_TRANSIT trip has it |
| `TransferAnswers.CheckInExact` | backend/src/modules/warehouses/warehouses.service.ts:504-626 | A shipment is checked in exactly once, after pickup, at the open warehouse that is its origin; what is then written |
| `TransferAnswers.RouteExact` | backend/src/modules/warehouses/warehouses.service.ts:632-749 | A destination is chosen exactly for a shipment at its origin without a transfer; where that is the origin itself it awaits delivery at once |
| `TransferAnswers.MarkReadyExact` | backend/src/modules/warehouses/warehouses.service.ts:751-847 | Only a shipment at its destination is ever marked ready; at its origin the answer is always that it still has to go elsewhere |
| `TransferAnswers.CreateTransferExact` | backend/src/modules/warehouses/warehouses.service.ts:853-1022 | Under a new key a transfer is created exactly for a shipment at its origin, with this destination and no open transfer; an open one on the same leg is recognised |
| `TransferAnswers.TransferKnownExact` | backend/src/modules/warehouses/warehouses.service.ts:853-905 | Under a used key the same transfer is recognised and any other refused |
| `TransferAnswers.DispatchTransferExact` | backend/src/modules/warehouses/warehouse-transfer-lifecycle.service.ts:96-219 | A transfer leaves on its own exactly from its source, on no manifest, with both ends open and before the cutover; both rows written are given |
| `TransferAnswers.ReceiveTransferExact` | backend/src/modules/warehouses/warehouse-transfer-lifecycle.service.ts:221-361 | A moving transfer is received exactly at its open destination, off an ARRIVED trip or on its own where the cutover allows; both rows written are given |
| `TransferAnswers.ReceiveReturnExact` | backend/src/modules/warehouses/warehouses.service.ts:1372-1450 | A returning shipment ends exactly at the open warehouse named for it |
| `ParcelAnswers.CreateShipmentExact` | backend/src/modules/shipments/shipments.service.ts:38-187 | A new key within the limits always creates a PENDING shipment with a pending fee and no COD yet |
| `ParcelAnswers.ConfirmExact` | backend/src/modules/assignments/assignments.service.ts:189-268 | Exactly a PENDING or CONFIRMED shipment is confirmed and awaits pickup |
| `ParcelAnswers.CancelShipmentExact` | backend/src/modules/shipments/shipments.service.ts:236-316 | Exactly when a customer's cancellation goes through, and that shipment and fee are then both CANCELLED |
| `ParcelAnswers.AssignPickupExact` | backend/src/modules/assignments/assignments.service.ts:706-909 | Exactly when a pickup is given or handed over; the new task, the engaged driver, the replaced task and the freed driver are all given |
| `ParcelAnswers.AssignKnownExact` | backend/src/modules/assignments/assignments.service.ts:706-740 | Under a used key an assignment is recognised exactly for a shipment it was used for (a delivery for a delivery), refused for any other, and nothing is written |
| `ParcelAnswers.AssignDeliveryExact` | backend/src/modules/assignments/delivery.service.ts:155-279 | A delivery is given exactly to an eligible free driver of the shipment's destination warehouse; task, shipment and driver rows are given |
| `ParcelAnswers.AcceptExact` | backend/src/modules/assignments/assignments.service.ts:339-424 | Exactly when a task is accepted and what is written |
| `ParcelAnswers.RejectExact` | backend/src/modules/assignments/assignments.service.ts:426-540 | Exactly when a pickup is rejected; it awaits a driver again, and the driver is available if online, offline otherwise, without a task |
| `ParcelAnswers.PickUpExact` | backend/src/modules/assignments/assignments.service.ts:542-704 | A pickup is completed exactly by its driver with the fee met; shipment, task and fee rows are given, and the driver is available if online, offline otherwise, without a task |
| `ParcelAnswers.StartDeliveryExact` | backend/src/modules/assignments/delivery.service.ts:281-371 | Exactly when a delivery starts; the attempt opened carries the next number |
| `ParcelAnswers.CompleteExact` | backend/src/modules/assignments/delivery.service.ts:373-501 | An accepted delivery is completed exactly by its driver with the fee met; every row written is given, and the driver is available if online, offline otherwise, without a task |
| `ParcelAnswers.FailExact` | backend/src/modules/assignments/delivery.service.ts:503-581 | An accepted delivery can always be reported failed by its driver, who is freed; every row written is given |
| `ParcelAnswers.RedeliverExact` | backend/src/modules/assignments/delivery.service.ts:583-593 | Exactly a failed delivery awaits assignment again |
| `ParcelAnswers.RequestReturnExact` | backend/src/modules/assignments/delivery.service.ts:595-644 | A failed delivery is to go back to the open warehouse named or else to its origin, which it always has |
| `ParcelAnswers.StartReturnEffect` | backend/src/modules/assignments/delivery.service.ts:646-749 | What a return that starts writes |
| `DriverAnswers.DriversAreFit` | backend/src/modules/line-haul/line-haul.policy.ts:35-70 | The driver of every READY or IN_TRANSIT trip has an active user and LINE_HAUL and is not suspended; the driver of every active task has an active user and its capability and is not suspended |
| `DriverAnswers.CreateDriverExact` | backend/src/modules/drivers/drivers.service.ts:37-110 | A driver is created exactly for an open warehouse, for parcels only, offline, or suspended with his account |
| `DriverAnswers.UpdateDriverExact` | backend/src/modules/drivers/drivers.service.ts:175-288 | Exactly when a driver is suspended, restored or moved to another warehouse, and that this is what is written |
| `DriverAnswers.CapabilitiesExact` | backend/src/modules/drivers/drivers.service.ts:290-374 | Capabilities change exactly when what the driver is doing stays covered |
| `DriverAnswers.AvailabilityExact` | backend/src/modules/drivers/drivers.service.ts:376-450 | A driver in good standing goes online or offline as asked, but never offline with a task; online he is available exactly when he has none |
| `DriverAnswers.UserStatusExact` | backend/src/modules/users/users.service.ts:167-277 | Exactly when a driver's account is suspended or restored and what becomes of the driver |
| `MoneyAnswers.FeeRemitExact` | backend/src/modules/shipping-fees/shipping-fees.service.ts:400-484 | The collecting driver hands over exactly the whole fee exactly once |
| `MoneyAnswers.FeeSettleExact` | backend/src/modules/shipping-fees/shipping-fees.service.ts:486-544 | Exactly a REMITTED fee is settled |
| `MoneyAnswers.FeeDisputeExact` | backend/src/modules/shipping-fees/shipping-fees.service.ts:546-606 | Exactly a COLLECTED or REMITTED fee is disputed, with a reason |
| `MoneyAnswers.FeeResolveExact` | backend/src/modules/shipping-fees/shipping-fees.service.ts:608-683 | A dispute is resolved exactly with a note, and the fee goes back to where its money is |
| `MoneyAnswers.PayOnlineExact` | backend/src/modules/shipping-fees/payments/shipping-fee-payments.service.ts:400-491 | An online payment opens exactly from a pending fee, and only then fails back to it or pays it in full |
| `MoneyAnswers.CodRemitExact` | backend/src/modules/cod/cod.service.ts:38-95 | Under a new key the collector's exact amount is accepted exactly while the COD is COLLECTED and no remittance is pending, also after a declined one; one pending remittance is appended |
| `MoneyAnswers.CodRemitKnownExact` | backend/src/modules/cod/cod.service.ts:47-68 | Under a used key the same handover is recognised and another refused |
| `MoneyAnswers.CodReviewExact` | backend/src/modules/cod/cod.service.ts:97-172 | Exactly a pending remittance at its expected version is reviewed, a rejection only with a reason; what each writes |
| `MoneyAnswers.CodSettleExact` | backend/src/modules/cod/cod.service.ts:174-207 | Exactly a REMITTED COD is settled |
| `MoneyAnswers.PayoutCreateExact` | backend/src/modules/cod/cod.service.ts:209-264 | A payout is created exactly for a SETTLED COD without one, in its exact amount |
| `MoneyAnswers.PayoutSendExact` | backend/src/modules/cod/cod.service.ts:266-311 | A created payout is sent exactly at its expected version under its own reference |
| `MoneyAnswers.NothingThere` | backend/src/modules/cod/cod.service.ts:97-368 | Without COD or payout the commands on them are refused |
| `MoneyAnswers.PayoutAcknowledgeExact` | backend/src/modules/cod/cod.service.ts:313-368 | A sent payout is confirmed, or contested with a reason, exactly by its customer at its expected version |
| `CapacityRace.MoveKeeps` | backend/src/modules/line-haul/line-haul-vehicles.service.ts:104-192 | Each lock, read, commit or abort of create, assign, remove, prepare, move, cancel and updateCapacity keeps what every other transaction has checked |
| `CapacityRace.CapacityHolds` | backend/src/modules/line-haul/line-haul-vehicles.service.ts:110-165 | Under any interleaving no active trip outweighs its vehicle, no transfer is on two manifests, and the prepared weight stays the manifest weight |
| `CapacityRace.UpdateNeverLosesTheRace` | backend/src/modules/line-haul/line-haul-vehicles.service.ts:159-171 | The compare-and-set that ends a checked capacity update always succeeds |
| `ScheduleRace.MoveKeeps` | backend/src/modules/line-haul/line-haul-trips.service.ts:1659-1680 | Each lock taken, check, commit or abort of any line-haul transaction keeps the bookings, the vehicles and what every other transaction has checked |
| `ScheduleRace.BookingsHold` | backend/src/modules/line-haul/line-haul-trips.service.ts:1454-1473 | Under any interleaving windows of active trips sharing a driver or vehicle are disjoint, READY and IN_TRANSIT trips have one, and a vehicle is IN_USE exactly while exactly one trip of it is IN_TRANSIT |
| `ScheduleRace.NoDeadlock` | backend/src/modules/line-haul/line-haul-vehicles.service.ts:117-118 | While any line-haul transaction is under way, one of them waits for nobody: locks go to trips, driver, vehicle and transfers in that order, ids ascending |
| `DriverRace.ExclusionHolds` | backend/src/modules/assignments/driver-task-ownership.service.ts:7-44 | Under any interleaving of assignment, preparation, availability, suspension, capability and warehouse changes a driver keeps at most one task, none beside a trip, stays eligible for what he has, and keeps his operating warehouse while he has a task |
| `DriverRace.LockedChangesCommit` | backend/src/modules/drivers/drivers.service.ts:290-374 | Suspensions and capability changes that passed their checks always commit |
| `DriverRace.StaleAssignmentIsCaught` | backend/src/modules/assignments/assignments.service.ts:1021-1036 | An assignment whose driver got another task since it read the row cannot commit |
| `Sessions.SessionsAreCurrentAndSingle` | backend/src/modules/auth/auth.service.ts:105-165 | In every committed state each live session was created under the current password, and each sign-in has at most one live session among its rotations |
| `Sessions.RevocationNeverWaits` | backend/src/modules/auth/auth.service.ts:213-263 | A reset or change that has written the password never waits for a session row |
| `SessionRuns.SignInAlone` | backend/src/modules/auth/auth.service.ts:85-103 | Undisturbed, a sign-in with the right password succeeds exactly for an active user and adds one live session |
| `SessionRuns.RefreshAlone` | backend/src/modules/auth/auth.service.ts:105-165 | Undisturbed, a refresh succeeds exactly for a live session of an active user, revokes it and adds the one it was rotated into |
| `SessionRuns.ResetAlone` | backend/src/modules/auth/auth.service.ts:213-263 | Undisturbed, a reset succeeds exactly with an unused token; it changes the password, revokes every session and uses up the token |
| `SessionRuns.ChangeAlone` | backend/src/modules/auth/auth.service.ts:265-320 | Undisturbed, a change to another password by an active user who knows the current one succeeds and revokes every session |
| `SessionRuns.ResetTokenOnce` | backend/src/modules/auth/auth.service.ts:213-240 | Under any interleaving a reset token changes the password at most once |
| `Planner.Recommend` | backend/src/modules/line-haul/line-haul-planning.policy.ts:149-210 | The nested push/sort/pop loops compute the bounded best list over the candidates |
| `Planner.BuildWindows` | backend/src/modules/line-haul/line-haul-planning.policy.ts:109-129 | The window loop lists the half-hourly departures |
| `Planner.DepartureAt` | backend/src/modules/line-haul/line-haul-planning.policy.ts:109-129 | The n-th window leaves n half hours after the start, and a window is listed exactly when it still ends in time |
| `Planner.DurationMinutes` | backend/src/modules/line-haul/line-haul-planning.policy.ts:99-107 | The planned duration is the least multiple of 30 minutes, at least 60, that covers route plus buffer |
| `Planner.SelectTransfers` | backend/src/modules/line-haul/line-haul-planning.policy.ts:131-147 | The packing loop computes the greedy selection and its weight |
| `Planner.SelectIsMaximal` | backend/src/modules/line-haul/line-haul-planning.policy.ts:131-147 | A selection fits the capacity and leaves behind nothing that would still fit |
| `Planner.PointsInRange` | backend/src/modules/line-haul/line-haul-planning.policy.ts:228-275 | Scores lie in 0..100 |
| `PlannerLaws.ResultIsFirstFeasible` | backend/src/modules/line-haul/line-haul-planning.policy.ts:149-226 | The recommendations are exactly the first k of all feasible vehicle, window and driver choices under a strict total order |
| `PlannerLaws.OrderDoesNotMatter` | backend/src/modules/line-haul/line-haul-planning.policy.ts:149-226 | They do not depend on the order of the inputs |
| `PlannerLaws.RecommendationsAreSane` | backend/src/modules/line-haul/line-haul-planning.policy.ts:131-275 | Every recommendation fits its vehicle, is maximal and scores within 0..100 |
| `PlannerAgreement.RecommendationsAreAccepted` | backend/src/modules/line-haul/line-haul-planning.service.ts:85-213 | Every recommendation is accepted by create in the state it was computed from |
| `PlannerCompleteness.ProposesWhatCreateAccepts` | backend/src/modules/line-haul/line-haul-planning.service.ts:85-213 | When the rows read are all there are, every vehicle, driver and departure on the grid for which create would accept some manifest is proposed exactly when the driver is on no READY or IN_TRANSIT trip |
| `PlannerOrder.BestFirst` | backend/src/modules/line-haul/line-haul-planning.policy.ts:149-226 | The list holds proposals alone, never a lower score before a higher one, on equal scores the fuller, then the one with more transfers, then the earlier first; a proposal left out is behind all listed ones and the list is then full |
| `PlannerOrder.ScoreIs` | backend/src/modules/line-haul/line-haul-planning.policy.ts:228-275 | A score is the nearest integer to 45 points by the rounded share of capacity used, four per transfer up to five, twenty less two for each later departure, ten or five for the route and five for a driver based at the origin |
| `PlannerOrder.SameVehicle` | backend/src/modules/line-haul/line-haul-planning.policy.ts:228-275 | Between proposals of one vehicle the driver based at the origin gains five, and each later departure costs two until the tenth |
| `PlannerOrder.BetterRoute` | backend/src/modules/line-haul/line-haul-planning.policy.ts:228-275 | All else equal, a road route gains five over an estimate and ten over none |
| `PlannerOrder.FullerNeverLoses` | backend/src/modules/line-haul/line-haul-planning.policy.ts:228-275 | At one departure and with one driver, a vehicle at least as full with at least as many transfers never scores less |
| `PlannerOrder.OldestFirst` | backend/src/modules/line-haul/line-haul-planning.policy.ts:131-147 | A load is in order of age, and takes exactly the transfers that still fit beside the older ones it took |
| `Throttle.Limiter.Run` | backend/src/redis/redis-throttler.storage.ts:8-25 | The script, command by command, computes the increment transition: a key is there through the millisecond it expires at, and a block is set only where none is |
| `Throttle.AtMostTwiceTheLimit` | backend/src/redis/redis-throttler.storage.ts:8-25 | One counter lifetime admits at most the limit, any half-open interval of one ttl at most twice the limit |
| `Throttle.BlockedWhileLive` | backend/src/redis/redis-throttler.storage.ts:9-22 | Once a request is told to wait, every later request on the key is refused until that time is up; a refusal outside a running block tells the full block length |
| `Throttle.RefusedExactly` | backend/src/redis/redis-throttler.storage.ts:8-25 | A request is refused exactly while a block runs or when the live counter has already admitted the limit |
| `Throttle.FullBlock` | backend/src/redis/redis-throttler.storage.ts:9-22 | A refusal that no earlier wait reaches tells a block of the configured length, or of one ttl where none is configured |
| `StageClock.StartedIsFirstOfVisit` | backend/src/modules/dashboards/control-tower.query.ts:99-112 | The boundary and entry aggregates give the first event of the current visit to a stage |
| `StageClock.NextEvent` | backend/src/modules/dashboards/control-tower.query.ts:99-112 | An event within the stage never moves its start, entering anew starts it, leaving clears it |
| `StageClock.EndsConsistently` | backend/src/modules/dashboards/control-tower.query.ts:89-91 | A history within the shipment's life that ends at its current status is never flagged inconsistent |
| `StageClock.SlaNeverImproves` | backend/src/modules/dashboards/control-tower.query.ts:80-92 | While a shipment stays in its stage, a shown SLA state stays shown, counts from the same start (column or history) and never goes back as the clock advances |
| `StageClock.SlaExact` | backend/src/modules/dashboards/control-tower.query.ts:80-157 | The stage is overdue from the instant its budget is used up, at risk from the instant the given percentage of it is, on time before, counted from its own column or the first event of the current visit |
| `WorkerPool.PoolIsMap` | backend/src/modules/routing/route-metrics.service.ts:214-231 | For every schedule the mapper is called at most once per item, in order, at most the bound is open at once; when all workers have stopped, the map is rejected only if a called item throws, and else its results are the sequential map |
| `WorkerPool.PoolProgresses` | backend/src/modules/routing/route-metrics.service.ts:214-231 | The pool never stalls and every move brings the end nearer |
| `WorkerPool.BatchFromPool` | backend/src/modules/routing/route-metrics.service.ts:118-127 | A batch sends at most the limit to the road-route path; it fails exactly when a request has no answer, and else has one metric per request |
| `Deviation.Monitor.Take` | backend/src/modules/routing/route-deviation.service.ts:42-99 | One sample overwrites the stored record as the evaluation says; if the write fails the record stays, UNKNOWN is shown and nothing announced |
| `Deviation.StateIsClosed` | backend/src/modules/routing/route-deviation.service.ts:42-99 | The state depends only on the trailing run of outside samples and the length of the stream |
| `Deviation.RecordIsClosed` | backend/src/modules/routing/route-deviation.service.ts:42-99 | With reads and writes failing and records expiring at any time, the record is the closed form of the samples written since it was last lost or unreadable |
| `Deviation.ChangesAreAnnounced` | backend/src/modules/routing/route-deviation.service.ts:60-98 | A change is announced exactly when that closed form changes |
| `Deviation.DetectedAtLastChange` | backend/src/modules/routing/route-deviation.service.ts:60-75 | The detection time is that of the sample that last changed the state |
| `TripService.CreateTrip` | backend/src/modules/line-haul/line-haul-trips.service.ts:75-268 | A known key returns its trip or is refused; otherwise one PLANNED trip and its manifest links are appended, after the transfer loop has checked and summed every candidate |
| `TripService.AssignTransfer` | backend/src/modules/line-haul/line-haul-trips.service.ts:594-680 | One active link is appended if the transfer is pending on the trip's leg, unowned, and the manifest with it fits the vehicle |
| `TripService.RemoveTransfer` | backend/src/modules/line-haul/line-haul-trips.service.ts:682-741 | The one active link of that transfer on that PLANNED trip is made inactive; an inactive one is recognised |
| `TripService.SetSchedule` | backend/src/modules/line-haul/line-haul-trips.service.ts:1419-1512 | Only the window and version of a PLANNED trip change, if the version is the expected one and driver and vehicle are eligible and free then |
| `TripService.Unschedule` | backend/src/modules/line-haul/line-haul-trips.service.ts:761-814 | The window of a PLANNED trip is cleared against the expected version |
| `TripService.PrepareTrip` | backend/src/modules/line-haul/line-haul-trips.service.ts:816-932 | READY is written with the summed manifest weight, the capacity and, when a route was found, route version 1 |
| `TripService.DispatchTrip` | backend/src/modules/line-haul/line-haul-trips.service.ts:934-1047 | Trip and vehicle are written first, then the manifest is sent transfer by transfer; the first refusal rolls everything back |
| `TripService.ArriveTrip` | backend/src/modules/line-haul/line-haul-trips.service.ts:1049-1157 | ARRIVED on the trip and AVAILABLE on its vehicle, guarded by the vehicle being IN_USE |
| `TripService.CommitReroute` | backend/src/modules/line-haul/line-haul-trips.service.ts:1226-1311 | The next route version is appended and made current if row, route, destination and GPS sample still match the preflight |
| `TripService.CancelTrip` | backend/src/modules/line-haul/line-haul-trips.service.ts:1358-1417 | The loop releases every active link of the trip, then the trip is CANCELLED |
| `TripService.UpdateCapacity` | backend/src/modules/line-haul/line-haul-vehicles.service.ts:104-192 | The loop over the re-read active trips refuses at the first that would not fit, or finds the hints stale; only then is the capacity written |
| `TripService.SetVehicleStatus` | backend/src/modules/line-haul/line-haul-vehicles.service.ts:206-274 | AVAILABLE or MAINTENANCE is written unless the vehicle is IN_USE or a READY or IN_TRANSIT trip has it |
| `WarehouseService.CheckIn` | backend/src/modules/warehouses/warehouses.service.ts:504-626 | Origin or pickup warehouse must match; the verified weight, origin and place of a PICKED_UP shipment are written |
| `WarehouseService.RouteDestination` | backend/src/modules/warehouses/warehouses.service.ts:632-749 | The destination of a shipment at its origin without open transfer is set; if that is where it stands, it awaits delivery |
| `WarehouseService.MarkReady` | backend/src/modules/warehouses/warehouses.service.ts:751-847 | A shipment standing at its destination awaits delivery; one at its origin is told that a destination or a transfer is missing |
| `WarehouseService.CreateTransfer` | backend/src/modules/warehouses/warehouses.service.ts:853-1022 | A known key or an open transfer on the same leg is recognised; otherwise one pending transfer is appended |
| `WarehouseService.ReceiveReturn` | backend/src/modules/warehouses/warehouses.service.ts:1372-1450 | A shipment on its way back is RETURNED at the warehouse named for it |
| `WarehouseService.DispatchTransfer` | backend/src/modules/warehouses/warehouse-transfer-lifecycle.service.ts:96-219 | Transfer and shipment leave together, standalone only before the cutover and without a manifest link |
| `WarehouseService.ReceiveTransfer` | backend/src/modules/warehouses/warehouse-transfer-lifecycle.service.ts:221-361 | Transfer and shipment arrive together, of a trip only once it has ARRIVED |
| `ParcelService.CreateShipment` | backend/src/modules/shipments/shipments.service.ts:38-187 | A known key is recognised; otherwise a PENDING shipment and its fee row are appended together |
| `ParcelService.CancelShipment` | backend/src/modules/shipments/shipments.service.ts:236-316 | Shipment and fee are CANCELLED together, or neither |
| `ParcelService.ConfirmShipment` | backend/src/modules/assignments/assignments.service.ts:189-268 | PENDING or CONFIRMED becomes awaiting pickup |
| `ParcelService.AssignPickup` | backend/src/modules/assignments/assignments.service.ts:706-909 | The previous task is CANCELLED and its driver relieved before the new one is offered and its driver made busy |
| `ParcelService.AcceptPickup` | backend/src/modules/assignments/assignments.service.ts:339-424 | A pending task of the driver becomes ACCEPTED with its shipment in progress |
| `ParcelService.RejectPickup` | backend/src/modules/assignments/assignments.service.ts:426-540 | The task is REJECTED, the shipment awaits pickup again, the driver is released |
| `ParcelService.PickUp` | backend/src/modules/assignments/assignments.service.ts:542-704 | The fee due is collected first; then task, shipment with its origin, and driver are written; a retry collects nothing again |
| `ParcelService.AssignDelivery` | backend/src/modules/assignments/delivery.service.ts:155-279 | A driver of the destination warehouse is offered the delivery and made busy |
| `ParcelService.StartDelivery` | backend/src/modules/assignments/delivery.service.ts:281-371 | The next numbered attempt is opened as the task is ACCEPTED |
| `ParcelService.CompleteDelivery` | backend/src/modules/assignments/delivery.service.ts:373-501 | Collection, attempt, task, driver, shipment and COD row in one transaction; a refused collection writes nothing |
| `ParcelService.FailDelivery` | backend/src/modules/assignments/delivery.service.ts:503-581 | The open attempt is FAILED, the task ended, the driver released |
| `ParcelService.Redeliver` | backend/src/modules/assignments/delivery.service.ts:583-593 | A failed delivery awaits assignment again |
| `ParcelService.RequestReturn` | backend/src/modules/assignments/delivery.service.ts:595-644 | A failed delivery is to go back to the named warehouse or to its origin |
| `ParcelService.StartReturn` | backend/src/modules/assignments/delivery.service.ts:646-749 | Only the driver of the newest, FAILED attempt starts the return |
| `DriverService.UpdateDriver` | backend/src/modules/drivers/drivers.service.ts:175-288 | Suspension or a new operating warehouse need an idle driver; suspension also no executing trip |
| `DriverService.SetCapabilities` | backend/src/modules/drivers/drivers.service.ts:290-374 | A capability in use by a task or executing trip is not removed |
| `DriverService.SetAvailability` | backend/src/modules/drivers/drivers.service.ts:376-450 | Status follows from online and having a task; going offline with one is refused |
| `DriverService.SetUserStatus` | backend/src/modules/users/users.service.ts:167-277 | Suspending the account suspends an idle driver; restoring it leaves the profile suspended |
| `LedgerService.Collect` | backend/src/modules/shipping-fees/shipping-fees.service.ts:51-187 | A due pending fee is collected in its exact amount; any other fee is accepted unchanged or refused |
| `LedgerService.RemitFee` | backend/src/modules/shipping-fees/shipping-fees.service.ts:400-484 | The collecting driver hands over the exact fee; the same handover again is recognised |
| `LedgerService.SettleFee` | backend/src/modules/shipping-fees/shipping-fees.service.ts:486-544 | A REMITTED fee is SETTLED once; settling it again is recognised |
| `LedgerService.DisputeFee` | backend/src/modules/shipping-fees/shipping-fees.service.ts:546-606 | One dispute is opened over a COLLECTED or REMITTED fee, remembering which it was |
| `LedgerService.ResolveDispute` | backend/src/modules/shipping-fees/shipping-fees.service.ts:608-683 | The open dispute gets its note and the fee its remembered status |
| `LedgerService.RemitCod` | backend/src/modules/cod/cod.service.ts:38-95 | The collector appends one pending remittance of the exact amount, if none is pending |
| `LedgerService.ReviewCod` | backend/src/modules/cod/cod.service.ts:97-172 | The pending remittance is confirmed, and the COD REMITTED, or rejected with a reason |
| `LedgerService.SettleCod` | backend/src/modules/cod/cod.service.ts:174-207 | REMITTED becomes SETTLED once |
| `LedgerService.CreatePayout` | backend/src/modules/cod/cod.service.ts:209-264 | One payout of the exact amount for a SETTLED COD; the same request again is recognised |
| `LedgerService.SendPayout` | backend/src/modules/cod/cod.service.ts:266-311 | A created payout is sent with the reference it was created with |
| `LedgerService.AcknowledgePayout` | backend/src/modules/cod/cod.service.ts:313-368 | The customer confirms a sent payout or contests it with a reason |
| `TripService.ManifestWeight` | backend/src/modules/line-haul/line-haul-capacity.ts:32-47 | The summing loop over a manifest stops at the first bad weight and otherwise gives its sum |
| `TripService.CheckExecution` | backend/src/modules/line-haul/line-haul-trips.service.ts:1621-1657 | The execution guards in their order, loops included, find the first refusal |
| `TripService.SendManifest` | backend/src/modules/line-haul/line-haul-trips.service.ts:981-991 | The dispatch loop stops at its first refusal |

## Left out

- Roles, staff scope and ownership of warehouses: a caller is taken to be allowed to call.
- Notifications, audit and tracking rows, real-time events: written on the side, never read back by the commands modelled.
- Creation of users, addresses, pricing formulas, listings, dashboards other than the stage clock: easy members.
- Creating warehouses, drivers and vehicles has no service method here; those commands are modelled on values only.
- Statuses DAMAGED and LOST: no command shown enters them.
- Rows without a schedule or capacity from before the line-haul cutover: unreachable from the empty database.
- Geometry, road providers and floating-point distances: a sample is inside or outside, a place present or absent. Planner percentages are exact thousandths instead of floating point.
- String comparison by locale: codes are positions in a total order.
- TripService.CreateTrip: checks the requested transfers in the order given; the service sorts their ids first, which only affects which refusal is reported.
- ParcelService.StartReturn: a later assignment is one later in the table; the service compares creation times.
- ParcelService.CreateShipment: tracking codes and their retry loop, parties and address snapshots are not modelled.
- DriverService.SetUserStatus: only accounts of drivers; token versions are in `Sessions`, and the rule against suspending oneself goes with roles.
- Sessions.SessionsAreCurrentAndSingle: one user at a time, since the protocol never touches two; expiry is left to aborts.
- DriverRace.ExclusionHolds: one driver at a time; a warehouse change sent together with a suspension is not a step of its own; handing a task to another driver is one task ending and one beginning.
- CapacityRace.CapacityHolds: schedules, in-use vehicles and the lock order are in `ScheduleRace`; a transfer is its weight.
- ScheduleRace.NoDeadlock: speaks of the explicit row locks; locks the database takes by itself on writing shipments, links and assignments are not part of it.
- Throttle.AtMostTwiceTheLimit: the local fallback used when Redis is unavailable is not modelled.
- Deviation.StateIsClosed: speaks of an undisturbed stream; failed reads, failed writes and expiry are in `Deviation.RecordIsClosed`.

/** The joint invariant of the back end, one predicate per coupling between
    tables. Each predicate takes only the tables it speaks of, so a command
    that leaves those tables alone keeps it for free. */
module Invariants {
  import opened Rows
  import opened Ledgers
  import opened LedgerLaws
  import opened Policies
  import opened Tables

  // ----- line haul -----

  predicate TripOk(t: Trip) {
    && t.origin != t.destination
    && (t.schedule.Some? ==> ValidWindow(t.schedule.value))
    && (ExecutingTrip(t.status) ==> t.schedule.Some?)
    && (FrozenTrip(t.status) ==> t.preparedGrams.Some? && t.preparedCapacity.Some?)
  }

  predicate TripsOk(trips: seq<Trip>) {
    forall i :: 0 <= i < |trips| ==> TripOk(trips[i])
  }

  predicate Apart(a: Trip, b: Trip) {
    (a.driver == b.driver || a.vehicle == b.vehicle)
    && ActiveTrip(a.status) && ActiveTrip(b.status) && a.schedule.Some? && b.schedule.Some?
    ==> !Overlap(a.schedule.value, b.schedule.value)
  }

  /** Active trips that share a driver or a vehicle have disjoint windows. */
  predicate SchedulesDisjoint(trips: seq<Trip>) {
    forall i, j :: 0 <= i < j < |trips| ==> Apart(trips[i], trips[j])
  }

  predicate Coupled(trip: TripStatus, transfer: TransferStatus) {
    match trip
    case Planned | Ready => transfer == Waiting
    case Underway => transfer == Moving
    case Arrived => transfer in {Moving, Completed}
    case Withdrawn => false
  }

  predicate LinkOk(trips: seq<Trip>, transfers: seq<Transfer>, l: Link) {
    l.active && l.trip < |trips| && l.transfer < |transfers| ==>
      && transfers[l.transfer].from == trips[l.trip].origin && transfers[l.transfer].to == trips[l.trip].destination
      && Coupled(trips[l.trip].status, transfers[l.transfer].status)
  }

  /** A transfer is on at most one manifest, in step with its trip. */
  predicate LinksOk(trips: seq<Trip>, links: seq<Link>, transfers: seq<Transfer>) {
    && (forall i :: 0 <= i < |links| ==> LinkOk(trips, transfers, links[i]))
    && (forall i, j :: 0 <= i < j < |links| && links[i].active && links[j].active ==> links[i].transfer != links[j].transfer)
    && (forall t :: 0 <= t < |trips| && FrozenTrip(trips[t].status) ==> HasManifest(links, t))
  }

  predicate TripLoadOk(t: Trip, grams: Result<int>, capacity: int) {
    && (ActiveTrip(t.status) ==> grams.Ok? && grams.value <= capacity)
    && (FrozenTrip(t.status) ==> grams.Ok? && t.preparedGrams == Some(grams.value) && t.preparedCapacity.Some? && grams.value <= t.preparedCapacity.value)
  }

  predicate CapacityOk(trips: seq<Trip>, vehicles: seq<Vehicle>, links: seq<Link>, loads: seq<int>) {
    && (forall v :: 0 <= v < |vehicles| ==> ValidCapacity(vehicles[v].capacity))
    && (forall t :: 0 <= t < |trips| && trips[t].vehicle < |vehicles| ==>
          TripLoadOk(trips[t], ManifestGrams(links, loads, t), vehicles[trips[t].vehicle].capacity))
  }

  /** A vehicle is in use exactly while exactly one of its trips is underway. */
  predicate VehiclesOk(trips: seq<Trip>, vehicles: seq<Vehicle>) {
    && (forall v :: 0 <= v < |vehicles| && vehicles[v].status == InUse ==>
          exists t :: 0 <= t < |trips| && trips[t].vehicle == v && trips[t].status == Underway)
    && (forall t :: 0 <= t < |trips| && trips[t].vehicle < |vehicles| ==>
          && (trips[t].status == Underway ==> vehicles[trips[t].vehicle].status == InUse)
          && (trips[t].status == Ready ==> vehicles[trips[t].vehicle].status in {Available, InUse}))
    && (forall t, u :: 0 <= t < u < |trips| && trips[t].status == Underway && trips[u].status == Underway ==>
          trips[t].vehicle != trips[u].vehicle)
  }

  predicate RoutesOk(trips: seq<Trip>, routes: seq<Route>) {
    && (forall r :: 0 <= r < |routes| ==> routes[r].version == CountRoutes(routes[..r], routes[r].trip) + 1)
    && (forall t :: 0 <= t < |trips| ==>
          match trips[t].route
          case None => CountRoutes(routes, t) == 0
          case Some(r) => r < |routes| && routes[r].trip == t && routes[r].version == CountRoutes(routes, t))
    && (forall t :: 0 <= t < |trips| && trips[t].status == Planned ==> trips[t].route == None)
  }

  // ----- transfers and shipments -----

  predicate AfterTransfer(s: ShipmentStatus) {
    s in {AtDestination, AwaitingDelivery, DeliveryAssigned, OutForDelivery, Delivered, DeliveryFailed,
          ReturnRequested, ReturnInTransit, Returned}
  }

  predicate TransferOk(t: Transfer, s: Shipment) {
    && t.from != t.to
    && (t.status == Waiting ==> s.status == AtOrigin && s.current == Some(t.from) && s.destination == Some(t.to) && t.dispatchedAt == None)
    && (t.status == Moving ==> s.status == InTransit && s.destination == Some(t.to) && t.dispatchedAt.Some?)
    && (t.status == Completed ==> AfterTransfer(s.status) && t.dispatchedAt.Some?)
  }

  /** A shipment has at most one transfer in its life, and moves with it. */
  predicate TransfersOk(transfers: seq<Transfer>, shipments: seq<Shipment>) {
    && (forall t :: 0 <= t < |transfers| && transfers[t].shipment < |shipments| ==> TransferOk(transfers[t], shipments[transfers[t].shipment]))
    && (forall t, u :: 0 <= t < u < |transfers| ==> transfers[t].shipment != transfers[u].shipment)
    && (forall s :: 0 <= s < |shipments| && shipments[s].status == InTransit ==>
          exists t :: 0 <= t < |transfers| && transfers[t].shipment == s && transfers[t].status == Moving)
  }

  predicate ShipmentOk(s: Shipment) {
    && (s.origin.Some? <==> CollectedFromSender(s.status))
    && (s.status == AtOrigin ==> s.current == s.origin && s.destination != s.origin)
    && (!CollectedFromSender(s.status) || s.status == PickedUp ==> s.destination == None)
    && (s.status == AtDestination ==> s.current.Some? && s.current == s.destination)
    && (s.status in {AwaitingDelivery, DeliveryAssigned, OutForDelivery, Delivered, DeliveryFailed} ==> s.destination.Some?)
    && (s.status in {ReturnRequested, ReturnInTransit, Returned} ==> s.returnTo.Some?)
    && (s.status == Returned ==> s.current == s.returnTo)
    && (s.verifiedGrams.Some? <==> CollectedFromSender(s.status) && s.status != PickedUp)
  }

  predicate ShipmentsOk(shipments: seq<Shipment>) {
    forall i :: 0 <= i < |shipments| ==> ShipmentOk(shipments[i])
  }

  // ----- drivers and their tasks -----

  predicate DriverOk(d: Driver) {
    && (d.available ==> d.status == Free && d.online)
    && (d.status == Suspended ==> !d.available)
    && (!d.userActive ==> d.status == Suspended)
  }

  predicate Occupies(a: Assignment, drivers: seq<Driver>) {
    ActiveAssignment(a.status) && a.driver < |drivers| ==>
      && !drivers[a.driver].available && drivers[a.driver].status != Suspended
      && a.kind in drivers[a.driver].capabilities
  }

  /** A driver has one task at a time and is not offered another; an executing
      trip keeps its driver eligible and clear of parcel tasks. */
  predicate DriversOk(drivers: seq<Driver>, trips: seq<Trip>, assignments: seq<Assignment>) {
    && (forall d :: 0 <= d < |drivers| ==> DriverOk(drivers[d]))
    && (forall a :: 0 <= a < |assignments| ==> Occupies(assignments[a], drivers))
    && (forall a, b :: 0 <= a < b < |assignments| && ActiveAssignment(assignments[a].status) && ActiveAssignment(assignments[b].status) ==>
          assignments[a].driver != assignments[b].driver)
    && (forall t :: 0 <= t < |trips| && ExecutingTrip(trips[t].status) && trips[t].driver < |drivers| ==>
          DriverError(drivers[trips[t].driver]) == None && !DriverAssigned(assignments, trips[t].driver))
  }

  function TaskStatus(kind: Capability, status: AssignmentStatus): ShipmentStatus {
    if kind == Pickup then if status == Offered then PickupAssigned else PickupInProgress
    else if status == Offered then DeliveryAssigned else OutForDelivery
  }

  predicate TaskOk(a: Assignment, shipments: seq<Shipment>) {
    && a.kind in {Pickup, Delivery}
    && (a.proof <==> a.kind == Pickup && a.status == Finished)
    && (a.shipment < |shipments| ==>
          && (ActiveAssignment(a.status) ==> shipments[a.shipment].status == TaskStatus(a.kind, a.status))
          && (a.proof ==> CollectedFromSender(shipments[a.shipment].status)))
  }

  predicate HasTask(assignments: seq<Assignment>, shipment: Id) {
    exists a :: 0 <= a < |assignments| && assignments[a].shipment == shipment && ActiveAssignment(assignments[a].status)
  }

  predicate Tasked(s: ShipmentStatus) {
    s in {PickupAssigned, PickupInProgress, DeliveryAssigned, OutForDelivery}
  }

  /** A shipment's status says whether it has a task, of which kind and how far
      along, and it never has two. */
  predicate TasksOk(shipments: seq<Shipment>, assignments: seq<Assignment>) {
    && (forall a :: 0 <= a < |assignments| ==> TaskOk(assignments[a], shipments))
    && (forall a, b :: 0 <= a < b < |assignments| && ActiveAssignment(assignments[a].status) && ActiveAssignment(assignments[b].status) ==>
          assignments[a].shipment != assignments[b].shipment)
    && (forall s :: 0 <= s < |shipments| && Tasked(shipments[s].status) ==> HasTask(assignments, s))
  }

  predicate AfterAttempt(s: ShipmentStatus) {
    s in {AwaitingDelivery, DeliveryAssigned, OutForDelivery, Delivered, DeliveryFailed, ReturnRequested, ReturnInTransit, Returned}
  }

  predicate AttemptOk(a: Attempt, assignments: seq<Assignment>, shipments: seq<Shipment>) {
    a.assignment < |assignments| && a.shipment < |shipments| ==>
      && assignments[a.assignment].shipment == a.shipment && assignments[a.assignment].kind == Delivery
      && assignments[a.assignment].status == (if a.status == Outgoing then Accepted else Finished)
      && AfterAttempt(shipments[a.shipment].status)
      && (a.status == Handed <==> shipments[a.shipment].status == Delivered && a.status != Failed)
  }

  predicate HasAttempt(attempts: seq<Attempt>, assignment: Id) {
    exists k :: 0 <= k < |attempts| && attempts[k].assignment == assignment
  }

  predicate HasAttemptWith(attempts: seq<Attempt>, shipment: Id, status: AttemptStatus) {
    exists k :: 0 <= k < |attempts| && attempts[k].shipment == shipment && attempts[k].status == status
  }

  predicate AttemptsNumbered(attempts: seq<Attempt>) {
    forall k :: 0 <= k < |attempts| ==> attempts[k].number == CountAttempts(attempts[..k], attempts[k].shipment) + 1
  }

  predicate AttemptsInTurn(attempts: seq<Attempt>) {
    && (forall j, k :: 0 <= j < k < |attempts| ==> attempts[j].assignment != attempts[k].assignment)
    && (forall j, k :: 0 <= j < k < |attempts| && attempts[j].shipment == attempts[k].shipment ==> attempts[j].status == Failed)
  }

  predicate AcceptedAttempted(assignments: seq<Assignment>, attempts: seq<Attempt>) {
    forall a :: 0 <= a < |assignments| && assignments[a].kind == Delivery && assignments[a].status == Accepted ==> HasAttempt(attempts, a)
  }

  predicate FailedOrReturning(s: ShipmentStatus) {
    s in {DeliveryFailed, ReturnRequested, ReturnInTransit, Returned}
  }

  predicate OutcomesAttempted(shipments: seq<Shipment>, attempts: seq<Attempt>) {
    forall s :: 0 <= s < |shipments| ==>
      && (shipments[s].status == Delivered ==> HasAttemptWith(attempts, s, Handed))
      && (FailedOrReturning(shipments[s].status) ==> HasAttemptWith(attempts, s, Failed))
  }

  /** Attempts are numbered 1, 2, ... per shipment and all but the last failed. */
  predicate AttemptsOk(shipments: seq<Shipment>, assignments: seq<Assignment>, attempts: seq<Attempt>) {
    && (forall k :: 0 <= k < |attempts| ==> AttemptOk(attempts[k], assignments, shipments))
    && AttemptsNumbered(attempts)
    && AttemptsInTurn(attempts)
    && AcceptedAttempted(assignments, attempts)
    && OutcomesAttempted(shipments, attempts)
  }

  predicate LedgersOk(shipments: seq<Shipment>, ledgers: seq<Ledger>) {
    forall i :: 0 <= i < |shipments| && i < |ledgers| ==>
      LedgerOk(shipments[i].status, ledgers[i]) && ledgers[i].terms.customer == shipments[i].customer
  }

  predicate Inv(db: Db) {
    && References(db)
    && TripsOk(db.trips)
    && SchedulesDisjoint(db.trips)
    && LinksOk(db.trips, db.links, db.transfers)
    && CapacityOk(db.trips, db.vehicles, db.links, Loads(db.transfers, db.shipments))
    && VehiclesOk(db.trips, db.vehicles)
    && RoutesOk(db.trips, db.routes)
    && TransfersOk(db.transfers, db.shipments)
    && ShipmentsOk(db.shipments)
    && DriversOk(db.drivers, db.trips, db.assignments)
    && TasksOk(db.shipments, db.assignments)
    && AttemptsOk(db.shipments, db.assignments, db.attempts)
    && LedgersOk(db.shipments, db.ledgers)
  }

  lemma Resolves(db: Db)
    requires Inv(db)
    ensures References(db)
  {
  }

  lemma EmptyInv()
    ensures Inv(EMPTY)
  {
  }
}

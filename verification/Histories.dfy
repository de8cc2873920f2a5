/** What one command may do to each row, and hence how a row can look later. */
module Histories {
  import opened Rows
  import opened Ledgers
  import opened LedgerLaws
  import opened Policies
  import opened Tables
  import opened Invariants
  import opened TripRows
  import opened Reachability
  import Transfers = TransferCommands
  import Trips = TripCommands
  import Parcels = ParcelCommands
  import Drivers = DriverCommands
  import KeepTrips
  import KeepTransfers
  import KeepParcels

  // ----- one step -----

  /** The edges of the shipment life cycle. */
  predicate ShipmentNext(a: ShipmentStatus, b: ShipmentStatus) {
    match a
    case Pending | Confirmed => b in {AwaitingPickup, Cancelled}
    case AwaitingPickup => b in {PickupAssigned, Cancelled}
    case PickupAssigned => b in {PickupInProgress, PickupAssigned, AwaitingPickup}
    case PickupInProgress => b in {PickedUp, PickupAssigned, AwaitingPickup}
    case PickedUp => b == AtOrigin
    case AtOrigin => b in {AtOrigin, InTransit, AwaitingDelivery}
    case InTransit => b == AtDestination
    case AtDestination => b == AwaitingDelivery
    case AwaitingDelivery => b == DeliveryAssigned
    case DeliveryAssigned => b == OutForDelivery
    case OutForDelivery => b in {Delivered, DeliveryFailed}
    case DeliveryFailed => b in {AwaitingDelivery, ReturnRequested}
    case ReturnRequested => b == ReturnInTransit
    case ReturnInTransit => b == Returned
    case Delivered | Returned | Cancelled => false
  }

  predicate ShipmentStep(s: Shipment, s': Shipment) {
    || s' == s
    || (&& ShipmentNext(s.status, s'.status) && s'.version == s.version + 1
        && s'.key == s.key && s'.customer == s.customer && s'.declaredGrams == s.declaredGrams
        && (s.verifiedGrams.Some? ==> s'.verifiedGrams == s.verifiedGrams)
        && (s.origin.Some? ==> s'.origin == s.origin))
  }

  predicate TransferStep(t: Transfer, t': Transfer) {
    || t' == t
    || (t.status == Waiting && t'.dispatchedAt.Some? && t' == t.(status := Moving, dispatchedAt := t'.dispatchedAt))
    || (t.status == Moving && t' == t.(status := Completed))
  }

  predicate TripNext(a: TripStatus, b: TripStatus) {
    match a
    case Planned => b in {Planned, Ready, Withdrawn}
    case Ready => b in {Underway, Withdrawn}
    case Underway => b in {Underway, Arrived}
    case Arrived | Withdrawn => false
  }

  predicate TripStep(t: Trip, t': Trip) {
    || t' == t
    || (&& TripNext(t.status, t'.status) && t'.version == t.version + 1
        && SameLeg(t, t') && t'.key == t.key
        && (FrozenTrip(t.status) ==> t'.preparedGrams == t.preparedGrams && t'.preparedCapacity == t.preparedCapacity && t'.schedule == t.schedule))
  }

  predicate VehicleStep(v: Vehicle, v': Vehicle) {
    v' == v || v'.version == v.version + 1
  }

  /** Restoring a user account is the one write that leaves the version alone. */
  predicate DriverStep(d: Driver, d': Driver) {
    d' == d || d'.version == d.version + 1 || (!d.userActive && d' == d.(userActive := true))
  }

  /** Who collected the customer's cash, and how much, is settled at delivery. */
  predicate SameCash(c: Cod, c': Cod) {
    c'.expected == c.expected && c'.collected == c.collected && c'.collector == c.collector
  }

  ghost predicate LedgerStep(l: Ledger, l': Ledger) {
    && l'.terms == l.terms
    && (Satisfied(l.fee) ==> SameEvidence(l.fee, l'.fee) && Satisfied(l'.fee))
    && (l.cod.Some? ==> l'.cod.Some? && SameCash(l.cod.value, l'.cod.value))
    && (forall c :: Replayable(c) && Recorded(l, c) ==> Recorded(l', c))
  }

  /** From READY on, until a cancellation, the manifest is frozen. */
  ghost predicate ManifestStep(db: Db, db': Db, t: Id) {
    t < |db.trips| <= |db'.trips| && FrozenTrip(db.trips[t].status) && FrozenTrip(db'.trips[t].status) ==>
      forall x: Id :: OnManifest(db'.links, t, x) <==> OnManifest(db.links, t, x)
  }

  predicate ShipmentsStep(a: seq<Shipment>, b: seq<Shipment>) {
    |a| <= |b| && forall i :: 0 <= i < |a| ==> ShipmentStep(a[i], b[i])
  }

  predicate TransfersStep(a: seq<Transfer>, b: seq<Transfer>) {
    |a| <= |b| && forall i :: 0 <= i < |a| ==> TransferStep(a[i], b[i])
  }

  predicate TripsStep(a: seq<Trip>, b: seq<Trip>) {
    |a| <= |b| && forall i :: 0 <= i < |a| ==> TripStep(a[i], b[i])
  }

  predicate VehiclesStep(a: seq<Vehicle>, b: seq<Vehicle>) {
    |a| <= |b| && forall i :: 0 <= i < |a| ==> VehicleStep(a[i], b[i])
  }

  predicate DriversStep(a: seq<Driver>, b: seq<Driver>) {
    |a| <= |b| && forall i :: 0 <= i < |a| ==> DriverStep(a[i], b[i])
  }

  ghost predicate LedgersStep(a: seq<Ledger>, b: seq<Ledger>) {
    |a| <= |b| && forall i :: 0 <= i < |a| ==> LedgerStep(a[i], b[i])
  }

  predicate AssignmentNext(a: AssignmentStatus, b: AssignmentStatus) {
    match a
    case Offered => b in {Accepted, Rejected, Replaced}
    case Accepted => b in {Finished, Rejected, Replaced}
    case _ => false
  }

  predicate AssignmentStep(a: Assignment, a': Assignment) {
    a' == a || (AssignmentNext(a.status, a'.status) && a' == a.(status := a'.status, proof := a'.proof))
  }

  predicate AttemptStep(n: Attempt, n': Attempt) {
    n' == n || (n.status == Outgoing && n' == n.(status := n'.status))
  }

  predicate TasksStep(db: Db, db': Db) {
    && |db.assignments| <= |db'.assignments|
    && (forall i :: 0 <= i < |db.assignments| ==> AssignmentStep(db.assignments[i], db'.assignments[i]))
    && |db.attempts| <= |db'.attempts| && (forall i :: 0 <= i < |db.attempts| ==> AttemptStep(db.attempts[i], db'.attempts[i]))
  }

  ghost predicate ManifestsStep(db: Db, db': Db) {
    forall t: Id :: ManifestStep(db, db', t)
  }

  ghost predicate Steps(db: Db, db': Db) {
    && ShipmentsStep(db.shipments, db'.shipments) && LedgersStep(db.ledgers, db'.ledgers)
    && TransfersStep(db.transfers, db'.transfers) && TripsStep(db.trips, db'.trips) && ManifestsStep(db, db')
    && VehiclesStep(db.vehicles, db'.vehicles) && DriversStep(db.drivers, db'.drivers) && TasksStep(db, db')
  }

  // ----- fleet commands -----

  predicate FleetOnly(db: Db, db': Db) {
    && db' == db.(warehouses := db'.warehouses, drivers := db'.drivers, vehicles := db'.vehicles)
    && DriversStep(db.drivers, db'.drivers) && VehiclesStep(db.vehicles, db'.vehicles)
  }

  lemma FleetOnlySteps(db: Db, db': Db)
    requires FleetOnly(db, db')
    ensures Steps(db, db')
  {
  }

  lemma DriverProfileStep(db: Db, id: Id, home: Option<Id>, suspended: Option<bool>, capabilities: set<Capability>)
    ensures FleetOnly(db, Drivers.UpdateDriver(db, id, home, suspended).0)
    ensures FleetOnly(db, Drivers.SetCapabilities(db, id, capabilities).0)
  {
    hide DriverAssigned, DriverExecuting, Drivers.AssignedFor;
  }

  lemma DriverStatusStep(db: Db, id: Id, active: bool)
    ensures FleetOnly(db, Drivers.SetAvailability(db, id, active).0)
    ensures FleetOnly(db, Drivers.SetUserStatus(db, id, active).0)
  {
    hide DriverAssigned, DriverExecuting;
  }

  lemma NewFleetStep(db: Db, id: Id, active: bool, home: Id, place: Option<int>, capacity: int)
    ensures FleetOnly(db, Drivers.CreateWarehouse(db, place).0)
    ensures FleetOnly(db, Drivers.UpdateWarehouse(db, id, active, place).0)
    ensures FleetOnly(db, Drivers.CreateDriver(db, active, home).0)
    ensures FleetOnly(db, Trips.CreateVehicle(db, capacity).0)
  {
  }

  lemma VehicleRowSteps(db: Db, db': Db, id: Id)
    requires db' == db || (id < |db.vehicles| == |db'.vehicles| && db' == db.(vehicles := db.vehicles[id := db'.vehicles[id]])
                           && VehicleStep(db.vehicles[id], db'.vehicles[id]))
    ensures FleetOnly(db, db')
  {
  }

  lemma VehicleCommandsStep(db: Db, id: Id, capacity: int, hints: seq<Id>, status: VehicleStatus)
    requires References(db)
    ensures FleetOnly(db, Trips.UpdateCapacity(db, id, capacity, hints).0)
    ensures FleetOnly(db, Trips.SetVehicleStatus(db, id, status).0)
  {
    hide References, FleetOnly, Trips.CarryingError, Trips.ActiveTrips, VehicleExecuting;
    VehicleRowSteps(db, Trips.UpdateCapacity(db, id, capacity, hints).0, id);
    VehicleRowSteps(db, Trips.SetVehicleStatus(db, id, status).0, id);
  }

  // ----- trip commands -----

  predicate TripsOnly(db: Db, db': Db) {
    && db' == db.(trips := db'.trips, vehicles := db'.vehicles, links := db'.links, routes := db'.routes)
    && TripsStep(db.trips, db'.trips) && VehiclesStep(db.vehicles, db'.vehicles)
  }

  lemma SameLinksStep(db: Db, db': Db)
    requires db'.links == db.links
    ensures ManifestsStep(db, db')
  {
  }

  lemma ScheduleCommandsStep(db: Db, id: Id, w: Window, reschedule: bool, version: int)
    requires References(db)
    ensures var db' := Trips.SetSchedule(db, id, w, reschedule, version).0; TripsOnly(db, db') && db'.links == db.links
    ensures var db' := Trips.Unschedule(db, id, version).0; TripsOnly(db, db') && db'.links == db.links
  {
    hide BookingError;
  }

  lemma PrepareStep(db: Db, id: Id, routed: bool)
    requires References(db)
    ensures var db' := Trips.PrepareTrip(db, id, routed).0; TripsOnly(db, db') && db'.links == db.links
  {
    hide Trips.ExecutionError;
    if id < |db.trips| { KeepTrips.PassedChecks(db, id); }
  }

  lemma RoadCommandsStep(db: Db, id: Id, seen: Trips.Preflight, now: int)
    requires References(db)
    ensures var db' := Trips.ArriveTrip(db, id).0; TripsOnly(db, db') && db'.links == db.links
    ensures var db' := Trips.CommitReroute(db, id, seen, now).0; TripsOnly(db, db') && db'.links == db.links
  {
  }

  lemma CreateTripStep(db: Db, c: Trips.NewTrip)
    requires References(db)
    ensures TripsOnly(db, Trips.CreateTrip(db, c).0) && ManifestsStep(db, Trips.CreateTrip(db, c).0)
  {
    hide References, Trips.NewTripError, Trips.SameTrip;
    var db' := Trips.CreateTrip(db, c).0;
    forall t: Id, x: Id | t < |db.trips| ensures OnManifest(db'.links, t, x) <==> OnManifest(db.links, t, x) {
      if OnManifest(db.links, t, x) {
        var i :| 0 <= i < |db.links| && db.links[i] == Link(t, x, true);
        assert db'.links[i] == db.links[i];
      }
    }
  }

  lemma AssignStep(db: Db, id: Id, transfer: Id)
    requires References(db)
    ensures TripsOnly(db, Trips.AssignTransfer(db, id, transfer).0) && ManifestsStep(db, Trips.AssignTransfer(db, id, transfer).0)
  {
    var db' := Trips.AssignTransfer(db, id, transfer).0;
    forall t: Id, x: Id | t != id ensures OnManifest(db'.links, t, x) <==> OnManifest(db.links, t, x) {
      if OnManifest(db.links, t, x) {
        var i :| 0 <= i < |db.links| && db.links[i] == Link(t, x, true);
        assert db'.links[i] == db.links[i];
      }
    }
  }

  lemma OtherManifests(links: seq<Link>, links': seq<Link>, t: Id, x: Id)
    requires |links| == |links'|
    requires forall i :: 0 <= i < |links| ==> links'[i] == links[i] || (links[i].trip != t && links'[i].trip != t)
    ensures OnManifest(links', t, x) <==> OnManifest(links, t, x)
  {
    if OnManifest(links, t, x) {
      var i :| 0 <= i < |links| && links[i] == Link(t, x, true);
      assert links'[i] == links[i];
    }
  }

  lemma RemoveStep(db: Db, id: Id, transfer: Id)
    requires References(db)
    ensures TripsOnly(db, Trips.RemoveTransfer(db, id, transfer).0) && ManifestsStep(db, Trips.RemoveTransfer(db, id, transfer).0)
  {
    var db' := Trips.RemoveTransfer(db, id, transfer).0;
    forall t: Id, x: Id | t != id ensures OnManifest(db'.links, t, x) <==> OnManifest(db.links, t, x) {
      OtherManifests(db.links, db'.links, t, x);
    }
  }

  lemma CancelTripStep(db: Db, id: Id)
    requires References(db)
    ensures TripsOnly(db, Trips.CancelTrip(db, id).0) && ManifestsStep(db, Trips.CancelTrip(db, id).0)
  {
    var db' := Trips.CancelTrip(db, id).0;
    forall t: Id, x: Id | t != id ensures OnManifest(db'.links, t, x) <==> OnManifest(db.links, t, x) {
      OtherManifests(db.links, db'.links, t, x);
    }
  }

  lemma TripsOnlySteps(db: Db, db': Db)
    requires TripsOnly(db, db') && ManifestsStep(db, db')
    ensures Steps(db, db')
  {
  }

  // ----- transfers -----

  predicate TransfersOnly(db: Db, db': Db) {
    && db' == db.(shipments := db'.shipments, transfers := db'.transfers)
    && ShipmentsStep(db.shipments, db'.shipments) && TransfersStep(db.transfers, db'.transfers)
  }

  lemma TransfersOnlySteps(db: Db, db': Db)
    requires TransfersOnly(db, db')
    ensures Steps(db, db')
  {
    SameLinksStep(db, db');
  }

  lemma CheckInStep(db: Db, warehouse: Id, id: Id, grams: int, verified: bool)
    requires Inv(db)
    ensures TransfersOnly(db, Parcels.CheckIn(db, warehouse, id, grams, verified).0)
  {
    hide TripsOk, SchedulesDisjoint, LinksOk, CapacityOk, VehiclesOk, RoutesOk, TransfersOk, ShipmentsOk,
         DriversOk, TasksOk, AttemptsOk, LedgersOk;
    if id < |db.shipments| { KeepParcels.ShipmentAt(db, id); }
  }

  lemma ParcelRoutingStep(db: Db, warehouse: Id, id: Id, to: Id)
    ensures TransfersOnly(db, Parcels.RouteDestination(db, warehouse, id, to).0)
    ensures TransfersOnly(db, Parcels.MarkReady(db, warehouse, id).0)
  {
    hide TransferUnderway;
  }

  lemma CreateTransferStep(db: Db, key: Id, warehouse: Id, id: Id, to: Id)
    requires References(db)
    ensures TransfersOnly(db, Transfers.CreateTransfer(db, key, warehouse, id, to).0)
  {
  }

  lemma DispatchTransferStep(db: Db, warehouse: Id, id: Id, cutover: Option<int>, now: int)
    requires Inv(db)
    ensures TransfersOnly(db, Transfers.DispatchTransfer(db, warehouse, id, None, cutover, now).0)
  {
    hide TripsOk, SchedulesDisjoint, LinksOk, CapacityOk, VehiclesOk, RoutesOk, TransfersOk, ShipmentsOk,
         DriversOk, TasksOk, AttemptsOk, LedgersOk;
    if id < |db.transfers| { KeepTransfers.WaitingIsAtOrigin(db.transfers, db.shipments, id); }
  }

  lemma ReceiveTransferStep(db: Db, warehouse: Id, id: Id, cutover: Option<int>, now: int)
    requires References(db)
    ensures TransfersOnly(db, Transfers.ReceiveTransfer(db, warehouse, id, cutover, now).0)
  {
  }

  lemma DispatchTripStep(db: Db, id: Id, now: int)
    requires Inv(db)
    ensures Steps(db, Trips.DispatchTrip(db, id, now).0)
  {
    hide TripsOk, SchedulesDisjoint, LinksOk, CapacityOk, VehiclesOk, RoutesOk, TransfersOk, ShipmentsOk,
         DriversOk, TasksOk, AttemptsOk, LedgersOk,
      Trips.DispatchTrip, KeepTransfers.Carries, KeepTransfers.Sent, Trips.Departed, Trips.ExecutionError, Manifest;
    KeepTransfers.DispatchRefused(db, id, now);
    if Trips.DispatchTrip(db, id, now).1 == Done {
      DepartureSteps(db, id);
      SentSteps(db, id, now);
      SameLinksStep(db, Trips.DispatchTrip(db, id, now).0);
    }
  }

  lemma DepartureSteps(db: Db, id: Id)
    requires References(db) && id < |db.trips| && db.trips[id].status == Ready
    ensures TripsOnly(db, Trips.Departed(db, id)) && Trips.Departed(db, id).links == db.links
  {
  }

  lemma SentSteps(db: Db, id: Id, now: int)
    requires References(db) && TransfersOk(db.transfers, db.shipments) && id < |db.trips| && Trips.ExecutionError(db, id) == None
    ensures var ids := Manifest(db.links, id);
            var db1 := Trips.Departed(db, id);
            TransfersOnly(db1, KeepTransfers.Sent(db1, ids, now)) && db1.shipments == db.shipments && db1.transfers == db.transfers
  {
    hide References, TransfersOk, Trips.ExecutionError, DispatchableError, Manifest;
    var ids := Manifest(db.links, id);
    KeepTransfers.PassedManifest(db, id);
    var db1 := Trips.Departed(db, id);
    var db2 := KeepTransfers.Sent(db1, ids, now);
    forall s | 0 <= s < |db.shipments| ensures ShipmentStep(db.shipments[s], db2.shipments[s]) {
      if KeepTransfers.Carries(db.transfers, ids, s) { KeepTransfers.CarriedIsAtOrigin(db, id, s); }
    }
    forall t: Id | t < |db.transfers| ensures TransferStep(db.transfers[t], db2.transfers[t]) {
      if t in ids { KeepTransfers.ListedPassed(db, id, ids, t); ListedIsWaiting(db, id, t); }
    }
  }

  lemma ListedIsWaiting(db: Db, id: Id, t: Id)
    requires References(db) && id < |db.trips| && t < |db.transfers|
    requires DispatchableError(db.transfers[t], db.shipments[db.transfers[t].shipment], db.trips[id].origin, db.trips[id].destination) == None
    ensures db.transfers[t].status == Waiting
  {
  }

  // ----- parcels -----

  ghost predicate ParcelsOnly(db: Db, db': Db) {
    && db' == db.(shipments := db'.shipments, ledgers := db'.ledgers, drivers := db'.drivers, assignments := db'.assignments, attempts := db'.attempts)
    && ShipmentsStep(db.shipments, db'.shipments) && LedgersStep(db.ledgers, db'.ledgers) && DriversStep(db.drivers, db'.drivers)
    && TasksStep(db, db')
  }

  lemma ParcelsOnlySteps(db: Db, db': Db)
    requires ParcelsOnly(db, db')
    ensures Steps(db, db')
  {
    SameLinksStep(db, db');
  }

  lemma SameLedgersStep(ledgers: seq<Ledger>)
    ensures LedgersStep(ledgers, ledgers)
  {
  }

  /** At most one shipment row is rewritten. */
  lemma OneShipmentSteps(db: Db, db': Db, id: Id)
    requires db' == db || (id < |db.shipments| == |db'.shipments| && db' == db.(shipments := db.shipments[id := db'.shipments[id]])
                           && ShipmentStep(db.shipments[id], db'.shipments[id]))
    ensures ParcelsOnly(db, db')
  {
    hide LedgersStep;
    SameLedgersStep(db.ledgers);
  }

  lemma DispatcherStatusStep(db: Db, id: Id, warehouse: Option<Id>)
    ensures ParcelsOnly(db, Parcels.ConfirmShipment(db, id).0)
    ensures ParcelsOnly(db, Parcels.Redeliver(db, id).0)
    ensures ParcelsOnly(db, Parcels.RequestReturn(db, id, warehouse).0)
  {
    hide ParcelsOnly;
    OneShipmentSteps(db, Parcels.ConfirmShipment(db, id).0, id);
    OneShipmentSteps(db, Parcels.Redeliver(db, id).0, id);
    OneShipmentSteps(db, Parcels.RequestReturn(db, id, warehouse).0, id);
  }

  lemma ReturnStatusStep(db: Db, id: Id, to: Id, driver: Id)
    requires References(db)
    ensures ParcelsOnly(db, Parcels.StartReturn(db, id, driver).0)
    ensures ParcelsOnly(db, Parcels.ReceiveReturn(db, to, id).0)
  {
    hide ParcelsOnly;
    OneShipmentSteps(db, Parcels.StartReturn(db, id, driver).0, id);
    OneShipmentSteps(db, Parcels.ReceiveReturn(db, to, id).0, id);
  }

  lemma NewParcelStep(db: Db, key: Id, terms: Terms, grams: int)
    ensures ParcelsOnly(db, Parcels.CreateShipment(db, key, terms, grams).0)
  {
    hide LedgerStep;
    forall i | 0 <= i < |db.ledgers| ensures LedgerStep(db.ledgers[i], db.ledgers[i]) { LedgerStepSame(db.ledgers[i]); }
  }

  lemma LedgerStepSame(l: Ledger)
    ensures LedgerStep(l, l)
  {
  }

  lemma LedgerRowSteps(ledgers: seq<Ledger>, id: Id, l: Ledger)
    requires id < |ledgers| && LedgerStep(ledgers[id], l)
    ensures LedgersStep(ledgers, ledgers[id := l])
  {
    forall i | 0 <= i < |ledgers| && i != id ensures LedgerStep(ledgers[i], ledgers[i]) { LedgerStepSame(ledgers[i]); }
  }

  lemma MoneyLedgerStep(status: ShipmentStatus, l: Ledger, c: MoneyCommand)
    requires LedgerOk(status, l)
    ensures LedgerStep(l, MoneyStep(l, c).0)
  {
    hide MoneyStep, FeeShape, DisputesOk, CodOk, Recorded;
    KeepParcels.MoneyKeepsTerms(l, c);
    MoneyKeepsCash(l, c);
    if Satisfied(l.fee) { EvidenceStep(status, l, c); }
    forall d | Replayable(d) && Recorded(l, d) ensures Recorded(MoneyStep(l, c).0, d) { RecordedStays(status, l, d, c); }
  }

  lemma MoneyKeepsCash(l: Ledger, c: MoneyCommand)
    ensures l.cod.Some? ==> MoneyStep(l, c).0.cod.Some? && SameCash(l.cod.value, MoneyStep(l, c).0.cod.value)
  {
  }

  lemma CancelLedgerStep(l: Ledger)
    requires FeeShape(l.fee) && CancelFee(l).Ok?
    ensures LedgerStep(l, CancelFee(l).value)
  {
  }

  lemma CollectLedgerStep(status: ShipmentStatus, l: Ledger, point: Point, driver: Id, amount: Option<int>, now: int)
    requires LedgerOk(status, l) && CollectAt(l, point, driver, amount, now).Ok?
    ensures LedgerStep(l, CollectAt(l, point, driver, amount, now).value)
  {
  }

  lemma OpenCodLedgerStep(l: Ledger, l1: Ledger, driver: Id)
    requires LedgerStep(l, l1) && l1.cod == None
    ensures LedgerStep(l, OpenCod(l1, driver))
  {
  }

  /** One assignment is rewritten, with its shipment and its driver. */
  lemma OneTaskSteps(db: Db, db': Db, k: Id)
    requires References(db) && k < |db.assignments| == |db'.assignments|
    requires var a := db.assignments[k];
             && |db'.shipments| == |db.shipments| && |db'.drivers| == |db.drivers|
             && db' == db.(assignments := db.assignments[k := db'.assignments[k]], drivers := db.drivers[a.driver := db'.drivers[a.driver]],
                           shipments := db.shipments[a.shipment := db'.shipments[a.shipment]])
             && AssignmentStep(a, db'.assignments[k]) && DriverStep(db.drivers[a.driver], db'.drivers[a.driver])
             && ShipmentStep(db.shipments[a.shipment], db'.shipments[a.shipment])
    ensures ParcelsOnly(db, db')
  {
    hide LedgersStep;
    SameLedgersStep(db.ledgers);
  }

  lemma NothingSteps(db: Db)
    ensures ParcelsOnly(db, db)
  {
    hide LedgersStep;
    SameLedgersStep(db.ledgers);
  }

  lemma AcceptStep(db: Db, id: Id, driver: Id)
    requires References(db)
    ensures ParcelsOnly(db, Parcels.AcceptPickup(db, id, driver).0)
  {
    hide ParcelsOnly;
    var db' := Parcels.AcceptPickup(db, id, driver).0;
    if db' == db {
      NothingSteps(db);
    } else {
      assert db'.drivers == db.drivers[db.assignments[id].driver := db.drivers[db.assignments[id].driver]];
      OneTaskSteps(db, db', id);
    }
  }

  lemma RejectStep(db: Db, id: Id, driver: Id)
    requires References(db)
    ensures ParcelsOnly(db, Parcels.RejectPickup(db, id, driver).0)
  {
    hide ParcelsOnly;
    var db' := Parcels.RejectPickup(db, id, driver).0;
    if db' == db { NothingSteps(db); } else { OneTaskSteps(db, db', id); }
  }

  lemma AssignPickupStep(db: Db, key: Id, id: Id, driver: Id, located: bool, reassign: bool)
    requires References(db)
    ensures ParcelsOnly(db, Parcels.AssignPickup(db, key, id, driver, located, reassign).0)
  {
    hide LedgersStep, CandidateError, CurrentAssignment, DriverExecuting, Parcels.KeyUsed, Parcels.KeyUsedFor;
    SameLedgersStep(db.ledgers);
  }

  lemma AssignDeliveryStep(db: Db, key: Id, id: Id, driver: Id, located: bool)
    requires References(db)
    ensures ParcelsOnly(db, Parcels.AssignDelivery(db, key, id, driver, located).0)
  {
    hide LedgersStep;
    SameLedgersStep(db.ledgers);
  }

  lemma StartDeliveryStep(db: Db, id: Id, driver: Id)
    requires References(db)
    ensures ParcelsOnly(db, Parcels.StartDelivery(db, id, driver).0)
  {
    hide LedgersStep;
    SameLedgersStep(db.ledgers);
  }

  /** A delivery still under way has its attempt still open. */
  lemma AttemptIsOpen(db: Db, id: Id)
    requires Inv(db) && id < |db.assignments| && db.assignments[id].status == Accepted && AttemptOf(db.attempts, id).Some?
    ensures db.attempts[AttemptOf(db.attempts, id).value].status == Outgoing
  {
    hide TripsOk, SchedulesDisjoint, LinksOk, CapacityOk, VehiclesOk, RoutesOk, TransfersOk, ShipmentsOk,
         DriversOk, TasksOk, AttemptsOk, LedgersOk, AttemptOf;
    KeepParcels.AttemptAt(db, AttemptOf(db.attempts, id).value);
  }

  lemma FailDeliveryStep(db: Db, id: Id, driver: Id)
    requires Inv(db)
    ensures ParcelsOnly(db, Parcels.FailDelivery(db, id, driver).0)
  {
    hide TripsOk, SchedulesDisjoint, LinksOk, CapacityOk, VehiclesOk, RoutesOk, TransfersOk, ShipmentsOk,
         DriversOk, TasksOk, AttemptsOk, LedgersOk, LedgersStep, AttemptOf;
    SameLedgersStep(db.ledgers);
    if Parcels.FailDelivery(db, id, driver).1 == Done { AttemptIsOpen(db, id); }
  }

  lemma CancelShipmentStep(db: Db, id: Id, customer: Id)
    requires Inv(db)
    ensures ParcelsOnly(db, Parcels.CancelShipment(db, id, customer).0)
  {
    hide TripsOk, SchedulesDisjoint, LinksOk, CapacityOk, VehiclesOk, RoutesOk, TransfersOk, ShipmentsOk,
         DriversOk, TasksOk, AttemptsOk, LedgersOk, LedgersStep, LedgerStep;
    SameLedgersStep(db.ledgers);
    if Parcels.CancelShipment(db, id, customer).1 == Done {
      KeepParcels.LedgerOf(db.shipments, db.ledgers, id);
      CancelLedgerStep(db.ledgers[id]);
      LedgerRowSteps(db.ledgers, id, CancelFee(db.ledgers[id]).value);
    }
  }

  lemma PickUpStep(db: Db, id: Id, driver: Id, amount: Option<int>, now: int)
    requires Inv(db)
    ensures ParcelsOnly(db, Parcels.PickUp(db, id, driver, amount, now).0)
  {
    hide TripsOk, SchedulesDisjoint, LinksOk, CapacityOk, VehiclesOk, RoutesOk, TransfersOk, ShipmentsOk,
         DriversOk, TasksOk, AttemptsOk, LedgersOk, LedgersStep, LedgerStep, LedgerOk, CollectAt;
    SameLedgersStep(db.ledgers);
    if id < |db.assignments| && !Parcels.PickUp(db, id, driver, amount, now).1.Refused? {
      var k := db.assignments[id].shipment;
      KeepParcels.LedgerOf(db.shipments, db.ledgers, k);
      CollectLedgerStep(db.shipments[k].status, db.ledgers[k], AtPickup, driver, amount, now);
      LedgerRowSteps(db.ledgers, k, CollectAt(db.ledgers[k], AtPickup, driver, amount, now).value);
    }
  }

  lemma CompleteStep(db: Db, id: Id, driver: Id, amount: Option<int>, now: int)
    requires Inv(db)
    ensures ParcelsOnly(db, Parcels.CompleteDelivery(db, id, driver, amount, now).0)
  {
    hide TripsOk, SchedulesDisjoint, LinksOk, CapacityOk, VehiclesOk, RoutesOk, TransfersOk, ShipmentsOk,
         DriversOk, TasksOk, AttemptsOk, LedgersOk, LedgersStep, LedgerStep, LedgerOk, CollectAt, OpenCod, AttemptOf;
    SameLedgersStep(db.ledgers);
    if id < |db.assignments| && !Parcels.CompleteDelivery(db, id, driver, amount, now).1.Refused? {
      var k := db.assignments[id].shipment;
      var l := CollectAt(db.ledgers[k], AtDelivery, driver, amount, now).value;
      KeepParcels.LedgerOf(db.shipments, db.ledgers, k);
      CollectLedgerStep(db.shipments[k].status, db.ledgers[k], AtDelivery, driver, amount, now);
      LedgerRowSteps(db.ledgers, k, l);
      if db.shipments[k].status == OutForDelivery {
        NoCodYet(db.ledgers[k], driver, amount, now);
        OpenCodLedgerStep(db.ledgers[k], l, driver);
        LedgerRowSteps(db.ledgers, k, OpenCod(l, driver));
      }
      if db.assignments[id].status == Accepted { AttemptIsOpen(db, id); }
    }
  }

  lemma NoCodYet(l: Ledger, driver: Id, amount: Option<int>, now: int)
    requires LedgerOk(OutForDelivery, l) && CollectAt(l, AtDelivery, driver, amount, now).Ok?
    ensures CollectAt(l, AtDelivery, driver, amount, now).value.cod == None
  {
  }

  lemma MoneyCommandStep(db: Db, id: Id, c: MoneyCommand)
    requires Inv(db)
    ensures ParcelsOnly(db, Settle(db, id, c).0)
  {
    hide TripsOk, SchedulesDisjoint, LinksOk, CapacityOk, VehiclesOk, RoutesOk, TransfersOk, ShipmentsOk,
         DriversOk, TasksOk, AttemptsOk, LedgersOk, LedgersStep, LedgerStep, LedgerOk, MoneyStep;
    SameLedgersStep(db.ledgers);
    if id < |db.ledgers| {
      KeepParcels.LedgerOf(db.shipments, db.ledgers, id);
      MoneyLedgerStep(db.shipments[id].status, db.ledgers[id], c);
      LedgerRowSteps(db.ledgers, id, MoneyStep(db.ledgers[id], c).0);
    }
  }

  lemma FleetStepFollows(db: Db, c: FleetCommand)
    requires Inv(db)
    ensures Steps(db, ApplyFleet(db, c).0)
  {
    hide Inv, References, Steps, FleetOnly, TripsOnly, TransfersOnly,
      ParcelsOnly, ManifestsStep, Drivers.CreateDriver, Drivers.CreateWarehouse, Drivers.SetAvailability, Drivers.SetCapabilities,
      Drivers.SetUserStatus, Drivers.UpdateDriver, Drivers.UpdateWarehouse, Trips.CreateVehicle, Trips.SetVehicleStatus, Trips.UpdateCapacity;
    Resolves(db);
    var db' := ApplyFleet(db, c).0;
    match c
    case CreateWarehouse(place) =>
      NewFleetStep(db, 0, true, 0, place, 0); FleetOnlySteps(db, db');
    case UpdateWarehouse(id, active, place) =>
      NewFleetStep(db, id, active, 0, place, 0); FleetOnlySteps(db, db');
    case CreateDriver(active, home) =>
      NewFleetStep(db, 0, active, home, None, 0); FleetOnlySteps(db, db');
    case UpdateDriver(id, base, suspended) =>
      DriverProfileStep(db, id, base, suspended, {}); FleetOnlySteps(db, db');
    case SetCapabilities(id, capabilities) =>
      DriverProfileStep(db, id, None, None, capabilities); FleetOnlySteps(db, db');
    case SetAvailability(id, online) =>
      DriverStatusStep(db, id, online); FleetOnlySteps(db, db');
    case SetUserStatus(id, active) =>
      DriverStatusStep(db, id, active); FleetOnlySteps(db, db');
    case CreateVehicle(capacity) =>
      NewFleetStep(db, 0, true, 0, None, capacity); FleetOnlySteps(db, db');
    case UpdateCapacity(id, capacity, hints) =>
      VehicleCommandsStep(db, id, capacity, hints, Available); FleetOnlySteps(db, db');
    case SetVehicleStatus(id, status) =>
      VehicleCommandsStep(db, id, 0, [], status); FleetOnlySteps(db, db');
  }

  lemma ParcelStepFollows(db: Db, c: ParcelCommand)
    requires Inv(db)
    ensures Steps(db, ApplyParcel(db, c).0)
  {
    hide Inv, References, Steps, FleetOnly, TripsOnly, TransfersOnly,
      ParcelsOnly, ManifestsStep, Parcels.AcceptPickup, Parcels.AssignDelivery, Parcels.AssignPickup, Parcels.CancelShipment,
      Parcels.CompleteDelivery, Parcels.ConfirmShipment, Parcels.CreateShipment, Parcels.FailDelivery, Parcels.PickUp, Parcels.ReceiveReturn,
      Parcels.Redeliver, Parcels.RejectPickup, Parcels.RequestReturn, Parcels.StartDelivery, Parcels.StartReturn;
    Resolves(db);
    var db' := ApplyParcel(db, c).0;
    match c
    case CreateShipment(key, terms, grams) =>
      NewParcelStep(db, key, terms, grams); ParcelsOnlySteps(db, db');
    case ConfirmShipment(id) =>
      DispatcherStatusStep(db, id, None); ParcelsOnlySteps(db, db');
    case CancelShipment(id, customer) =>
      CancelShipmentStep(db, id, customer); ParcelsOnlySteps(db, db');
    case AssignPickup(key, id, driver, located, reassign) =>
      AssignPickupStep(db, key, id, driver, located, reassign); ParcelsOnlySteps(db, db');
    case AcceptPickup(id, driver) =>
      AcceptStep(db, id, driver); ParcelsOnlySteps(db, db');
    case RejectPickup(id, driver) =>
      RejectStep(db, id, driver); ParcelsOnlySteps(db, db');
    case PickUp(id, driver, amount, now) =>
      PickUpStep(db, id, driver, amount, now); ParcelsOnlySteps(db, db');
    case AssignDelivery(key, id, driver, located) =>
      AssignDeliveryStep(db, key, id, driver, located); ParcelsOnlySteps(db, db');
    case StartDelivery(id, driver) =>
      StartDeliveryStep(db, id, driver); ParcelsOnlySteps(db, db');
    case CompleteDelivery(id, driver, amount, now) =>
      CompleteStep(db, id, driver, amount, now); ParcelsOnlySteps(db, db');
    case FailDelivery(id, driver) =>
      FailDeliveryStep(db, id, driver); ParcelsOnlySteps(db, db');
    case Redeliver(id) =>
      DispatcherStatusStep(db, id, None); ParcelsOnlySteps(db, db');
    case RequestReturn(id, to) =>
      DispatcherStatusStep(db, id, to); ParcelsOnlySteps(db, db');
    case StartReturn(id, driver) =>
      ReturnStatusStep(db, id, 0, driver); ParcelsOnlySteps(db, db');
    case ReceiveReturn(warehouse, id) =>
      ReturnStatusStep(db, id, warehouse, 0); ParcelsOnlySteps(db, db');
  }

  predicate OfTrip(c: NetworkCommand) {
    !c.CheckIn? && !c.RouteDestination? && !c.MarkReady? && !c.CreateTransfer? && !c.DispatchTransfer? && !c.ReceiveTransfer?
  }

  lemma WarehouseStepFollows(db: Db, c: NetworkCommand)
    requires Inv(db) && !OfTrip(c)
    ensures Steps(db, ApplyNetwork(db, c).0)
  {
    hide Inv, References, Steps, FleetOnly, TripsOnly, TransfersOnly,
      ParcelsOnly, ManifestsStep, Parcels.CheckIn, Parcels.MarkReady, Parcels.RouteDestination, Transfers.CreateTransfer,
      Transfers.DispatchTransfer, Transfers.ReceiveTransfer, Trips.ArriveTrip, Trips.AssignTransfer, Trips.CancelTrip, Trips.CommitReroute,
      Trips.CreateTrip, Trips.DispatchTrip, Trips.PrepareTrip, Trips.RemoveTransfer, Trips.SetSchedule, Trips.Unschedule;
    Resolves(db);
    var db' := ApplyNetwork(db, c).0;
    match c
    case CheckIn(warehouse, id, grams, verified) =>
      CheckInStep(db, warehouse, id, grams, verified); TransfersOnlySteps(db, db');
    case RouteDestination(warehouse, id, to) =>
      ParcelRoutingStep(db, warehouse, id, to); TransfersOnlySteps(db, db');
    case MarkReady(warehouse, id) =>
      ParcelRoutingStep(db, warehouse, id, 0); TransfersOnlySteps(db, db');
    case CreateTransfer(key, warehouse, id, to) =>
      CreateTransferStep(db, key, warehouse, id, to); TransfersOnlySteps(db, db');
    case DispatchTransfer(warehouse, id, cutover, now) =>
      DispatchTransferStep(db, warehouse, id, cutover, now); TransfersOnlySteps(db, db');
    case ReceiveTransfer(warehouse, id, cutover, now) =>
      ReceiveTransferStep(db, warehouse, id, cutover, now); TransfersOnlySteps(db, db');
  }

  lemma TripStepFollows(db: Db, c: NetworkCommand)
    requires Inv(db) && OfTrip(c)
    ensures Steps(db, ApplyNetwork(db, c).0)
  {
    hide Inv, References, Steps, FleetOnly, TripsOnly, TransfersOnly,
      ParcelsOnly, ManifestsStep, Parcels.CheckIn, Parcels.MarkReady, Parcels.RouteDestination, Transfers.CreateTransfer,
      Transfers.DispatchTransfer, Transfers.ReceiveTransfer, Trips.ArriveTrip, Trips.AssignTransfer, Trips.CancelTrip, Trips.CommitReroute,
      Trips.CreateTrip, Trips.DispatchTrip, Trips.PrepareTrip, Trips.RemoveTransfer, Trips.SetSchedule, Trips.Unschedule;
    Resolves(db);
    var db' := ApplyNetwork(db, c).0;
    match c
    case CreateTrip(trip) =>
      CreateTripStep(db, trip); TripsOnlySteps(db, db');
    case AssignTransfer(id, transfer) =>
      AssignStep(db, id, transfer); TripsOnlySteps(db, db');
    case RemoveTransfer(id, transfer) =>
      RemoveStep(db, id, transfer); TripsOnlySteps(db, db');
    case SetSchedule(id, w, reschedule, version) =>
      ScheduleCommandsStep(db, id, w, reschedule, version); SameLinksStep(db, db'); TripsOnlySteps(db, db');
    case Unschedule(id, version) =>
      ScheduleCommandsStep(db, id, Window(0, 0), false, version); SameLinksStep(db, db'); TripsOnlySteps(db, db');
    case PrepareTrip(id, routed) =>
      PrepareStep(db, id, routed); SameLinksStep(db, db'); TripsOnlySteps(db, db');
    case DispatchTrip(id, now) =>
      DispatchTripStep(db, id, now);
    case ArriveTrip(id) =>
      RoadCommandsStep(db, id, Trips.Preflight(0, 0, 0, 0), 0); SameLinksStep(db, db'); TripsOnlySteps(db, db');
    case CommitReroute(id, seen, now) =>
      RoadCommandsStep(db, id, seen, now); SameLinksStep(db, db'); TripsOnlySteps(db, db');
    case CancelTrip(id) =>
      CancelTripStep(db, id); TripsOnlySteps(db, db');
  }

  lemma NetworkStepFollows(db: Db, c: NetworkCommand)
    requires Inv(db)
    ensures Steps(db, ApplyNetwork(db, c).0)
  {
    hide Inv, Steps, ApplyNetwork;
    if OfTrip(c) { TripStepFollows(db, c); } else { WarehouseStepFollows(db, c); }
  }

  /** Every command moves every row along its life cycle or leaves it alone. */
  lemma StepFollows(db: Db, c: Command)
    requires Inv(db)
    ensures Steps(db, Apply(db, c).0)
  {
    hide ApplyFleet, ApplyParcel, ApplyNetwork, Inv, References, Settle, Steps, ParcelsOnly;
    Resolves(db);
    match c
    case Fleet(fleet) => FleetStepFollows(db, fleet);
    case Parcel(parcel) => ParcelStepFollows(db, parcel);
    case Network(network) => NetworkStepFollows(db, network);
    case Money(id, step) => MoneyCommandStep(db, id, step); ParcelsOnlySteps(db, Settle(db, id, step).0);
  }

  // ----- many steps -----

  /** How far a shipment has come; no command ever takes it back. */
  function Phase(s: ShipmentStatus): nat {
    match s
    case Pending | Confirmed => 0
    case AwaitingPickup | PickupAssigned | PickupInProgress => 1
    case PickedUp => 2
    case AtOrigin => 3
    case InTransit => 4
    case AtDestination => 5
    case AwaitingDelivery | DeliveryAssigned | OutForDelivery | DeliveryFailed => 6
    case ReturnRequested => 7
    case ReturnInTransit => 8
    case Delivered | Returned | Cancelled => 9
  }

  predicate ShipmentLater(s: Shipment, s': Shipment) {
    && s.version <= s'.version && (s'.version == s.version ==> s' == s)
    && Phase(s.status) <= Phase(s'.status) && (Phase(s.status) == 9 ==> s' == s)
    && s'.key == s.key && s'.customer == s.customer
    && (s.verifiedGrams.Some? ==> LoadGrams(s') == LoadGrams(s) && s'.verifiedGrams.Some?)
    && (s.origin.Some? ==> s'.origin == s.origin)
  }

  predicate TransferLater(t: Transfer, t': Transfer) {
    && t' == t.(status := t'.status, dispatchedAt := t'.dispatchedAt)
    && (t.status == Moving ==> t'.status != Waiting)
    && (t.status == Completed ==> t' == t)
  }

  predicate TripLater(t: Trip, t': Trip) {
    && t.version <= t'.version && (t'.version == t.version ==> t' == t)
    && SameLeg(t, t') && t'.key == t.key
    && (t.status in {Arrived, Withdrawn} ==> t' == t)
    && (t.status == Ready ==> t'.status != Planned)
    && (t.status == Underway ==> t'.status in {Underway, Arrived})
    && (FrozenTrip(t.status) ==> t'.preparedGrams == t.preparedGrams && t'.preparedCapacity == t.preparedCapacity && t'.schedule == t.schedule)
  }

  predicate VehicleLater(v: Vehicle, v': Vehicle) {
    v.version <= v'.version && (v'.version == v.version ==> v' == v)
  }

  /** Apart from the account flag, a driver row that kept its version is the same row. */
  predicate DriverLater(d: Driver, d': Driver) {
    d.version <= d'.version && (d'.version == d.version ==> d' == d.(userActive := d'.userActive) && (d.userActive ==> d'.userActive))
  }

  predicate AssignmentLater(a: Assignment, a': Assignment) {
    && a' == a.(status := a'.status, proof := a'.proof)
    && (a.status == Accepted ==> a'.status != Offered)
    && (!ActiveAssignment(a.status) ==> a' == a)
  }

  predicate AttemptLater(n: Attempt, n': Attempt) {
    n' == n.(status := n'.status) && (n.status != Outgoing ==> n' == n)
  }

  ghost predicate Later(db: Db, db': Db) {
    && |db.shipments| <= |db'.shipments| && (forall i :: 0 <= i < |db.shipments| ==> ShipmentLater(db.shipments[i], db'.shipments[i]))
    && |db.ledgers| <= |db'.ledgers| && (forall i :: 0 <= i < |db.ledgers| ==> LedgerStep(db.ledgers[i], db'.ledgers[i]))
    && |db.transfers| <= |db'.transfers| && (forall i :: 0 <= i < |db.transfers| ==> TransferLater(db.transfers[i], db'.transfers[i]))
    && |db.trips| <= |db'.trips| && (forall i :: 0 <= i < |db.trips| ==> TripLater(db.trips[i], db'.trips[i]))
    && ManifestsStep(db, db')
    && |db.vehicles| <= |db'.vehicles| && (forall i :: 0 <= i < |db.vehicles| ==> VehicleLater(db.vehicles[i], db'.vehicles[i]))
    && |db.drivers| <= |db'.drivers| && (forall i :: 0 <= i < |db.drivers| ==> DriverLater(db.drivers[i], db'.drivers[i]))
    && |db.assignments| <= |db'.assignments|
    && (forall i :: 0 <= i < |db.assignments| ==> AssignmentLater(db.assignments[i], db'.assignments[i]))
    && |db.attempts| <= |db'.attempts| && (forall i :: 0 <= i < |db.attempts| ==> AttemptLater(db.attempts[i], db'.attempts[i]))
  }

  lemma StepIsLater(db: Db, db': Db)
    requires Steps(db, db')
    ensures Later(db, db')
  {
    hide LedgerStep, ManifestStep;
    forall i | 0 <= i < |db.shipments| ensures ShipmentLater(db.shipments[i], db'.shipments[i]) { assert ShipmentStep(db.shipments[i], db'.shipments[i]); }
    forall i | 0 <= i < |db.transfers| ensures TransferLater(db.transfers[i], db'.transfers[i]) { assert TransferStep(db.transfers[i], db'.transfers[i]); }
    forall i | 0 <= i < |db.trips| ensures TripLater(db.trips[i], db'.trips[i]) { assert TripStep(db.trips[i], db'.trips[i]); }
    forall i | 0 <= i < |db.vehicles| ensures VehicleLater(db.vehicles[i], db'.vehicles[i]) { assert VehicleStep(db.vehicles[i], db'.vehicles[i]); }
    forall i | 0 <= i < |db.drivers| ensures DriverLater(db.drivers[i], db'.drivers[i]) { assert DriverStep(db.drivers[i], db'.drivers[i]); }
    forall i | 0 <= i < |db.assignments| ensures AssignmentLater(db.assignments[i], db'.assignments[i]) {
      assert AssignmentStep(db.assignments[i], db'.assignments[i]);
    }
    forall i | 0 <= i < |db.attempts| ensures AttemptLater(db.attempts[i], db'.attempts[i]) { assert AttemptStep(db.attempts[i], db'.attempts[i]); }
  }

  lemma LedgerStepTransitive(a: Ledger, b: Ledger, c: Ledger)
    requires LedgerStep(a, b) && LedgerStep(b, c)
    ensures LedgerStep(a, c)
  {
    hide Recorded, Replayable, Satisfied;
  }

  lemma ManifestStepTransitive(a: Db, b: Db, c: Db, t: Id)
    requires ManifestStep(a, b, t) && ManifestStep(b, c, t) && |a.trips| <= |b.trips| <= |c.trips|
    requires t < |a.trips| ==> TripLater(a.trips[t], b.trips[t])
    requires t < |b.trips| ==> TripLater(b.trips[t], c.trips[t])
    ensures ManifestStep(a, c, t)
  {
  }

  lemma LaterTransitive(a: Db, b: Db, c: Db)
    requires Later(a, b) && Later(b, c)
    ensures Later(a, c)
  {
    hide LedgerStep, ManifestStep, ShipmentLater, TransferLater, TripLater, VehicleLater, DriverLater, AssignmentLater, AttemptLater;
    forall i | 0 <= i < |a.shipments| ensures ShipmentLater(a.shipments[i], c.shipments[i]) {
      ShipmentLaterTransitive(a.shipments[i], b.shipments[i], c.shipments[i]);
    }
    forall i | 0 <= i < |a.ledgers| ensures LedgerStep(a.ledgers[i], c.ledgers[i]) {
      LedgerStepTransitive(a.ledgers[i], b.ledgers[i], c.ledgers[i]);
    }
    forall i | 0 <= i < |a.transfers| ensures TransferLater(a.transfers[i], c.transfers[i]) {
      TransferLaterTransitive(a.transfers[i], b.transfers[i], c.transfers[i]);
    }
    forall i | 0 <= i < |a.trips| ensures TripLater(a.trips[i], c.trips[i]) {
      TripLaterTransitive(a.trips[i], b.trips[i], c.trips[i]);
    }
    forall i | 0 <= i < |a.vehicles| ensures VehicleLater(a.vehicles[i], c.vehicles[i]) {
      VehicleLaterTransitive(a.vehicles[i], b.vehicles[i], c.vehicles[i]);
    }
    forall i | 0 <= i < |a.drivers| ensures DriverLater(a.drivers[i], c.drivers[i]) {
      DriverLaterTransitive(a.drivers[i], b.drivers[i], c.drivers[i]);
    }
    forall i | 0 <= i < |a.assignments| ensures AssignmentLater(a.assignments[i], c.assignments[i]) {
      AssignmentLaterTransitive(a.assignments[i], b.assignments[i], c.assignments[i]);
    }
    forall i | 0 <= i < |a.attempts| ensures AttemptLater(a.attempts[i], c.attempts[i]) {
      AttemptLaterTransitive(a.attempts[i], b.attempts[i], c.attempts[i]);
    }
    forall t: Id ensures ManifestStep(a, c, t) {
      ManifestStepTransitive(a, b, c, t);
    }
  }

  lemma ShipmentLaterTransitive(a: Shipment, b: Shipment, c: Shipment)
    requires ShipmentLater(a, b) && ShipmentLater(b, c)
    ensures ShipmentLater(a, c)
  {
  }

  lemma TransferLaterTransitive(a: Transfer, b: Transfer, c: Transfer)
    requires TransferLater(a, b) && TransferLater(b, c)
    ensures TransferLater(a, c)
  {
  }

  lemma TripLaterTransitive(a: Trip, b: Trip, c: Trip)
    requires TripLater(a, b) && TripLater(b, c)
    ensures TripLater(a, c)
  {
  }

  lemma VehicleLaterTransitive(a: Vehicle, b: Vehicle, c: Vehicle)
    requires VehicleLater(a, b) && VehicleLater(b, c)
    ensures VehicleLater(a, c)
  {
  }

  lemma DriverLaterTransitive(a: Driver, b: Driver, c: Driver)
    requires DriverLater(a, b) && DriverLater(b, c)
    ensures DriverLater(a, c)
  {
  }

  lemma AssignmentLaterTransitive(a: Assignment, b: Assignment, c: Assignment)
    requires AssignmentLater(a, b) && AssignmentLater(b, c)
    ensures AssignmentLater(a, c)
  {
  }

  lemma AttemptLaterTransitive(a: Attempt, b: Attempt, c: Attempt)
    requires AttemptLater(a, b) && AttemptLater(b, c)
    ensures AttemptLater(a, c)
  {
  }

  lemma LaterSelf(db: Db)
    ensures Later(db, db)
  {
    forall i | 0 <= i < |db.ledgers| ensures LedgerStep(db.ledgers[i], db.ledgers[i]) { LedgerStepSame(db.ledgers[i]); }
  }

  lemma {:induction false} ExecutionFollows(states: seq<Db>, cs: seq<Command>, n: nat)
    requires Execution(states, cs) && Inv(states[0]) && n <= |cs|
    ensures Later(states[0], states[n])
  {
    hide Apply, Inv, Later, Steps;
    if n == 0 {
      LaterSelf(states[0]);
    } else {
      ExecutionFollows(states, cs, n - 1);
      ExecutionKeeps(states, cs, n - 1);
      assert states[n] == Apply(states[n - 1], cs[n - 1]).0;
      StepFollows(states[n - 1], cs[n - 1]);
      StepIsLater(states[n - 1], states[n]);
      LaterTransitive(states[0], states[n - 1], states[n]);
    }
  }

  lemma RunFollows(db: Db, later: Db)
    requires Inv(db) && LeadsTo(db, later)
    ensures Inv(later) && Later(db, later)
  {
    hide Apply, Inv, Later;
    LaterKeeps(db, later);
    var states, cs :| Execution(states, cs) && states[0] == db && states[|cs|] == later;
    ExecutionFollows(states, cs, |cs|);
  }

  /** Whatever commands follow a reachable state, every row stays on its path:
      versions never fall and tell rows apart, finished shipments and trips are
      final, frozen manifests and satisfied fees keep what they recorded. */
  lemma RowsStayOnTheirPath(db: Db, later: Db)
    requires Reachable(db) && LeadsTo(db, later)
    ensures Later(db, later)
  {
    hide Inv, LeadsTo, Reachable, Later;
    ReachableInv(db);
    RunFollows(db, later);
  }
}

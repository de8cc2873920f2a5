/** A client that retries a command it already got through changes nothing:
    the second time the command recognises its own effect, or refuses. */
module Replays {
  import opened Rows
  import opened Ledgers
  import opened LedgerLaws
  import opened Policies
  import opened Tables
  import opened Invariants
  import opened Reachability
  import Transfers = TransferCommands
  import Trips = TripCommands
  import Parcels = ParcelCommands
  import Drivers = DriverCommands
  import KeepTrips
  import opened KeepTransfers
  import opened KeepParcels

  // ----- fleet -----

  lemma DriverRetries(db: Db, db1: Db, id: Id, capabilities: set<Capability>, active: bool)
    ensures (db1, Done) == Drivers.SetCapabilities(db, id, capabilities) ==> Drivers.SetCapabilities(db1, id, capabilities) == (db1, Unchanged)
    ensures (db1, Done) == Drivers.SetUserStatus(db, id, active) ==> Drivers.SetUserStatus(db1, id, active) == (db1, Unchanged)
  {
    hide DriverAssigned, DriverExecuting, Drivers.AssignedFor;
  }

  lemma WarehouseRetries(db: Db, db1: Db, id: Id, active: bool, place: Option<int>)
    ensures (db1, Done) == Drivers.UpdateWarehouse(db, id, active, place) ==> Drivers.UpdateWarehouse(db1, id, active, place).0 == db1
  {
    if id < |db1.warehouses| && db1.warehouses[id] == Warehouse(active, place) {
      assert db1.warehouses[id := Warehouse(active, place)] == db1.warehouses;
    }
  }

  lemma VehicleRetries(db: Db, db1: Db, id: Id, capacity: int, hints: seq<Id>, status: VehicleStatus)
    requires References(db) && References(db1)
    ensures (db1, Done) == Trips.UpdateCapacity(db, id, capacity, hints) ==> Trips.UpdateCapacity(db1, id, capacity, hints) == (db1, Unchanged)
    ensures (db1, Done) == Trips.SetVehicleStatus(db, id, status) ==> Trips.SetVehicleStatus(db1, id, status) == (db1, Unchanged)
  {
    hide Trips.CarryingError, Trips.ActiveTrips, VehicleExecuting, References;
  }

  // ----- parcels -----

  lemma ShipmentRetries(db: Db, db1: Db, key: Id, terms: Terms, grams: int, id: Id, customer: Id, warehouse: Option<Id>)
    requires References(db) && References(db1)
    ensures (db1, Done) == Parcels.CreateShipment(db, key, terms, grams) ==> Parcels.CreateShipment(db1, key, terms, grams) == (db1, Unchanged)
    ensures (db1, Done) == Parcels.ConfirmShipment(db, id) ==> Parcels.ConfirmShipment(db1, id) == (db1, Unchanged)
    ensures (db1, Done) == Parcels.CancelShipment(db, id, customer) ==> Parcels.CancelShipment(db1, id, customer) == (db1, Refused(TransitionInvalid))
    ensures (db1, Done) == Parcels.Redeliver(db, id) ==> Parcels.Redeliver(db1, id) == (db1, Unchanged)
    ensures (db1, Done) == Parcels.RequestReturn(db, id, warehouse) ==> Parcels.RequestReturn(db1, id, warehouse) == (db1, Unchanged)
  {
    hide CancelFee, References;
    if (db1, Done) == Parcels.CreateShipment(db, key, terms, grams) { assert db1.shipments[|db.shipments|].key == key; }
  }

  lemma ReturnRetries(db: Db, db1: Db, id: Id, driver: Id, warehouse: Id)
    requires References(db) && References(db1)
    ensures (db1, Done) == Parcels.StartReturn(db, id, driver) ==> Parcels.StartReturn(db1, id, driver) == (db1, Unchanged)
    ensures (db1, Done) == Parcels.ReceiveReturn(db, warehouse, id) ==> Parcels.ReceiveReturn(db1, warehouse, id) == (db1, Unchanged)
  {
  }

  lemma HandlingRetries(db: Db, db1: Db, warehouse: Id, id: Id, grams: int, verified: bool, to: Id)
    requires References(db) && References(db1)
    ensures (db1, Done) == Parcels.CheckIn(db, warehouse, id, grams, verified) ==> Parcels.CheckIn(db1, warehouse, id, grams, verified) == (db1, Unchanged)
    ensures (db1, Done) == Parcels.RouteDestination(db, warehouse, id, to) ==> Parcels.RouteDestination(db1, warehouse, id, to) == (db1, Unchanged)
    ensures (db1, Done) == Parcels.MarkReady(db, warehouse, id) ==> Parcels.MarkReady(db1, warehouse, id) == (db1, Unchanged)
  {
    hide TransferUnderway, References, FinishedPickup;
  }

  lemma AssignRetries(db: Db, db1: Db, key: Id, id: Id, driver: Id, located: bool, reassign: bool)
    requires References(db) && References(db1)
    ensures (db1, Done) == Parcels.AssignPickup(db, key, id, driver, located, reassign) ==> Parcels.AssignPickup(db1, key, id, driver, located, reassign) == (db1, Unchanged)
    ensures (db1, Done) == Parcels.AssignDelivery(db, key, id, driver, located) ==> Parcels.AssignDelivery(db1, key, id, driver, located) == (db1, Unchanged)
  {
    hide References, CandidateError, DriverExecuting;
    if (db1, Done) == Parcels.AssignPickup(db, key, id, driver, located, reassign) || (db1, Done) == Parcels.AssignDelivery(db, key, id, driver, located) {
      var a := db1.assignments[|db.assignments|];
      assert a.key == key && a.shipment == id;
    }
  }

  lemma PickupRetries(db: Db, db1: Db, id: Id, driver: Id)
    requires References(db) && References(db1)
    ensures (db1, Done) == Parcels.AcceptPickup(db, id, driver) ==> Parcels.AcceptPickup(db1, id, driver) == (db1, Unchanged)
    ensures (db1, Done) == Parcels.RejectPickup(db, id, driver) ==> Parcels.RejectPickup(db1, id, driver) == (db1, Unchanged)
  {
  }

  /** A collection repeated with the same driver and amount finds itself done. */
  lemma CollectionRetries(s: ShipmentStatus, l: Ledger, point: Point, driver: Id, amount: Option<int>, now: int)
    requires LedgerOk(s, l) && CollectAt(l, point, driver, amount, now).Ok?
    ensures CollectAt(CollectAt(l, point, driver, amount, now).value, point, driver, amount, now) == CollectAt(l, point, driver, amount, now)
  {
  }

  lemma PickUpRetries(db: Db, db1: Db, id: Id, driver: Id, amount: Option<int>, now: int)
    requires Inv(db) && References(db1) && (db1, Done) == Parcels.PickUp(db, id, driver, amount, now)
    ensures Parcels.PickUp(db1, id, driver, amount, now) == (db1, Unchanged)
  {
    hide TripsOk, SchedulesDisjoint, LinksOk, CapacityOk, VehiclesOk, RoutesOk, TransfersOk, ShipmentsOk,
         DriversOk, TasksOk, AttemptsOk, LedgersOk, LedgerOk, CollectAt;
    var k := db.assignments[id].shipment;
    LedgerOf(db.shipments, db.ledgers, k);
    CollectionRetries(db.shipments[k].status, db.ledgers[k], AtPickup, driver, amount, now);
    assert db1.ledgers[k := db1.ledgers[k]] == db1.ledgers;
  }

  lemma OpenedCodRetries(l: Ledger, opener: Id, driver: Id, amount: Option<int>, now: int)
    requires CollectAt(l, AtDelivery, driver, amount, now) == Ok(l)
    ensures CollectAt(OpenCod(l, opener), AtDelivery, driver, amount, now) == Ok(OpenCod(l, opener))
  {
  }

  lemma CompleteRetries(db: Db, db1: Db, id: Id, driver: Id, amount: Option<int>, now: int)
    requires Inv(db) && References(db1) && (db1, Done) == Parcels.CompleteDelivery(db, id, driver, amount, now)
    ensures Parcels.CompleteDelivery(db1, id, driver, amount, now) == (db1, Unchanged)
  {
    hide TripsOk, SchedulesDisjoint, LinksOk, CapacityOk, VehiclesOk, RoutesOk, TransfersOk, ShipmentsOk,
         DriversOk, TasksOk, AttemptsOk, LedgersOk, LedgerOk, CollectAt, OpenCod;
    var k := db.assignments[id].shipment;
    var l := CollectAt(db.ledgers[k], AtDelivery, driver, amount, now).value;
    LedgerOf(db.shipments, db.ledgers, k);
    CollectionRetries(db.shipments[k].status, db.ledgers[k], AtDelivery, driver, amount, now);
    OpenedCodRetries(l, driver, driver, amount, now);
    SameAttempt(db.attempts, db1.attempts, id);
    assert db1.ledgers[k := db1.ledgers[k]] == db1.ledgers;
  }

  lemma {:induction false} SameAttempt(attempts: seq<Attempt>, attempts': seq<Attempt>, assignment: Id)
    requires |attempts| == |attempts'| && forall i :: 0 <= i < |attempts| ==> attempts'[i].assignment == attempts[i].assignment
    ensures AttemptOf(attempts', assignment) == AttemptOf(attempts, assignment)
  {
    if |attempts| > 0 {
      var n := |attempts| - 1;
      SameAttempt(attempts[..n], attempts'[..n], assignment);
      assert attempts'[n].assignment == attempts[n].assignment;
    }
  }

  lemma DeliveryRetries(db: Db, db1: Db, id: Id, driver: Id)
    requires References(db) && References(db1)
    ensures (db1, Done) == Parcels.StartDelivery(db, id, driver) ==> Parcels.StartDelivery(db1, id, driver) == (db1, Unchanged)
    ensures (db1, Done) == Parcels.FailDelivery(db, id, driver) ==> Parcels.FailDelivery(db1, id, driver) == (db1, Unchanged)
  {
    if (db1, Done) == Parcels.FailDelivery(db, id, driver) { SameAttempt(db.attempts, db1.attempts, id); }
  }

  // ----- network -----

  lemma CreateTransferRetries(db: Db, db1: Db, key: Id, warehouse: Id, id: Id, to: Id)
    requires References(db) && References(db1) && (db1, Done) == Transfers.CreateTransfer(db, key, warehouse, id, to)
    ensures Transfers.CreateTransfer(db1, key, warehouse, id, to) == (db1, Unchanged)
  {
    var t := db1.transfers[|db.transfers|];
    assert t == Transfer(key, id, warehouse, to, Waiting, None);
  }

  lemma MoveRetries(db: Db, db1: Db, warehouse: Id, id: Id, cutover: Option<int>, now: int)
    requires References(db) && References(db1)
    ensures (db1, Done) == Transfers.DispatchTransfer(db, warehouse, id, None, cutover, now) ==> Transfers.DispatchTransfer(db1, warehouse, id, None, cutover, now) == (db1, Unchanged)
    ensures (db1, Done) == Transfers.ReceiveTransfer(db, warehouse, id, cutover, now) ==> Transfers.ReceiveTransfer(db1, warehouse, id, cutover, now) == (db1, Unchanged)
  {
    hide DispatchableError, References;
  }

  lemma ManifestAppend(links: seq<Link>, l: Link, trip: Id)
    ensures Manifest(links + [l], trip) == Manifest(links, trip) + if l.trip == trip && l.active then [l.transfer] else []
  {
    assert (links + [l])[..|links|] == links;
  }

  lemma LinksAppend(links: seq<Link>, trip: Id, ids: seq<Id>)
    requires |ids| > 0
    ensures links + Trips.ManifestLinks(trip, ids) == links + Trips.ManifestLinks(trip, ids[..|ids| - 1]) + [Link(trip, ids[|ids| - 1], true)]
  {
    assert Trips.ManifestLinks(trip, ids) == Trips.ManifestLinks(trip, ids[..|ids| - 1]) + [Link(trip, ids[|ids| - 1], true)];
  }

  lemma {:induction false} NewManifest(links: seq<Link>, trip: Id, ids: seq<Id>)
    requires !HasManifest(links, trip)
    ensures Manifest(links + Trips.ManifestLinks(trip, ids), trip) == ids
  {
    if |ids| == 0 {
      assert links + Trips.ManifestLinks(trip, ids) == links;
      NoManifest(links, trip);
    } else {
      hide Manifest;
      var n := |ids| - 1;
      var front := links + Trips.ManifestLinks(trip, ids[..n]);
      var l := Link(trip, ids[n], true);
      NewManifest(links, trip, ids[..n]);
      LinksAppend(links, trip, ids);
      ManifestAppend(front, l, trip);
      assert ids == ids[..n] + [ids[n]];
    }
  }

  lemma {:induction false} NoManifest(links: seq<Link>, trip: Id)
    requires !HasManifest(links, trip)
    ensures Manifest(links, trip) == []
  {
    if |links| > 0 {
      var n := |links| - 1;
      assert forall i :: 0 <= i < n ==> links[..n][i] == links[i];
      NoManifest(links[..n], trip);
    }
  }

  /** A retried creation finds its own trip, with the same manifest. */
  lemma CreateTripRetries(db: Db, db1: Db, c: Trips.NewTrip)
    requires References(db) && References(db1) && (db1, Done) == Trips.CreateTrip(db, c)
    ensures Trips.CreateTrip(db1, c) == (db1, Unchanged)
  {
    hide Trips.NewTripError, Manifest, References;
    NewManifest(db.links, |db.trips|, c.transfers) by { NoLinksYet(db); }
  }

  lemma NoLinksYet(db: Db)
    requires References(db)
    ensures !HasManifest(db.links, |db.trips|)
  {
  }

  lemma {:induction false} AppendedIsActive(links: seq<Link>, trip: Id, transfer: Id)
    requires ActiveLink(links, transfer) == None
    ensures ActiveLink(links + [Link(trip, transfer, true)], transfer) == Some(|links|)
  {
    assert (links + [Link(trip, transfer, true)])[..|links|] == links;
  }

  lemma ManifestRetries(db: Db, db1: Db, id: Id, transfer: Id)
    requires References(db) && References(db1)
    ensures (db1, Done) == Trips.AssignTransfer(db, id, transfer) ==> Trips.AssignTransfer(db1, id, transfer) == (db1, Unchanged)
  {
    hide References, CapacityError, ManifestGrams, ActiveLink, SafeWeight;
    if (db1, Done) == Trips.AssignTransfer(db, id, transfer) {
      AppendedIsActive(db.links, id, transfer);
      assert db1.links[|db.links|] == Link(id, transfer, true);
    }
  }

  lemma RemoveRetries(db: Db, db1: Db, id: Id, transfer: Id)
    requires Inv(db) && References(db1) && (db1, Done) == Trips.RemoveTransfer(db, id, transfer)
    ensures Trips.RemoveTransfer(db1, id, transfer) == (db1, Unchanged)
  {
    hide TripsOk, SchedulesDisjoint, CapacityOk, VehiclesOk, RoutesOk, TransfersOk, ShipmentsOk, DriversOk,
         TasksOk, AttemptsOk, LedgersOk;
    var k := LinkOf(db.links, id, transfer).value;
    assert db1.links[k].trip == id && db1.links[k].transfer == transfer;
  }

  lemma ScheduleRetries(db: Db, db1: Db, id: Id, w: Window, reschedule: bool, version: int)
    requires References(db) && References(db1)
    ensures (db1, Done) == Trips.SetSchedule(db, id, w, reschedule, version) ==> Trips.SetSchedule(db1, id, w, reschedule, version) == (db1, Unchanged)
    ensures (db1, Done) == Trips.Unschedule(db, id, version) ==> Trips.Unschedule(db1, id, version) == (db1, Unchanged)
  {
    hide BookingError, References, DriverError, VehicleError;
  }

  lemma RoadRetries(db: Db, db1: Db, id: Id, routed: bool, seen: Trips.Preflight, now: int)
    requires References(db) && References(db1)
    ensures (db1, Done) == Trips.PrepareTrip(db, id, routed) ==> Trips.PrepareTrip(db1, id, routed) == (db1, Unchanged)
    ensures (db1, Done) == Trips.ArriveTrip(db, id) ==> Trips.ArriveTrip(db1, id) == (db1, Unchanged)
    ensures (db1, Done) == Trips.CancelTrip(db, id) ==> Trips.CancelTrip(db1, id) == (db1, Unchanged)
    ensures (db1, Done) == Trips.CommitReroute(db, id, seen, now) ==> Trips.CommitReroute(db1, id, seen, now) == (db1, Refused(ConcurrentModification))
  {
    hide Trips.ExecutionError, References, Manifest;
  }

  lemma DispatchRetries(db: Db, db1: Db, id: Id, now: int)
    requires Inv(db) && References(db1) && (db1, Done) == Trips.DispatchTrip(db, id, now)
    ensures Trips.DispatchTrip(db1, id, now) == (db1, Unchanged)
  {
    hide TripsOk, SchedulesDisjoint, LinksOk, CapacityOk, VehiclesOk, RoutesOk, TransfersOk, ShipmentsOk,
         DriversOk, TasksOk, AttemptsOk, LedgersOk,
      Trips.ExecutionError, Trips.DispatchAll, Carries, Manifest;
    DispatchRefused(db, id, now);
  }

  // ----- every command -----

  /** Creating fleet rows, editing a profile and declaring availability carry no
      key and always write; disputes and resolutions are treated in `LedgerLaws`. */
  predicate Retriable(c: Command) {
    match c
    case Fleet(f) => !f.CreateWarehouse? && !f.CreateDriver? && !f.CreateVehicle? && !f.UpdateDriver? && !f.SetAvailability?
    case Money(_, step) => Replayable(step)
    case _ => true
  }

  lemma FleetRetries(db: Db, db1: Db, c: FleetCommand)
    requires Inv(db) && References(db1) && (db1, Done) == ApplyFleet(db, c)
    requires Retriable(Fleet(c))
    ensures ApplyFleet(db1, c).0 == db1
  {
    hide Inv, References, Drivers.CreateDriver, Drivers.CreateWarehouse, Drivers.SetAvailability, Drivers.SetCapabilities,
      Drivers.SetUserStatus, Drivers.UpdateDriver, Drivers.UpdateWarehouse, Trips.CreateVehicle, Trips.SetVehicleStatus, Trips.UpdateCapacity;
    Resolves(db);
    match c
    case SetCapabilities(id, capabilities) => DriverRetries(db, db1, id, capabilities, true);
    case SetUserStatus(id, active) => DriverRetries(db, db1, id, {}, active);
    case UpdateWarehouse(id, active, place) => WarehouseRetries(db, db1, id, active, place);
    case UpdateCapacity(id, capacity, hints) => VehicleRetries(db, db1, id, capacity, hints, Available);
    case SetVehicleStatus(id, status) => VehicleRetries(db, db1, id, 0, [], status);
  }

  lemma ParcelRetries(db: Db, db1: Db, c: ParcelCommand)
    requires Inv(db) && References(db1) && (db1, Done) == ApplyParcel(db, c)
    ensures ApplyParcel(db1, c).0 == db1
  {
    hide Inv, References, Parcels.AcceptPickup, Parcels.AssignDelivery, Parcels.AssignPickup, Parcels.CancelShipment,
      Parcels.CompleteDelivery, Parcels.ConfirmShipment, Parcels.CreateShipment, Parcels.FailDelivery, Parcels.PickUp, Parcels.ReceiveReturn,
      Parcels.Redeliver, Parcels.RejectPickup, Parcels.RequestReturn, Parcels.StartDelivery, Parcels.StartReturn;
    Resolves(db);
    match c
    case CreateShipment(key, terms, grams) => ShipmentRetries(db, db1, key, terms, grams, 0, 0, None);
    case ConfirmShipment(id) => ShipmentRetries(db, db1, 0, Terms(0, Sender, 0, 0), 0, id, 0, None);
    case CancelShipment(id, customer) => ShipmentRetries(db, db1, 0, Terms(0, Sender, 0, 0), 0, id, customer, None);
    case Redeliver(id) => ShipmentRetries(db, db1, 0, Terms(0, Sender, 0, 0), 0, id, 0, None);
    case RequestReturn(id, to) => ShipmentRetries(db, db1, 0, Terms(0, Sender, 0, 0), 0, id, 0, to);
    case StartReturn(id, driver) => ReturnRetries(db, db1, id, driver, 0);
    case ReceiveReturn(warehouse, id) => ReturnRetries(db, db1, id, 0, warehouse);
    case AssignPickup(key, id, driver, located, reassign) => AssignRetries(db, db1, key, id, driver, located, reassign);
    case AssignDelivery(key, id, driver, located) => AssignRetries(db, db1, key, id, driver, located, true);
    case AcceptPickup(id, driver) => PickupRetries(db, db1, id, driver);
    case RejectPickup(id, driver) => PickupRetries(db, db1, id, driver);
    case PickUp(id, driver, amount, now) => PickUpRetries(db, db1, id, driver, amount, now);
    case StartDelivery(id, driver) => DeliveryRetries(db, db1, id, driver);
    case FailDelivery(id, driver) => DeliveryRetries(db, db1, id, driver);
    case CompleteDelivery(id, driver, amount, now) => CompleteRetries(db, db1, id, driver, amount, now);
  }

  lemma NetworkRetries(db: Db, db1: Db, c: NetworkCommand)
    requires Inv(db) && References(db1) && (db1, Done) == ApplyNetwork(db, c)
    ensures ApplyNetwork(db1, c).0 == db1
  {
    hide Inv, References, Parcels.CheckIn, Parcels.MarkReady, Parcels.RouteDestination, Transfers.CreateTransfer,
      Transfers.DispatchTransfer, Transfers.ReceiveTransfer, Trips.ArriveTrip, Trips.AssignTransfer, Trips.CancelTrip, Trips.CommitReroute,
      Trips.CreateTrip, Trips.DispatchTrip, Trips.PrepareTrip, Trips.RemoveTransfer, Trips.SetSchedule, Trips.Unschedule;
    Resolves(db);
    match c
    case CheckIn(warehouse, id, grams, verified) => HandlingRetries(db, db1, warehouse, id, grams, verified, 0);
    case RouteDestination(warehouse, id, to) => HandlingRetries(db, db1, warehouse, id, 0, true, to);
    case MarkReady(warehouse, id) => HandlingRetries(db, db1, warehouse, id, 0, true, 0);
    case CreateTransfer(key, warehouse, id, to) => CreateTransferRetries(db, db1, key, warehouse, id, to);
    case DispatchTransfer(warehouse, id, cutover, now) => MoveRetries(db, db1, warehouse, id, cutover, now);
    case ReceiveTransfer(warehouse, id, cutover, now) => MoveRetries(db, db1, warehouse, id, cutover, now);
    case CreateTrip(trip) => CreateTripRetries(db, db1, trip);
    case AssignTransfer(id, transfer) => ManifestRetries(db, db1, id, transfer);
    case RemoveTransfer(id, transfer) => RemoveRetries(db, db1, id, transfer);
    case SetSchedule(id, w, reschedule, version) => ScheduleRetries(db, db1, id, w, reschedule, version);
    case Unschedule(id, version) => ScheduleRetries(db, db1, id, Window(0, 0), true, version);
    case PrepareTrip(id, routed) => RoadRetries(db, db1, id, routed, Trips.Preflight(0, 0, 0, 0), 0);
    case DispatchTrip(id, now) => DispatchRetries(db, db1, id, now);
    case ArriveTrip(id) => RoadRetries(db, db1, id, true, Trips.Preflight(0, 0, 0, 0), 0);
    case CommitReroute(id, seen, now) => RoadRetries(db, db1, id, true, seen, now);
    case CancelTrip(id) => RoadRetries(db, db1, id, true, Trips.Preflight(0, 0, 0, 0), 0);
  }

  lemma MoneyRetries(db: Db, db1: Db, id: Id, c: MoneyCommand)
    requires Inv(db) && (db1, Done) == Settle(db, id, c) && Replayable(c)
    ensures Settle(db1, id, c).0 == db1
  {
    hide TripsOk, SchedulesDisjoint, LinksOk, CapacityOk, VehiclesOk, RoutesOk, TransfersOk, ShipmentsOk,
         DriversOk, TasksOk, AttemptsOk, LedgersOk,
      LedgerOk, Recorded, MoneyStep, Replayable;
    LedgerOf(db.shipments, db.ledgers, id);
    SuccessIsRecorded(db.shipments[id].status, db.ledgers[id], c);
    MoneyStepKeeps(db.shipments[id].status, db.ledgers[id], c);
    RecordedIsUnchanged(db.shipments[id].status, db1.ledgers[id], c);
    assert db1.ledgers[id := db1.ledgers[id]] == db1.ledgers;
  }

  /** Sending a command again, right after it went through, writes nothing. */
  lemma RetriesWriteNothing(db: Db, c: Command)
    requires Reachable(db) && Retriable(c)
    ensures References(db) && References(Apply(db, c).0)
    ensures Apply(db, c).1 == Done ==> Apply(Apply(db, c).0, c).0 == Apply(db, c).0
  {
    hide Inv, References, Reachable, ApplyFleet, ApplyParcel, ApplyNetwork, Settle, Replayable;
    ReachableInv(db);
    Resolves(db);
    StepKeeps(db, c);
    var db1 := Apply(db, c).0;
    Resolves(db1);
    if Apply(db, c).1 == Done {
      match c
      case Fleet(fleet) => FleetRetries(db, db1, fleet);
      case Parcel(parcel) => ParcelRetries(db, db1, parcel);
      case Network(network) => NetworkRetries(db, db1, network);
      case Money(id, step) => MoneyRetries(db, db1, id, step);
    }
  }
}

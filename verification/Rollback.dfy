/** A command that does not answer Done leaves the database as it was: a
    refusal rolls back, and a recognised replay writes nothing. */
module Rollback {
  import opened Rows
  import opened Ledgers
  import opened Policies
  import opened Tables
  import opened Invariants
  import opened Reachability
  import Transfers = TransferCommands
  import Trips = TripCommands
  import Parcels = ParcelCommands
  import Drivers = DriverCommands
  import KeepTrips
  import KeepTransfers
  import KeepParcels

  predicate Clean(db: Db, r: (Db, Reply)) {
    r.1 != Done ==> r.0 == db
  }

  lemma DriverClean(db: Db, id: Id, active: bool, home: Option<Id>, suspended: Option<bool>, capabilities: set<Capability>)
    ensures Clean(db, Drivers.UpdateDriver(db, id, home, suspended)) && Clean(db, Drivers.SetCapabilities(db, id, capabilities))
    ensures Clean(db, Drivers.SetAvailability(db, id, active)) && Clean(db, Drivers.SetUserStatus(db, id, active))
  {
  }

  lemma NewFleetClean(db: Db, id: Id, active: bool, home: Id, place: Option<int>, capacity: int)
    ensures Clean(db, Drivers.CreateWarehouse(db, place)) && Clean(db, Drivers.UpdateWarehouse(db, id, active, place))
    ensures Clean(db, Drivers.CreateDriver(db, active, home)) && Clean(db, Trips.CreateVehicle(db, capacity))
  {
  }

  lemma VehicleClean(db: Db, id: Id, capacity: int, hints: seq<Id>, status: VehicleStatus)
    requires References(db)
    ensures Clean(db, Trips.UpdateCapacity(db, id, capacity, hints)) && Clean(db, Trips.SetVehicleStatus(db, id, status))
  {
  }

  lemma ShipmentClean(db: Db, key: Id, terms: Terms, grams: int, id: Id, customer: Id, warehouse: Option<Id>)
    requires References(db)
    ensures Clean(db, Parcels.CreateShipment(db, key, terms, grams)) && Clean(db, Parcels.ConfirmShipment(db, id))
    ensures Clean(db, Parcels.CancelShipment(db, id, customer)) && Clean(db, Parcels.Redeliver(db, id))
    ensures Clean(db, Parcels.RequestReturn(db, id, warehouse)) && Clean(db, Parcels.StartReturn(db, id, customer))
  {
  }

  lemma WarehouseClean(db: Db, warehouse: Id, id: Id, grams: int, verified: bool, to: Id)
    requires References(db)
    ensures Clean(db, Parcels.CheckIn(db, warehouse, id, grams, verified)) && Clean(db, Parcels.RouteDestination(db, warehouse, id, to))
    ensures Clean(db, Parcels.MarkReady(db, warehouse, id)) && Clean(db, Parcels.ReceiveReturn(db, warehouse, id))
  {
  }

  lemma PickupClean(db: Db, key: Id, id: Id, driver: Id, located: bool, reassign: bool)
    requires References(db)
    ensures Clean(db, Parcels.AssignPickup(db, key, id, driver, located, reassign))
    ensures Clean(db, Parcels.AcceptPickup(db, id, driver)) && Clean(db, Parcels.RejectPickup(db, id, driver))
  {
  }

  lemma DeliveryClean(db: Db, key: Id, id: Id, driver: Id, located: bool)
    requires References(db)
    ensures Clean(db, Parcels.AssignDelivery(db, key, id, driver, located))
    ensures Clean(db, Parcels.StartDelivery(db, id, driver)) && Clean(db, Parcels.FailDelivery(db, id, driver))
  {
  }

  lemma CollectionClean(db: Db, id: Id, driver: Id, amount: Option<int>, now: int)
    requires References(db)
    ensures Clean(db, Parcels.PickUp(db, id, driver, amount, now)) && Clean(db, Parcels.CompleteDelivery(db, id, driver, amount, now))
  {
    hide CollectAt, OpenCod;
    if id < |db.assignments| {
      var k := db.assignments[id].shipment;
      assert db.ledgers[k := db.ledgers[k]] == db.ledgers;
    }
  }

  lemma TransferClean(db: Db, key: Id, warehouse: Id, id: Id, to: Id, cutover: Option<int>, now: int)
    requires References(db)
    ensures Clean(db, Transfers.CreateTransfer(db, key, warehouse, id, to)) && Clean(db, Transfers.DispatchTransfer(db, warehouse, id, None, cutover, now))
    ensures Clean(db, Transfers.ReceiveTransfer(db, warehouse, id, cutover, now))
  {
    hide DispatchableError;
  }

  lemma ManifestClean(db: Db, c: Trips.NewTrip, id: Id, transfer: Id)
    requires References(db)
    ensures Clean(db, Trips.CreateTrip(db, c)) && Clean(db, Trips.AssignTransfer(db, id, transfer)) && Clean(db, Trips.RemoveTransfer(db, id, transfer))
  {
    hide Trips.NewTripError, Trips.SameTrip, CapacityError;
  }

  lemma ScheduleClean(db: Db, id: Id, w: Window, reschedule: bool, version: int)
    requires References(db)
    ensures Clean(db, Trips.SetSchedule(db, id, w, reschedule, version)) && Clean(db, Trips.Unschedule(db, id, version))
  {
    hide BookingError;
  }

  lemma RoadClean(db: Db, id: Id, routed: bool, seen: Trips.Preflight, now: int)
    requires References(db)
    ensures Clean(db, Trips.PrepareTrip(db, id, routed)) && Clean(db, Trips.ArriveTrip(db, id))
    ensures Clean(db, Trips.CommitReroute(db, id, seen, now)) && Clean(db, Trips.CancelTrip(db, id))
  {
    hide Trips.ExecutionError;
    if id < |db.trips| { KeepTrips.PassedChecks(db, id); }
  }

  lemma DispatchClean(db: Db, id: Id, now: int)
    requires Inv(db)
    ensures Clean(db, Trips.DispatchTrip(db, id, now))
  {
    hide Inv;
    KeepTransfers.DispatchRefused(db, id, now);
  }

  lemma MoneyClean(db: Db, id: Id, c: MoneyCommand)
    requires Inv(db)
    ensures Clean(db, Settle(db, id, c))
  {
    hide TripsOk, SchedulesDisjoint, LinksOk, CapacityOk, VehiclesOk, RoutesOk, TransfersOk, ShipmentsOk,
         DriversOk, TasksOk, AttemptsOk, LedgersOk, MoneyStep;
    if id < |db.ledgers| {
      KeepParcels.MoneyKeeps(db, id, c);
      assert db.ledgers[id := db.ledgers[id]] == db.ledgers;
    }
  }

  lemma FleetClean(db: Db, c: FleetCommand)
    requires Inv(db)
    ensures Clean(db, ApplyFleet(db, c))
  {
    hide Inv, References, Drivers.CreateDriver, Drivers.CreateWarehouse, Drivers.SetAvailability, Drivers.SetCapabilities,
      Drivers.SetUserStatus, Drivers.UpdateDriver, Drivers.UpdateWarehouse, Trips.CreateVehicle, Trips.SetVehicleStatus, Trips.UpdateCapacity;
    Resolves(db);
    match c
    case CreateWarehouse(place) => NewFleetClean(db, 0, true, 0, place, 0);
    case UpdateWarehouse(id, active, place) => NewFleetClean(db, id, active, 0, place, 0);
    case CreateDriver(active, home) => NewFleetClean(db, 0, active, home, None, 0);
    case UpdateDriver(id, base, suspended) => DriverClean(db, id, true, base, suspended, {});
    case SetCapabilities(id, capabilities) => DriverClean(db, id, true, None, None, capabilities);
    case SetAvailability(id, online) => DriverClean(db, id, online, None, None, {});
    case SetUserStatus(id, active) => DriverClean(db, id, active, None, None, {});
    case CreateVehicle(capacity) => NewFleetClean(db, 0, true, 0, None, capacity);
    case UpdateCapacity(id, capacity, hints) => VehicleClean(db, id, capacity, hints, Available);
    case SetVehicleStatus(id, status) => VehicleClean(db, id, 0, [], status);
  }

  lemma ParcelClean(db: Db, c: ParcelCommand)
    requires Inv(db)
    ensures Clean(db, ApplyParcel(db, c))
  {
    hide Inv, References, Parcels.AcceptPickup, Parcels.AssignDelivery, Parcels.AssignPickup, Parcels.CancelShipment,
      Parcels.CompleteDelivery, Parcels.ConfirmShipment, Parcels.CreateShipment, Parcels.FailDelivery, Parcels.PickUp, Parcels.ReceiveReturn,
      Parcels.Redeliver, Parcels.RejectPickup, Parcels.RequestReturn, Parcels.StartDelivery, Parcels.StartReturn;
    Resolves(db);
    var terms := Terms(0, Sender, 0, 0);
    match c
    case CreateShipment(key, agreed, grams) => ShipmentClean(db, key, agreed, grams, 0, 0, None);
    case ConfirmShipment(id) => ShipmentClean(db, 0, terms, 0, id, 0, None);
    case CancelShipment(id, customer) => ShipmentClean(db, 0, terms, 0, id, customer, None);
    case AssignPickup(key, id, driver, located, reassign) => PickupClean(db, key, id, driver, located, reassign);
    case AcceptPickup(id, driver) => PickupClean(db, 0, id, driver, true, true);
    case RejectPickup(id, driver) => PickupClean(db, 0, id, driver, true, true);
    case PickUp(id, driver, amount, now) => CollectionClean(db, id, driver, amount, now);
    case AssignDelivery(key, id, driver, located) => DeliveryClean(db, key, id, driver, located);
    case StartDelivery(id, driver) => DeliveryClean(db, 0, id, driver, true);
    case CompleteDelivery(id, driver, amount, now) => CollectionClean(db, id, driver, amount, now);
    case FailDelivery(id, driver) => DeliveryClean(db, 0, id, driver, true);
    case Redeliver(id) => ShipmentClean(db, 0, terms, 0, id, 0, None);
    case RequestReturn(id, to) => ShipmentClean(db, 0, terms, 0, id, 0, to);
    case StartReturn(id, driver) => ShipmentClean(db, 0, terms, 0, id, driver, None);
    case ReceiveReturn(warehouse, id) => WarehouseClean(db, warehouse, id, 0, true, 0);
  }

  lemma NetworkClean(db: Db, c: NetworkCommand)
    requires Inv(db)
    ensures Clean(db, ApplyNetwork(db, c))
  {
    hide Inv, References, Parcels.CheckIn, Parcels.MarkReady, Parcels.RouteDestination, Transfers.CreateTransfer,
      Transfers.DispatchTransfer, Transfers.ReceiveTransfer, Trips.ArriveTrip, Trips.AssignTransfer, Trips.CancelTrip, Trips.CommitReroute,
      Trips.CreateTrip, Trips.DispatchTrip, Trips.PrepareTrip, Trips.RemoveTransfer, Trips.SetSchedule, Trips.Unschedule;
    Resolves(db);
    var trip := Trips.NewTrip(0, 0, 0, 0, 0, None, []);
    match c
    case CheckIn(warehouse, id, grams, verified) => WarehouseClean(db, warehouse, id, grams, verified, 0);
    case RouteDestination(warehouse, id, to) => WarehouseClean(db, warehouse, id, 0, true, to);
    case MarkReady(warehouse, id) => WarehouseClean(db, warehouse, id, 0, true, 0);
    case CreateTransfer(key, warehouse, id, to) => TransferClean(db, key, warehouse, id, to, None, 0);
    case DispatchTransfer(warehouse, id, cutover, now) => TransferClean(db, 0, warehouse, id, 0, cutover, now);
    case ReceiveTransfer(warehouse, id, cutover, now) => TransferClean(db, 0, warehouse, id, 0, cutover, now);
    case CreateTrip(created) => ManifestClean(db, created, 0, 0);
    case AssignTransfer(id, transfer) => ManifestClean(db, trip, id, transfer);
    case RemoveTransfer(id, transfer) => ManifestClean(db, trip, id, transfer);
    case SetSchedule(id, w, reschedule, version) => ScheduleClean(db, id, w, reschedule, version);
    case Unschedule(id, version) => ScheduleClean(db, id, Window(0, 0), false, version);
    case PrepareTrip(id, routed) => RoadClean(db, id, routed, Trips.Preflight(0, 0, 0, 0), 0);
    case DispatchTrip(id, now) => DispatchClean(db, id, now);
    case ArriveTrip(id) => RoadClean(db, id, true, Trips.Preflight(0, 0, 0, 0), 0);
    case CommitReroute(id, seen, now) => RoadClean(db, id, true, seen, now);
    case CancelTrip(id) => RoadClean(db, id, true, Trips.Preflight(0, 0, 0, 0), 0);
  }

  /** Only a command that answers Done changes anything. */
  lemma OnlyDoneWrites(db: Db, c: Command)
    requires Inv(db)
    ensures Clean(db, Apply(db, c))
  {
    hide ApplyFleet, ApplyParcel, ApplyNetwork, Inv, References, Settle;
    Resolves(db);
    match c
    case Fleet(fleet) => FleetClean(db, fleet);
    case Parcel(parcel) => ParcelClean(db, parcel);
    case Network(network) => NetworkClean(db, network);
    case Money(id, step) => MoneyClean(db, id, step);
  }
}

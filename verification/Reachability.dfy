/** The back end as one transition system: its commands, its runs, and the
    joint invariant over everything a run can reach. */
module Reachability {
  import opened Rows
  import opened Ledgers
  import opened Tables
  import opened Invariants
  import Transfers = TransferCommands
  import Trips = TripCommands
  import Parcels = ParcelCommands
  import Drivers = DriverCommands
  import KeepTrips
  import KeepTransfers
  import KeepParcels
  import KeepDrivers

  /** Warehouses, drivers and vehicles. */
  datatype FleetCommand =
    | CreateWarehouse(place: Option<int>)
    | UpdateWarehouse(id: Id, active: bool, place: Option<int>)
    | CreateDriver(active: bool, home: Id)
    | UpdateDriver(id: Id, base: Option<Id>, suspended: Option<bool>)
    | SetCapabilities(id: Id, capabilities: set<Capability>)
    | SetAvailability(id: Id, online: bool)
    | SetUserStatus(id: Id, active: bool)
    | CreateVehicle(capacity: int)
    | UpdateCapacity(id: Id, capacity: int, hints: seq<Id>)
    | SetVehicleStatus(id: Id, vehicleStatus: VehicleStatus)

  /** The life of a shipment outside the line haul. */
  datatype ParcelCommand =
    | CreateShipment(key: Id, terms: Terms, grams: int)
    | ConfirmShipment(id: Id)
    | CancelShipment(id: Id, customer: Id)
    | AssignPickup(key: Id, id: Id, driver: Id, located: bool, reassign: bool)
    | AcceptPickup(id: Id, driver: Id)
    | RejectPickup(id: Id, driver: Id)
    | PickUp(id: Id, driver: Id, amount: Option<int>, now: int)
    | AssignDelivery(key: Id, id: Id, driver: Id, located: bool)
    | StartDelivery(id: Id, driver: Id)
    | CompleteDelivery(id: Id, driver: Id, amount: Option<int>, now: int)
    | FailDelivery(id: Id, driver: Id)
    | Redeliver(id: Id)
    | RequestReturn(id: Id, returnTo: Option<Id>)
    | StartReturn(id: Id, driver: Id)
    | ReceiveReturn(warehouse: Id, id: Id)

  /** Warehouse handling, transfers and trips. */
  datatype NetworkCommand =
    | CheckIn(warehouse: Id, id: Id, grams: int, verified: bool)
    | RouteDestination(warehouse: Id, id: Id, to: Id)
    | MarkReady(warehouse: Id, id: Id)
    | CreateTransfer(key: Id, warehouse: Id, id: Id, to: Id)
    | DispatchTransfer(warehouse: Id, id: Id, cutover: Option<int>, now: int)
    | ReceiveTransfer(warehouse: Id, id: Id, cutover: Option<int>, now: int)
    | CreateTrip(trip: Trips.NewTrip)
    | AssignTransfer(id: Id, transfer: Id)
    | RemoveTransfer(id: Id, transfer: Id)
    | SetSchedule(id: Id, window: Window, reschedule: bool, expectedVersion: int)
    | Unschedule(id: Id, expectedVersion: int)
    | PrepareTrip(id: Id, routed: bool)
    | DispatchTrip(id: Id, now: int)
    | ArriveTrip(id: Id)
    | CommitReroute(id: Id, seen: Trips.Preflight, now: int)
    | CancelTrip(id: Id)

  /** One value per transaction, refused or committed. */
  datatype Command =
    | Fleet(fleet: FleetCommand)
    | Parcel(parcel: ParcelCommand)
    | Network(network: NetworkCommand)
    | Money(shipment: Id, step: MoneyCommand)

  function Settle(db: Db, id: Id, c: MoneyCommand): (Db, Reply) {
    if id >= |db.ledgers| then (db, Refused(NotFound))
    else var (l, r) := MoneyStep(db.ledgers[id], c); (db.(ledgers := db.ledgers[id := l]), r)
  }

  function ApplyFleet(db: Db, c: FleetCommand): (Db, Reply)
    requires References(db)
  {
    match c
    case CreateWarehouse(place) => Drivers.CreateWarehouse(db, place)
    case UpdateWarehouse(id, active, place) => Drivers.UpdateWarehouse(db, id, active, place)
    case CreateDriver(active, home) => Drivers.CreateDriver(db, active, home)
    case UpdateDriver(id, base, suspended) => Drivers.UpdateDriver(db, id, base, suspended)
    case SetCapabilities(id, capabilities) => Drivers.SetCapabilities(db, id, capabilities)
    case SetAvailability(id, online) => Drivers.SetAvailability(db, id, online)
    case SetUserStatus(id, active) => Drivers.SetUserStatus(db, id, active)
    case CreateVehicle(capacity) => Trips.CreateVehicle(db, capacity)
    case UpdateCapacity(id, capacity, hints) => Trips.UpdateCapacity(db, id, capacity, hints)
    case SetVehicleStatus(id, status) => Trips.SetVehicleStatus(db, id, status)
  }

  function ApplyParcel(db: Db, c: ParcelCommand): (Db, Reply)
    requires References(db)
  {
    match c
    case CreateShipment(key, terms, grams) => Parcels.CreateShipment(db, key, terms, grams)
    case ConfirmShipment(id) => Parcels.ConfirmShipment(db, id)
    case CancelShipment(id, customer) => Parcels.CancelShipment(db, id, customer)
    case AssignPickup(key, id, driver, located, reassign) => Parcels.AssignPickup(db, key, id, driver, located, reassign)
    case AcceptPickup(id, driver) => Parcels.AcceptPickup(db, id, driver)
    case RejectPickup(id, driver) => Parcels.RejectPickup(db, id, driver)
    case PickUp(id, driver, amount, now) => Parcels.PickUp(db, id, driver, amount, now)
    case AssignDelivery(key, id, driver, located) => Parcels.AssignDelivery(db, key, id, driver, located)
    case StartDelivery(id, driver) => Parcels.StartDelivery(db, id, driver)
    case CompleteDelivery(id, driver, amount, now) => Parcels.CompleteDelivery(db, id, driver, amount, now)
    case FailDelivery(id, driver) => Parcels.FailDelivery(db, id, driver)
    case Redeliver(id) => Parcels.Redeliver(db, id)
    case RequestReturn(id, to) => Parcels.RequestReturn(db, id, to)
    case StartReturn(id, driver) => Parcels.StartReturn(db, id, driver)
    case ReceiveReturn(warehouse, id) => Parcels.ReceiveReturn(db, warehouse, id)
  }

  function ApplyNetwork(db: Db, c: NetworkCommand): (Db, Reply)
    requires References(db)
  {
    match c
    case CheckIn(warehouse, id, grams, verified) => Parcels.CheckIn(db, warehouse, id, grams, verified)
    case RouteDestination(warehouse, id, to) => Parcels.RouteDestination(db, warehouse, id, to)
    case MarkReady(warehouse, id) => Parcels.MarkReady(db, warehouse, id)
    case CreateTransfer(key, warehouse, id, to) => Transfers.CreateTransfer(db, key, warehouse, id, to)
    case DispatchTransfer(warehouse, id, cutover, now) => Transfers.DispatchTransfer(db, warehouse, id, None, cutover, now)
    case ReceiveTransfer(warehouse, id, cutover, now) => Transfers.ReceiveTransfer(db, warehouse, id, cutover, now)
    case CreateTrip(trip) => Trips.CreateTrip(db, trip)
    case AssignTransfer(id, transfer) => Trips.AssignTransfer(db, id, transfer)
    case RemoveTransfer(id, transfer) => Trips.RemoveTransfer(db, id, transfer)
    case SetSchedule(id, w, reschedule, version) => Trips.SetSchedule(db, id, w, reschedule, version)
    case Unschedule(id, version) => Trips.Unschedule(db, id, version)
    case PrepareTrip(id, routed) => Trips.PrepareTrip(db, id, routed)
    case DispatchTrip(id, now) => Trips.DispatchTrip(db, id, now)
    case ArriveTrip(id) => Trips.ArriveTrip(db, id)
    case CommitReroute(id, seen, now) => Trips.CommitReroute(db, id, seen, now)
    case CancelTrip(id) => Trips.CancelTrip(db, id)
  }

  function Apply(db: Db, c: Command): (Db, Reply)
    requires References(db)
  {
    match c
    case Fleet(fleet) => ApplyFleet(db, fleet)
    case Parcel(parcel) => ApplyParcel(db, parcel)
    case Network(network) => ApplyNetwork(db, network)
    case Money(id, step) => Settle(db, id, step)
  }

  lemma FleetStepKeeps(db: Db, c: FleetCommand)
    requires Inv(db)
    ensures Inv(ApplyFleet(db, c).0)
  {
    hide Inv, References, Drivers.CreateDriver, Drivers.CreateWarehouse, Drivers.SetAvailability, Drivers.SetCapabilities,
      Drivers.SetUserStatus, Drivers.UpdateDriver, Drivers.UpdateWarehouse, Trips.CreateVehicle, Trips.SetVehicleStatus, Trips.UpdateCapacity;
    Resolves(db);
    match c
    case CreateWarehouse(place) => KeepDrivers.WarehousesKeep(db, 0, true, place);
    case UpdateWarehouse(id, active, place) => KeepDrivers.WarehousesKeep(db, id, active, place);
    case CreateDriver(active, home) => KeepDrivers.CreateDriverKeeps(db, active, home);
    case UpdateDriver(id, base, suspended) => KeepDrivers.UpdateDriverKeeps(db, id, base, suspended);
    case SetCapabilities(id, capabilities) => KeepDrivers.SetCapabilitiesKeeps(db, id, capabilities);
    case SetAvailability(id, online) => KeepDrivers.SetAvailabilityKeeps(db, id, online);
    case SetUserStatus(id, active) => KeepDrivers.SetUserStatusKeeps(db, id, active);
    case CreateVehicle(capacity) => KeepTrips.CreateVehicleKeeps(db, capacity);
    case UpdateCapacity(id, capacity, hints) => KeepTrips.UpdateCapacityKeeps(db, id, capacity, hints);
    case SetVehicleStatus(id, status) => KeepTrips.SetVehicleStatusKeeps(db, id, status);
  }

  lemma ParcelStepKeeps(db: Db, c: ParcelCommand)
    requires Inv(db)
    ensures Inv(ApplyParcel(db, c).0)
  {
    hide Inv, References, Parcels.AcceptPickup, Parcels.AssignDelivery, Parcels.AssignPickup, Parcels.CancelShipment,
      Parcels.CompleteDelivery, Parcels.ConfirmShipment, Parcels.CreateShipment, Parcels.FailDelivery, Parcels.PickUp, Parcels.ReceiveReturn,
      Parcels.Redeliver, Parcels.RejectPickup, Parcels.RequestReturn, Parcels.StartDelivery, Parcels.StartReturn;
    Resolves(db);
    match c
    case CreateShipment(key, terms, grams) => KeepParcels.CreateShipmentKeeps(db, key, terms, grams);
    case ConfirmShipment(id) => KeepParcels.ConfirmKeeps(db, id);
    case CancelShipment(id, customer) => KeepParcels.CancelShipmentKeeps(db, id, customer);
    case AssignPickup(key, id, driver, located, reassign) => KeepParcels.AssignPickupKeeps(db, key, id, driver, located, reassign);
    case AcceptPickup(id, driver) => KeepParcels.AcceptKeeps(db, id, driver);
    case RejectPickup(id, driver) => KeepParcels.RejectKeeps(db, id, driver);
    case PickUp(id, driver, amount, now) => KeepParcels.PickUpKeeps(db, id, driver, amount, now);
    case AssignDelivery(key, id, driver, located) => KeepParcels.AssignDeliveryKeeps(db, key, id, driver, located);
    case StartDelivery(id, driver) => KeepParcels.StartDeliveryKeeps(db, id, driver);
    case CompleteDelivery(id, driver, amount, now) => KeepParcels.CompleteKeeps(db, id, driver, amount, now);
    case FailDelivery(id, driver) => KeepParcels.FailKeeps(db, id, driver);
    case Redeliver(id) => KeepParcels.RedeliverKeeps(db, id);
    case RequestReturn(id, to) => KeepParcels.RequestReturnKeeps(db, id, to);
    case StartReturn(id, driver) => KeepParcels.StartReturnKeeps(db, id, driver);
    case ReceiveReturn(warehouse, id) => KeepParcels.ReceiveReturnKeeps(db, warehouse, id);
  }

  lemma NetworkStepKeeps(db: Db, c: NetworkCommand)
    requires Inv(db)
    ensures Inv(ApplyNetwork(db, c).0)
  {
    hide Inv, References, Parcels.CheckIn, Parcels.MarkReady, Parcels.RouteDestination, Transfers.CreateTransfer,
      Transfers.DispatchTransfer, Transfers.ReceiveTransfer, Trips.ArriveTrip, Trips.AssignTransfer, Trips.CancelTrip, Trips.CommitReroute,
      Trips.CreateTrip, Trips.DispatchTrip, Trips.PrepareTrip, Trips.RemoveTransfer, Trips.SetSchedule, Trips.Unschedule;
    Resolves(db);
    match c
    case CheckIn(warehouse, id, grams, verified) => KeepTransfers.CheckInKeeps(db, warehouse, id, grams, verified);
    case RouteDestination(warehouse, id, to) => KeepTransfers.RouteKeeps(db, warehouse, id, to);
    case MarkReady(warehouse, id) => KeepTransfers.MarkReadyKeeps(db, warehouse, id);
    case CreateTransfer(key, warehouse, id, to) => KeepTransfers.CreateTransferKeeps(db, key, warehouse, id, to);
    case DispatchTransfer(warehouse, id, cutover, now) => KeepTransfers.DispatchTransferKeeps(db, warehouse, id, cutover, now);
    case ReceiveTransfer(warehouse, id, cutover, now) => KeepTransfers.ReceiveTransferKeeps(db, warehouse, id, cutover, now);
    case CreateTrip(trip) => KeepTrips.CreateTripKeeps(db, trip);
    case AssignTransfer(id, transfer) => KeepTrips.AssignKeeps(db, id, transfer);
    case RemoveTransfer(id, transfer) => KeepTrips.RemoveKeeps(db, id, transfer);
    case SetSchedule(id, w, reschedule, version) => KeepTrips.ScheduleKeeps(db, id, w, reschedule, version);
    case Unschedule(id, version) => KeepTrips.UnscheduleKeeps(db, id, version);
    case PrepareTrip(id, routed) => KeepTrips.PrepareKeeps(db, id, routed);
    case DispatchTrip(id, now) => KeepTransfers.DispatchKeeps(db, id, now);
    case ArriveTrip(id) => KeepTrips.ArriveKeeps(db, id);
    case CommitReroute(id, seen, now) => KeepTrips.RerouteKeeps(db, id, seen, now);
    case CancelTrip(id) => KeepTrips.CancelKeeps(db, id);
  }

  /** Every command keeps the joint invariant. */
  lemma StepKeeps(db: Db, c: Command)
    requires Inv(db)
    ensures Inv(Apply(db, c).0)
  {
    hide ApplyFleet, ApplyParcel, ApplyNetwork, Inv, References, MoneyStep;
    Resolves(db);
    match c
    case Fleet(fleet) => FleetStepKeeps(db, fleet);
    case Parcel(parcel) => ParcelStepKeeps(db, parcel);
    case Network(network) => NetworkStepKeeps(db, network);
    case Money(id, step) => if id < |db.ledgers| { KeepParcels.MoneyKeeps(db, id, step); }
  }

  /** A run: the states it passes through and the commands, refused ones
      included, that lead from one to the next. */
  ghost predicate Execution(states: seq<Db>, cs: seq<Command>) {
    && |states| == |cs| + 1
    && forall i {:trigger cs[i]} :: 0 <= i < |cs| ==> References(states[i]) && states[i + 1] == Apply(states[i], cs[i]).0
  }

  ghost predicate LeadsTo(db: Db, later: Db) {
    exists states: seq<Db>, cs: seq<Command> :: Execution(states, cs) && states[0] == db && states[|cs|] == later
  }

  ghost predicate Reachable(db: Db) {
    LeadsTo(EMPTY, db)
  }

  lemma {:induction false} ExecutionKeeps(states: seq<Db>, cs: seq<Command>, n: nat)
    requires Execution(states, cs) && Inv(states[0]) && n <= |cs|
    ensures Inv(states[n])
  {
    hide Apply, Inv;
    if n > 0 {
      ExecutionKeeps(states, cs, n - 1);
      StepKeeps(states[n - 1], cs[n - 1]);
    }
  }

  lemma LaterKeeps(db: Db, later: Db)
    requires Inv(db) && LeadsTo(db, later)
    ensures Inv(later)
  {
    hide Apply, Inv;
    var states, cs :| Execution(states, cs) && states[0] == db && states[|cs|] == later;
    ExecutionKeeps(states, cs, |cs|);
  }

  /** Every reachable state satisfies the joint invariant. */
  lemma ReachableInv(db: Db)
    requires Reachable(db)
    ensures Inv(db)
  {
    hide LeadsTo, Inv;
    EmptyInv();
    LaterKeeps(EMPTY, db);
  }

  /** What a reachable state leads to is reachable. */
  lemma ReachableOnwards(db: Db, later: Db)
    requires Reachable(db) && LeadsTo(db, later)
    ensures Reachable(later)
  {
    hide Apply, References;
    var states, cs :| Execution(states, cs) && states[0] == EMPTY && states[|cs|] == db;
    var states', cs' :| Execution(states', cs') && states'[0] == db && states'[|cs'|] == later;
    var all, ds := states[..|cs|] + states', cs + cs';
    forall i | 0 <= i < |ds| ensures References(all[i]) && all[i + 1] == Apply(all[i], ds[i]).0 {
      if i < |cs| { assert ds[i] == cs[i]; } else { assert ds[i] == cs'[i - |cs|]; }
    }
    assert Execution(all, ds) && all[0] == EMPTY && all[|ds|] == later;
  }
}

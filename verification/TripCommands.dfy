/** Line-haul trips and vehicles. */
module TripCommands {
  import opened Rows
  import opened Policies
  import opened Tables
  import opened TransferCommands

  datatype NewTrip = NewTrip(key: Id, origin: Id, destination: Id, driver: Id, vehicle: Id, window: Option<Window>, transfers: seq<Id>)

  predicate Within(ids: seq<Id>, n: nat) {
    forall i :: 0 <= i < |ids| ==> ids[i] < n
  }

  function Grams(loads: seq<int>, ids: seq<Id>): int
    requires Within(ids, |loads|)
  {
    if |ids| == 0 then 0 else Grams(loads, ids[..|ids| - 1]) + loads[ids[|ids| - 1]]
  }

  predicate Distinct(ids: seq<Id>) {
    forall i, j :: 0 <= i < j < |ids| ==> ids[i] != ids[j]
  }

  function CandidateTransferError(db: Db, c: NewTrip, t: Id): Option<Error>
    requires References(db) && t < |db.transfers|
  {
    var refusal := DispatchableError(db.transfers[t], db.shipments[db.transfers[t].shipment], c.origin, c.destination);
    if refusal.Some? then refusal
    else if ActiveLink(db.links, t).Some? then Some(TransferOwned)
    else if !SafeWeight(LoadGrams(db.shipments[db.transfers[t].shipment])) then Some(ShipmentWeightInvalid)
    else None
  }

  /** The first refusal among the requested transfers. */
  function CandidateTransfersError(db: Db, c: NewTrip, ids: seq<Id>): (r: Option<Error>)
    requires References(db) && Within(ids, |db.transfers|)
    ensures r == None <==> forall i :: 0 <= i < |ids| ==> CandidateTransferError(db, c, ids[i]) == None
  {
    if |ids| == 0 then None
    else
      var rest := CandidateTransfersError(db, c, ids[..|ids| - 1]);
      if rest.Some? then rest else CandidateTransferError(db, c, ids[|ids| - 1])
  }

  /** Everything `create` checks before it writes. */
  function NewTripError(db: Db, c: NewTrip): Option<Error>
    requires References(db)
  {
    if !WarehouseOpen(db.warehouses, c.origin) || !WarehouseOpen(db.warehouses, c.destination) then Some(WarehouseInactive)
    else if c.driver >= |db.drivers| then Some(NotFound)
    else if DriverError(db.drivers[c.driver]).Some? then DriverError(db.drivers[c.driver])
    else if c.vehicle >= |db.vehicles| then Some(NotFound)
    else if VehicleError(db.vehicles[c.vehicle]).Some? then VehicleError(db.vehicles[c.vehicle])
    else if c.window.Some? && DriverAssigned(db.assignments, c.driver) then Some(DriverHasActiveAssignment)
    else if c.window.Some? && BookingError(db.trips, c.driver, c.vehicle, c.window.value, None).Some? then
      BookingError(db.trips, c.driver, c.vehicle, c.window.value, None)
    else if !Distinct(c.transfers) || !Within(c.transfers, |db.transfers|) then Some(NotFound)
    else if CandidateTransfersError(db, c, c.transfers).Some? then CandidateTransfersError(db, c, c.transfers)
    else CapacityError(Grams(Loads(db.transfers, db.shipments), c.transfers), db.vehicles[c.vehicle].capacity)
  }

  predicate SameTrip(db: Db, t: Trip, id: Id, c: NewTrip) {
    && t.origin == c.origin && t.destination == c.destination && t.driver == c.driver && t.vehicle == c.vehicle
    && t.schedule == c.window && multiset(Manifest(db.links, id)) == multiset(c.transfers)
  }

  /** The trip a client request already created. */
  function TripByKey(trips: seq<Trip>, key: Id): (r: Option<nat>)
    ensures r.Some? ==> r.value < |trips| && trips[r.value].key == key
    ensures r == None ==> forall i :: 0 <= i < |trips| ==> trips[i].key != key
  {
    if |trips| == 0 then None
    else if trips[|trips| - 1].key == key then Some(|trips| - 1)
    else TripByKey(trips[..|trips| - 1], key)
  }

  function ManifestLinks(trip: Id, ids: seq<Id>): seq<Link> {
    seq(|ids|, i requires 0 <= i < |ids| => Link(trip, ids[i], true))
  }

  function CreateTrip(db: Db, c: NewTrip): (Db, Reply)
    requires References(db)
  {
    var existing := TripByKey(db.trips, c.key);
    if c.origin == c.destination then (db, Refused(SameWarehouse))
    else if c.window.Some? && !ValidWindow(c.window.value) then (db, Refused(ScheduleRangeInvalid))
    else if existing.Some? then
      if SameTrip(db, db.trips[existing.value], existing.value, c) then (db, Unchanged) else (db, Refused(KeyReused))
    else match NewTripError(db, c)
      case Some(e) => (db, Refused(e))
      case None =>
        (db.(trips := db.trips + [Trip(c.key, c.origin, c.destination, c.driver, c.vehicle, Planned, c.window, None, None, None, 0)],
             links := db.links + ManifestLinks(|db.trips|, c.transfers)),
         Done)
  }

  function AssignTransfer(db: Db, id: Id, transfer: Id): (Db, Reply)
    requires References(db)
  {
    if id >= |db.trips| then (db, Refused(NotFound))
    else if db.trips[id].status != Planned then (db, Refused(TripNotConfigurable))
    else if transfer >= |db.transfers| then (db, Refused(NotFound))
    else
      var trip := db.trips[id];
      var t := db.transfers[transfer];
      var owner := ActiveLink(db.links, transfer);
      var loads := Loads(db.transfers, db.shipments);
      if t.status != Waiting then (db, Refused(TransferNotPending))
      else if t.from != trip.origin || t.to != trip.destination then (db, Refused(RouteMismatch))
      else if owner.Some? && db.links[owner.value].trip == id then (db, Unchanged)
      else if owner.Some? then (db, Refused(TransferOwned))
      else match ManifestGrams(db.links, loads, id)
        case Err(e) => (db, Refused(e))
        case Ok(total) =>
          if !SafeWeight(loads[transfer]) then (db, Refused(ShipmentWeightInvalid))
          else match CapacityError(total + loads[transfer], db.vehicles[trip.vehicle].capacity)
            case Some(e) => (db, Refused(e))
            case None => (db.(links := db.links + [Link(id, transfer, true)]), Done)
  }

  function RemoveTransfer(db: Db, id: Id, transfer: Id): (Db, Reply)
    requires References(db)
  {
    if id >= |db.trips| then (db, Refused(NotFound))
    else if db.trips[id].status != Planned then (db, Refused(TripNotConfigurable))
    else match LinkOf(db.links, id, transfer)
      case None =>
        if exists i :: 0 <= i < |db.links| && db.links[i].trip == id && db.links[i].transfer == transfer
        then (db, Unchanged) else (db, Refused(TransferAssignmentNotFound))
      case Some(k) => (db.(links := db.links[k := db.links[k].(active := false)]), Done)
  }

  function SetSchedule(db: Db, id: Id, w: Window, reschedule: bool, expectedVersion: int): (Db, Reply)
    requires References(db)
  {
    if !ValidWindow(w) then (db, Refused(ScheduleRangeInvalid))
    else if id >= |db.trips| then (db, Refused(NotFound))
    else
      var t := db.trips[id];
      var booked := BookingError(db.trips, t.driver, t.vehicle, w, Some(id));
      if t.status != Planned then (db, Refused(TripNotSchedulable))
      else if t.schedule == Some(w) then (db, Unchanged)
      else if !reschedule && t.schedule.Some? then (db, Refused(TripAlreadyScheduled))
      else if reschedule && t.schedule == None then (db, Refused(TripNotScheduled))
      else if t.version != expectedVersion then (db, Refused(ConcurrentModification))
      else if DriverError(db.drivers[t.driver]).Some? then (db, Refused(DriverError(db.drivers[t.driver]).value))
      else if VehicleError(db.vehicles[t.vehicle]).Some? then (db, Refused(VehicleError(db.vehicles[t.vehicle]).value))
      else if booked.Some? then (db, Refused(booked.value))
      else (db.(trips := db.trips[id := t.(schedule := Some(w), version := t.version + 1)]), Done)
  }

  function Unschedule(db: Db, id: Id, expectedVersion: int): (Db, Reply)
    requires References(db)
  {
    if id >= |db.trips| then (db, Refused(NotFound))
    else
      var t := db.trips[id];
      if t.status != Planned then (db, Refused(TripNotSchedulable))
      else if t.schedule == None then (db, Unchanged)
      else if t.version != expectedVersion then (db, Refused(ConcurrentModification))
      else (db.(trips := db.trips[id := t.(schedule := None, version := t.version + 1)]), Done)
  }

  /** The first transfer on the manifest that could not leave now. */
  function ManifestError(db: Db, id: Id, ids: seq<Id>): (r: Option<Error>)
    requires References(db) && id < |db.trips| && Within(ids, |db.transfers|)
    ensures r == None <==> forall i :: 0 <= i < |ids| ==>
                             DispatchableError(db.transfers[ids[i]], db.shipments[db.transfers[ids[i]].shipment], db.trips[id].origin, db.trips[id].destination) == None
  {
    if |ids| == 0 then None
    else
      var rest := ManifestError(db, id, ids[..|ids| - 1]);
      var t := db.transfers[ids[|ids| - 1]];
      if rest.Some? then rest
      else DispatchableError(t, db.shipments[t.shipment], db.trips[id].origin, db.trips[id].destination)
  }

  /** What `prepare` and `dispatch` both check under the driver, vehicle and
      transfer locks. */
  function ExecutionError(db: Db, id: Id): Option<Error>
    requires References(db) && id < |db.trips|
  {
    var t := db.trips[id];
    var ids := Manifest(db.links, id);
    var grams := ManifestGrams(db.links, Loads(db.transfers, db.shipments), id);
    if t.schedule == None then Some(ScheduleRequired)
    else if !ValidWindow(t.schedule.value) then Some(ScheduleRangeInvalid)
    else if DriverError(db.drivers[t.driver]).Some? then DriverError(db.drivers[t.driver])
    else if DriverAssigned(db.assignments, t.driver) then Some(DriverHasActiveAssignment)
    else if VehicleError(db.vehicles[t.vehicle]).Some? then VehicleError(db.vehicles[t.vehicle])
    else if BookingError(db.trips, t.driver, t.vehicle, t.schedule.value, Some(id)).Some? then
      BookingError(db.trips, t.driver, t.vehicle, t.schedule.value, Some(id))
    else if !db.warehouses[t.origin].active || !db.warehouses[t.destination].active then Some(WarehouseInactive)
    else if |ids| == 0 then Some(ManifestEmpty)
    else if ManifestError(db, id, ids).Some? then ManifestError(db, id, ids)
    else match grams
      case Err(e) => Some(e)
      case Ok(total) => CapacityError(total, db.vehicles[t.vehicle].capacity)
  }

  /** `routed` says whether the route read before the transaction produced one. */
  function PrepareTrip(db: Db, id: Id, routed: bool): (Db, Reply)
    requires References(db)
  {
    if id >= |db.trips| then (db, Refused(NotFound))
    else
      var t := db.trips[id];
      if FrozenTrip(t.status) then (db, Unchanged)
      else if t.status != Planned then (db, Refused(TripNotPreparable))
      else if ExecutionError(db, id).Some? then (db, Refused(ExecutionError(db, id).value))
      else
        var grams := ManifestGrams(db.links, Loads(db.transfers, db.shipments), id).value;
        var mapped := routed && db.warehouses[t.origin].place.Some? && db.warehouses[t.destination].place.Some?;
        (db.(trips := db.trips[id := t.(status := Ready, preparedGrams := Some(grams),
                                        preparedCapacity := Some(db.vehicles[t.vehicle].capacity),
                                        route := if mapped then Some(|db.routes|) else t.route, version := t.version + 1)],
             routes := if mapped then db.routes + [Route(id, 1)] else db.routes),
         Done)
  }

  /** Dispatches the manifest transfer by transfer; one refusal stops the loop. */
  function DispatchAll(db: Db, warehouse: Id, trip: Id, ids: seq<Id>, now: int): (r: Result<Db>)
    requires References(db)
    ensures r.Ok? ==> References(r.value)
  {
    if |ids| == 0 then Ok(db)
    else match DispatchAll(db, warehouse, trip, ids[..|ids| - 1], now)
      case Err(e) => Err(e)
      case Ok(db1) =>
        match DispatchTransfer(db1, warehouse, ids[|ids| - 1], Some(trip), None, now)
        case (_, Refused(e)) => Err(e)
        case (db2, _) => Ok(db2)
  }

  /** The trip and vehicle rows as dispatch writes them, before the manifest. */
  function Departed(db: Db, id: Id): (r: Db)
    requires References(db) && id < |db.trips|
    ensures References(r)
  {
    var t := db.trips[id];
    var v := db.vehicles[t.vehicle];
    db.(trips := db.trips[id := t.(status := Underway, version := t.version + 1)],
        vehicles := db.vehicles[t.vehicle := v.(status := InUse, version := v.version + 1)])
  }

  function DispatchTrip(db: Db, id: Id, now: int): (Db, Reply)
    requires References(db)
  {
    if id >= |db.trips| then (db, Refused(NotFound))
    else
      var t := db.trips[id];
      if t.status in {Underway, Arrived} then (db, Unchanged)
      else if t.status != Ready then (db, Refused(TripNotDispatchable))
      else if ExecutionError(db, id).Some? then (db, Refused(ExecutionError(db, id).value))
      else match DispatchAll(Departed(db, id), t.origin, id, Manifest(db.links, id), now)
        case Err(e) => (db, Refused(e))
        case Ok(db1) => (db1, Done)
  }

  function ArriveTrip(db: Db, id: Id): (Db, Reply)
    requires References(db)
  {
    if id >= |db.trips| then (db, Refused(NotFound))
    else
      var t := db.trips[id];
      var v := db.vehicles[t.vehicle];
      if t.status == Arrived then (db, Unchanged)
      else if t.status != Underway then (db, Refused(TripNotArrivable))
      else if |Manifest(db.links, id)| == 0 then (db, Refused(ManifestEmpty))
      else if v.status != InUse then (db, Refused(ConcurrentModification))
      else
        (db.(trips := db.trips[id := t.(status := Arrived, version := t.version + 1)],
             vehicles := db.vehicles[t.vehicle := v.(status := Available, version := v.version + 1)]),
         Done)
  }

  /** What a reroute reads before it asks the provider for a road route. */
  datatype Preflight = Preflight(version: nat, route: Id, place: int, capturedAt: int)

  const LOCATION_TTL := 20_000

  /** A position sample of this age can still be routed from. */
  predicate FreshSample(capturedAt: int, now: int) {
    0 <= now - capturedAt < LOCATION_TTL
  }

  /** `gps` is the capture time of the stored position sample, if there is one. */
  function ReroutePreflight(db: Db, id: Id, gps: Option<int>, now: int): Result<Preflight>
    requires References(db)
  {
    if id >= |db.trips| then Err(NotFound)
    else
      var t := db.trips[id];
      if t.status != Underway then Err(RerouteNotInTransit)
      else if t.route == None then Err(CurrentRouteRequired)
      else match db.warehouses[t.destination].place
        case None => Err(DestinationRequired)
        case Some(p) =>
          if gps == None || !FreshSample(gps.value, now) then Err(CurrentGpsRequired)
          else Ok(Preflight(t.version, t.route.value, p, gps.value))
  }

  /** Commits a reroute against whatever the preflight saw, however long ago. */
  function CommitReroute(db: Db, id: Id, seen: Preflight, now: int): (Db, Reply)
    requires References(db)
  {
    if id >= |db.trips| then (db, Refused(NotFound))
    else
      var t := db.trips[id];
      if t.status != Underway then (db, Refused(RerouteNotInTransit))
      else if t.version != seen.version || t.route != Some(seen.route) then (db, Refused(ConcurrentModification))
      else if db.warehouses[t.destination].place != Some(seen.place) then (db, Refused(RerouteDestinationChanged))
      else if !FreshSample(seen.capturedAt, now) then (db, Refused(CurrentGpsRequired))
      else
        (db.(routes := db.routes + [Route(id, db.routes[seen.route].version + 1)],
             trips := db.trips[id := t.(route := Some(|db.routes|), version := t.version + 1)]),
         Done)
  }

  function WithoutTrip(links: seq<Link>, trip: Id): (r: seq<Link>)
    ensures |r| == |links|
    ensures forall i :: 0 <= i < |r| ==> r[i] == if links[i].trip == trip then links[i].(active := false) else links[i]
  {
    seq(|links|, i requires 0 <= i < |links| => if links[i].trip == trip then links[i].(active := false) else links[i])
  }

  function CancelTrip(db: Db, id: Id): (Db, Reply)
    requires References(db)
  {
    if id >= |db.trips| then (db, Refused(NotFound))
    else
      var t := db.trips[id];
      if t.status == Withdrawn then (db, Unchanged)
      else if t.status !in {Planned, Ready} then (db, Refused(TripNotCancellable))
      else
        (db.(trips := db.trips[id := t.(status := Withdrawn, version := t.version + 1)], links := WithoutTrip(db.links, id)), Done)
  }

  // ----- vehicles -----

  function CreateVehicle(db: Db, capacity: int): (Db, Reply) {
    if !ValidCapacity(capacity) then (db, Refused(InvalidInput))
    else (db.(vehicles := db.vehicles + [Vehicle(Available, capacity, 0)]), Done)
  }

  /** The active trips of a vehicle in id order. */
  function ActiveTrips(trips: seq<Trip>, vehicle: Id): (r: seq<Id>)
    ensures forall t: Id :: t in r <==> t < |trips| && trips[t].vehicle == vehicle && ActiveTrip(trips[t].status)
  {
    if |trips| == 0 then []
    else
      var last := trips[|trips| - 1];
      var rest := ActiveTrips(trips[..|trips| - 1], vehicle);
      if last.vehicle == vehicle && ActiveTrip(last.status) then rest + [|trips| - 1] else rest
  }

  function CarryingError(links: seq<Link>, loads: seq<int>, ids: seq<Id>, capacity: int): (r: Option<Error>)
    ensures r == None ==> forall t: Id :: t in ids ==> ManifestGrams(links, loads, t).Ok? && ManifestGrams(links, loads, t).value <= capacity
  {
    if |ids| == 0 then None
    else
      var rest := CarryingError(links, loads, ids[..|ids| - 1], capacity);
      assert ids == ids[..|ids| - 1] + [ids[|ids| - 1]];
      if rest.Some? then rest
      else match ManifestGrams(links, loads, ids[|ids| - 1])
        case Err(e) => Some(e)
        case Ok(total) => CapacityError(total, capacity)
  }

  /** `hints` are the active trips read, and then locked, before the vehicle. */
  function UpdateCapacity(db: Db, vehicle: Id, capacity: int, hints: seq<Id>): (Db, Reply)
    requires References(db)
  {
    if !ValidCapacity(capacity) then (db, Refused(CapacityRequired))
    else if vehicle >= |db.vehicles| then (db, Refused(NotFound))
    else
      var v := db.vehicles[vehicle];
      var ids := ActiveTrips(db.trips, vehicle);
      var refusal := CarryingError(db.links, Loads(db.transfers, db.shipments), ids, capacity);
      if v.capacity == capacity then (db, Unchanged)
      else if v.status == InUse then (db, Refused(VehicleInUse))
      else if ids != hints then (db, Refused(ConcurrentModification))
      else if refusal.Some? then (db, Refused(refusal.value))
      else (db.(vehicles := db.vehicles[vehicle := v.(capacity := capacity, version := v.version + 1)]), Done)
  }

  function SetVehicleStatus(db: Db, vehicle: Id, status: VehicleStatus): (Db, Reply)
    requires References(db)
  {
    if vehicle >= |db.vehicles| then (db, Refused(NotFound))
    else if status == InUse then (db, Refused(InvalidInput))
    else
      var v := db.vehicles[vehicle];
      if v.status == status then
        if status == Available && !ValidCapacity(v.capacity) then (db, Refused(CapacityRequired)) else (db, Unchanged)
      else if v.status == InUse then (db, Refused(VehicleInUse))
      else if VehicleExecuting(db.trips, vehicle) then (db, Refused(VehicleHasActiveTrip))
      else if status == Available && !ValidCapacity(v.capacity) then (db, Refused(CapacityRequired))
      else (db.(vehicles := db.vehicles[vehicle := v.(status := status, version := v.version + 1)]), Done)
  }
}

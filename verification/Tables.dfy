/** The database as a value, and the reads the commands make of it. */
module Tables {
  import opened Rows
  import opened Ledgers
  import opened Policies

  datatype Db = Db(warehouses: seq<Warehouse>, drivers: seq<Driver>, vehicles: seq<Vehicle>,
                   shipments: seq<Shipment>, ledgers: seq<Ledger>, transfers: seq<Transfer>,
                   trips: seq<Trip>, links: seq<Link>, routes: seq<Route>,
                   assignments: seq<Assignment>, attempts: seq<Attempt>)

  const EMPTY := Db([], [], [], [], [], [], [], [], [], [], [])

  /** Every foreign key resolves, as the database enforces. */
  predicate References(db: Db) {
    && |db.ledgers| == |db.shipments|
    && (forall i :: 0 <= i < |db.drivers| ==> db.drivers[i].home < |db.warehouses|)
    && (forall i :: 0 <= i < |db.transfers| ==>
          && db.transfers[i].shipment < |db.shipments|
          && db.transfers[i].from < |db.warehouses| && db.transfers[i].to < |db.warehouses|)
    && (forall i :: 0 <= i < |db.trips| ==>
          && db.trips[i].origin < |db.warehouses| && db.trips[i].destination < |db.warehouses|
          && db.trips[i].driver < |db.drivers| && db.trips[i].vehicle < |db.vehicles|
          && (db.trips[i].route.Some? ==> db.trips[i].route.value < |db.routes|))
    && (forall i :: 0 <= i < |db.links| ==> db.links[i].trip < |db.trips| && db.links[i].transfer < |db.transfers|)
    && (forall i :: 0 <= i < |db.routes| ==> db.routes[i].trip < |db.trips|)
    && (forall i :: 0 <= i < |db.assignments| ==>
          db.assignments[i].shipment < |db.shipments| && db.assignments[i].driver < |db.drivers|)
    && (forall i :: 0 <= i < |db.attempts| ==>
          && db.attempts[i].shipment < |db.shipments| && db.attempts[i].assignment < |db.assignments|)
  }

  predicate OnManifest(links: seq<Link>, trip: Id, transfer: Id) {
    exists i :: 0 <= i < |links| && links[i] == Link(trip, transfer, true)
  }

  predicate HasManifest(links: seq<Link>, trip: Id) {
    exists i :: 0 <= i < |links| && links[i].active && links[i].trip == trip
  }

  /** The transfers on a trip's manifest, in table order. */
  function Manifest(links: seq<Link>, trip: Id): (r: seq<Id>)
    ensures forall t: Id :: t in r <==> OnManifest(links, trip, t)
    ensures forall i :: 0 <= i < |r| ==> OnManifest(links, trip, r[i])
  {
    if |links| == 0 then []
    else
      var last := links[|links| - 1];
      var rest := Manifest(links[..|links| - 1], trip);
      assert links == links[..|links| - 1] + [last];
      if last.active && last.trip == trip then rest + [last.transfer] else rest
  }

  /** The first active link of a transfer. */
  function ActiveLink(links: seq<Link>, transfer: Id): (r: Option<nat>)
    ensures r.Some? ==> r.value < |links| && links[r.value].active && links[r.value].transfer == transfer
    ensures r == None ==> forall i :: 0 <= i < |links| ==> !(links[i].active && links[i].transfer == transfer)
  {
    if |links| == 0 then None
    else
      var rest := ActiveLink(links[..|links| - 1], transfer);
      var last := links[|links| - 1];
      if rest.Some? then rest
      else if last.active && last.transfer == transfer then Some(|links| - 1)
      else None
  }

  /** The active link a trip has for a transfer, if any. */
  function LinkOf(links: seq<Link>, trip: Id, transfer: Id): (r: Option<nat>)
    ensures r.Some? ==> r.value < |links| && links[r.value] == Link(trip, transfer, true)
    ensures r == None ==> !OnManifest(links, trip, transfer)
  {
    if |links| == 0 then None
    else
      var rest := LinkOf(links[..|links| - 1], trip, transfer);
      var last := links[|links| - 1];
      if rest.Some? then rest
      else if last == Link(trip, transfer, true) then Some(|links| - 1)
      else assert links == links[..|links| - 1] + [last]; None
  }

  function Loads(transfers: seq<Transfer>, shipments: seq<Shipment>): (r: seq<int>)
    ensures |r| == |transfers|
    ensures forall t :: 0 <= t < |r| && transfers[t].shipment < |shipments| ==> r[t] == LoadGrams(shipments[transfers[t].shipment])
  {
    seq(|transfers|, t requires 0 <= t < |transfers| =>
      if transfers[t].shipment < |shipments| then LoadGrams(shipments[transfers[t].shipment]) else 0)
  }

  /** The weight of a trip's manifest, added up link by link; a load that is
      not a positive safe integer, or an unsafe total, stops the sum. */
  function ManifestGrams(links: seq<Link>, loads: seq<int>, trip: Id): (r: Result<int>)
    ensures r.Ok? ==> 0 <= r.value <= MAX_SAFE_INTEGER
  {
    if |links| == 0 then Ok(0)
    else
      var last := links[|links| - 1];
      match ManifestGrams(links[..|links| - 1], loads, trip)
      case Err(e) => Err(e)
      case Ok(total) =>
        if !last.active || last.trip != trip || last.transfer >= |loads| then Ok(total)
        else if !SafeWeight(loads[last.transfer]) then Err(ShipmentWeightInvalid)
        else if total + loads[last.transfer] > MAX_SAFE_INTEGER then Err(ManifestWeightInvalid)
        else Ok(total + loads[last.transfer])
  }

  /** Another active trip reserves this driver, or this vehicle, for an overlapping
      window; an executing trip without a schedule always conflicts. */
  predicate ConflictsWith(t: Trip, w: Window) {
    && ActiveTrip(t.status)
    && ((t.schedule.Some? && Overlap(t.schedule.value, w)) || (t.schedule == None && ExecutingTrip(t.status)))
  }

  predicate DriverBooked(trips: seq<Trip>, driver: Id, w: Window, except: Option<Id>) {
    exists i :: 0 <= i < |trips| && except != Some(i) && trips[i].driver == driver && ConflictsWith(trips[i], w)
  }

  predicate VehicleBooked(trips: seq<Trip>, vehicle: Id, w: Window, except: Option<Id>) {
    exists i :: 0 <= i < |trips| && except != Some(i) && trips[i].vehicle == vehicle && ConflictsWith(trips[i], w)
  }

  function BookingError(trips: seq<Trip>, driver: Id, vehicle: Id, w: Window, except: Option<Id>): Option<Error> {
    if DriverBooked(trips, driver, w, except) then Some(DriverScheduleConflict)
    else if VehicleBooked(trips, vehicle, w, except) then Some(VehicleScheduleConflict)
    else None
  }

  predicate DriverAssigned(assignments: seq<Assignment>, driver: Id) {
    exists i :: 0 <= i < |assignments| && assignments[i].driver == driver && ActiveAssignment(assignments[i].status)
  }

  predicate DriverExecuting(trips: seq<Trip>, driver: Id) {
    exists i :: 0 <= i < |trips| && trips[i].driver == driver && ExecutingTrip(trips[i].status)
  }

  predicate VehicleExecuting(trips: seq<Trip>, vehicle: Id) {
    exists i :: 0 <= i < |trips| && trips[i].vehicle == vehicle && ExecutingTrip(trips[i].status)
  }

  predicate WarehouseOpen(warehouses: seq<Warehouse>, w: Id) {
    w < |warehouses| && warehouses[w].active
  }

  predicate TransferUnderway(transfers: seq<Transfer>, shipment: Id) {
    exists i :: 0 <= i < |transfers| && transfers[i].shipment == shipment && transfers[i].status in {Waiting, Moving}
  }

  /** The first unfinished transfer of a shipment. */
  function OpenTransfer(transfers: seq<Transfer>, shipment: Id): (r: Option<nat>)
    ensures r.Some? ==> r.value < |transfers| && transfers[r.value].shipment == shipment && transfers[r.value].status in {Waiting, Moving}
    ensures r == None ==> !TransferUnderway(transfers, shipment)
  {
    if |transfers| == 0 then None
    else
      var rest := OpenTransfer(transfers[..|transfers| - 1], shipment);
      var last := transfers[|transfers| - 1];
      if rest.Some? then rest
      else if last.shipment == shipment && last.status in {Waiting, Moving} then Some(|transfers| - 1)
      else assert transfers == transfers[..|transfers| - 1] + [last]; None
  }

  /** The active assignment of a shipment for one kind of task. */
  function CurrentAssignment(assignments: seq<Assignment>, shipment: Id, kind: Capability): (r: Option<nat>)
    ensures r.Some? ==>
              && r.value < |assignments| && assignments[r.value].shipment == shipment
              && assignments[r.value].kind == kind && ActiveAssignment(assignments[r.value].status)
    ensures r == None ==>
              forall i :: 0 <= i < |assignments| ==>
                !(assignments[i].shipment == shipment && assignments[i].kind == kind && ActiveAssignment(assignments[i].status))
  {
    if |assignments| == 0 then None
    else
      var rest := CurrentAssignment(assignments[..|assignments| - 1], shipment, kind);
      var last := assignments[|assignments| - 1];
      if rest.Some? then rest
      else if last.shipment == shipment && last.kind == kind && ActiveAssignment(last.status) then Some(|assignments| - 1)
      else None
  }

  /** The newest completed pickup of a shipment. */
  function FinishedPickup(assignments: seq<Assignment>, shipment: Id): (r: Option<nat>)
    ensures r.Some? ==>
              && r.value < |assignments| && assignments[r.value].shipment == shipment
              && assignments[r.value].kind == Pickup && assignments[r.value].status == Finished
    ensures r == None ==>
              forall i :: 0 <= i < |assignments| ==>
                !(assignments[i].shipment == shipment && assignments[i].kind == Pickup && assignments[i].status == Finished)
  {
    if |assignments| == 0 then None
    else
      var last := assignments[|assignments| - 1];
      if last.shipment == shipment && last.kind == Pickup && last.status == Finished then Some(|assignments| - 1)
      else FinishedPickup(assignments[..|assignments| - 1], shipment)
  }

  /** The newest delivery attempt made under an assignment. */
  function AttemptOf(attempts: seq<Attempt>, assignment: Id): (r: Option<nat>)
    ensures r.Some? ==> r.value < |attempts| && attempts[r.value].assignment == assignment
    ensures r == None ==> forall i :: 0 <= i < |attempts| ==> attempts[i].assignment != assignment
  {
    if |attempts| == 0 then None
    else if attempts[|attempts| - 1].assignment == assignment then Some(|attempts| - 1)
    else AttemptOf(attempts[..|attempts| - 1], assignment)
  }

  /** The newest delivery attempt of a shipment. */
  function LatestAttempt(attempts: seq<Attempt>, shipment: Id): (r: Option<nat>)
    ensures r.Some? ==>
              && r.value < |attempts| && attempts[r.value].shipment == shipment
              && forall i :: r.value < i < |attempts| ==> attempts[i].shipment != shipment
    ensures r == None ==> forall i :: 0 <= i < |attempts| ==> attempts[i].shipment != shipment
  {
    if |attempts| == 0 then None
    else if attempts[|attempts| - 1].shipment == shipment then Some(|attempts| - 1)
    else LatestAttempt(attempts[..|attempts| - 1], shipment)
  }

  function CountAttempts(attempts: seq<Attempt>, shipment: Id): nat {
    if |attempts| == 0 then 0
    else CountAttempts(attempts[..|attempts| - 1], shipment) + if attempts[|attempts| - 1].shipment == shipment then 1 else 0
  }

  function CountRoutes(routes: seq<Route>, trip: Id): nat {
    if |routes| == 0 then 0
    else CountRoutes(routes[..|routes| - 1], trip) + if routes[|routes| - 1].trip == trip then 1 else 0
  }
}

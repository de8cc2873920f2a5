/** The planner reads the same database the trip commands write: everything it
    recommends, `CreateTrip` accepts in that same state. */
module PlannerAgreement {
  import opened Rows
  import opened Ledgers
  import opened Policies
  import opened Tables
  import opened TripCommands
  import opened Ordering
  import opened Planner
  import opened PlannerLaws

  const MAX_DRIVERS := 50
  const MAX_VEHICLES := 50
  const MAX_TRANSFERS := 100
  const HORIZON_MS := 604_800_000

  /** Columns only the planner reads: collation positions and creation times. */
  datatype Directory = Directory(driverCode: Id -> int, vehicleCode: Id -> int, createdAt: Id -> int)

  /** `route` is what the metric service answers, asked only when there is
      something to plan. */
  datatype Request = Request(origin: Id, destination: Id, earliest: int, latest: int, limit: nat, route: Option<Metric>)

  predicate EligibleDriver(db: Db, d: Id) {
    && d < |db.drivers| && db.drivers[d].status != Suspended && LineHaul in db.drivers[d].capabilities && db.drivers[d].userActive
    && !DriverAssigned(db.assignments, d) && !DriverExecuting(db.trips, d)
  }

  predicate EligibleVehicle(db: Db, v: Id) {
    v < |db.vehicles| && db.vehicles[v].status == Available && ValidCapacity(db.vehicles[v].capacity)
  }

  predicate EligibleTransfer(db: Db, r: Request, t: Id)
    requires References(db)
  {
    t < |db.transfers| &&
    var row := db.transfers[t];
    var s := db.shipments[row.shipment];
    && row.from == r.origin && row.to == r.destination && row.status == Waiting && ActiveLink(db.links, t) == None
    && s.status == AtOrigin && s.current == Some(r.origin) && s.destination == Some(r.destination)
  }

  function EligibleDrivers(db: Db, dir: Directory, n: nat): (r: seq<PlanDriver>)
    requires n <= |db.drivers|
    ensures forall i :: 0 <= i < |r| ==> EligibleDriver(db, r[i].id)
  {
    if n == 0 then []
    else EligibleDrivers(db, dir, n - 1) + if EligibleDriver(db, n - 1) then [PlanDriver(n - 1, dir.driverCode(n - 1), db.drivers[n - 1].home)] else []
  }

  function EligibleVehicles(db: Db, dir: Directory, n: nat): (r: seq<PlanVehicle>)
    requires n <= |db.vehicles|
    ensures forall i :: 0 <= i < |r| ==> EligibleVehicle(db, r[i].id) && r[i].capacity == db.vehicles[r[i].id].capacity
  {
    if n == 0 then []
    else EligibleVehicles(db, dir, n - 1) + if EligibleVehicle(db, n - 1) then [PlanVehicle(n - 1, dir.vehicleCode(n - 1), db.vehicles[n - 1].capacity)] else []
  }

  function EligibleTransfers(db: Db, r: Request, dir: Directory, n: nat): (ts: seq<PlanTransfer>)
    requires References(db) && n <= |db.transfers|
    ensures forall i :: 0 <= i < |ts| ==> ts[i].id < n && EligibleTransfer(db, r, ts[i].id) && ts[i].grams == Loads(db.transfers, db.shipments)[ts[i].id]
    ensures forall i, j :: 0 <= i < j < |ts| ==> ts[i].id != ts[j].id
  {
    if n == 0 then []
    else
      EligibleTransfers(db, r, dir, n - 1) +
      if EligibleTransfer(db, r, n - 1)
      then [PlanTransfer(n - 1, LoadGrams(db.shipments[db.transfers[n - 1].shipment]), dir.createdAt(n - 1))] else []
  }

  predicate Relevant(t: Trip, r: Request, drivers: seq<PlanDriver>, vehicles: seq<PlanVehicle>) {
    && ActiveTrip(t.status)
    && (match t.schedule
        case Some(s) => s.start < r.latest && s.end > r.earliest
        case None => ExecutingTrip(t.status))
    && ((exists i :: 0 <= i < |drivers| && drivers[i].id == t.driver) || (exists i :: 0 <= i < |vehicles| && vehicles[i].id == t.vehicle))
  }

  function Conflicts(trips: seq<Trip>, r: Request, drivers: seq<PlanDriver>, vehicles: seq<PlanVehicle>): (cs: seq<Conflict>)
    ensures forall t :: 0 <= t < |trips| && Relevant(trips[t], r, drivers, vehicles) ==> Conflict(trips[t].driver, trips[t].vehicle, trips[t].schedule) in cs
  {
    if |trips| == 0 then []
    else
      var last := trips[|trips| - 1];
      assert forall t :: 0 <= t < |trips| - 1 ==> trips[..|trips| - 1][t] == trips[t];
      Conflicts(trips[..|trips| - 1], r, drivers, vehicles) +
      if Relevant(last, r, drivers, vehicles) then [Conflict(last.driver, last.vehicle, last.schedule)] else []
  }

  /** The rows the planner reads for a request: filtered, ordered, bounded. */
  function Snapshot(db: Db, r: Request, dir: Directory): Plan
    requires References(db)
  {
    var drivers := Trim(MAX_DRIVERS, SortBy(DriverKey, EligibleDrivers(db, dir, |db.drivers|)));
    var vehicles := Trim(MAX_VEHICLES, SortBy(VehicleKey, EligibleVehicles(db, dir, |db.vehicles|)));
    var transfers := Trim(MAX_TRANSFERS, SortBy(AgeKey, EligibleTransfers(db, r, dir, |db.transfers|)));
    var route := if drivers != [] && vehicles != [] && transfers != [] then r.route else None;
    var conflicts := if drivers == [] || vehicles == [] then [] else Conflicts(db.trips, r, drivers, vehicles);
    Plan(r.origin, r.earliest, r.latest, drivers, vehicles, transfers, conflicts, route, r.limit)
  }

  lemma SnapshotMembers(db: Db, r: Request, dir: Directory)
    requires References(db)
    ensures var p := Snapshot(db, r, dir);
            && (forall d :: d in p.drivers ==> EligibleDriver(db, d.id))
            && (forall v :: v in p.vehicles ==> EligibleVehicle(db, v.id) && v.capacity == db.vehicles[v.id].capacity)
            && (forall t :: t in p.transfers ==> EligibleTransfer(db, r, t.id) && t.grams == Loads(db.transfers, db.shipments)[t.id])
  {
    hide EligibleDrivers, EligibleVehicles, EligibleTransfers, EligibleDriver, EligibleVehicle, EligibleTransfer,
         SortBy, References, Conflicts;
    TrimmedMembers(DriverKey, MAX_DRIVERS, EligibleDrivers(db, dir, |db.drivers|));
    TrimmedMembers(VehicleKey, MAX_VEHICLES, EligibleVehicles(db, dir, |db.vehicles|));
    TrimmedMembers(AgeKey, MAX_TRANSFERS, EligibleTransfers(db, r, dir, |db.transfers|));
  }

  lemma TrimmedMembers<T>(key: T -> seq<int>, k: nat, xs: seq<T>)
    ensures forall x :: x in Trim(k, SortBy(key, xs)) ==> x in xs
  {
    var ys := SortBy(key, xs);
    MultisetMembers(ys, xs);
    forall x | x in Trim(k, ys) ensures x in xs {
      assert x in ys;
    }
  }

  lemma SnapshotSound(db: Db, r: Request, dir: Directory)
    requires References(db)
    ensures Sound(Snapshot(db, r, dir))
  {
    var p := Snapshot(db, r, dir);
    SnapshotMembers(db, r, dir);
    forall i | 0 <= i < |p.vehicles| ensures p.vehicles[i].capacity > 0 {
      assert p.vehicles[i] in p.vehicles;
    }
  }

  function Recommendations(db: Db, r: Request, dir: Directory): Result<seq<Recommendation>>
    requires References(db)
  {
    if r.origin == r.destination then Err(SameWarehouse)
    else if r.earliest >= r.latest then Err(ScheduleRangeInvalid)
    else if r.latest - r.earliest > HORIZON_MS then Err(InvalidInput)
    else if !WarehouseOpen(db.warehouses, r.origin) || !WarehouseOpen(db.warehouses, r.destination) then Err(WarehouseInactive)
    else
      var p := Snapshot(db, r, dir);
      if p.earliest + Duration(p) > p.latest then Err(InvalidInput)
      else if exists i :: 0 <= i < |p.transfers| && !SafeWeight(p.transfers[i].grams) then Err(ShipmentWeightInvalid)
      else SnapshotSound(db, r, dir); Ok(PlannerLaws.Result(p))
  }

  function Ids(ts: seq<PlanTransfer>): (r: seq<Id>)
    ensures |r| == |ts| && forall i :: 0 <= i < |r| ==> r[i] == ts[i].id
  {
    seq(|ts|, i requires 0 <= i < |ts| => ts[i].id)
  }

  /** What the client sends back when it follows a recommendation. */
  function Followed(r: Request, c: Recommendation, key: Id): NewTrip {
    NewTrip(key, r.origin, r.destination, c.driver.id, c.vehicle.id, Some(c.window), Ids(c.transfers))
  }

  // ----- what a recommendation promises -----

  lemma {:induction false} BestIsSubset<T>(key: T -> seq<int>, k: nat, xs: seq<T>, x: T)
    ensures x in Best(key, k, xs) ==> x in xs
  {
    if |xs| > 0 {
      var n := |xs| - 1;
      BestIsSubset(key, k, xs[..n], x);
      PlaceMembers(key, Best(key, k, xs[..n]), xs[n]);
      assert xs == xs[..n] + [xs[n]];
    }
  }

  predicate DistinctTransfers(ts: seq<PlanTransfer>) {
    forall i, j :: 0 <= i < j < |ts| ==> ts[i].id != ts[j].id
  }

  lemma SortedTransferIds(ts: seq<PlanTransfer>)
    requires DistinctTransfers(ts)
    ensures DistinctTransfers(SortBy(AgeKey, ts))
  {
    var ys := SortBy(AgeKey, ts);
    forall i, j | 0 <= i < j < |ts| ensures AgeKey(ts[i]) != AgeKey(ts[j]) {
      assert AgeKey(ts[i])[1] != AgeKey(ts[j])[1];
    }
    SortedUnique(AgeKey, ts);
    MultisetMembers(ys, ts);
    forall i, j | 0 <= i < j < |ys| ensures ys[i].id != ys[j].id {
      assert ys[i] in ys && ys[j] in ys && ys[i] != ys[j];
    }
  }

  lemma {:induction false} PackedIds(ts: seq<PlanTransfer>, capacity: int)
    requires DistinctTransfers(ts)
    ensures DistinctTransfers(Pack(ts, capacity))
  {
    if |ts| > 0 {
      var n := |ts| - 1;
      PackedIds(ts[..n], capacity);
      var rest := Pack(ts[..n], capacity);
      forall i | 0 <= i < |rest| ensures rest[i].id != ts[n].id {
        assert rest[i] in rest;
        var k :| 0 <= k < n && ts[..n][k] == rest[i];
      }
    }
  }

  /** A conflicting trip of a listed driver or vehicle is among the conflicts. */
  lemma ConflictIsListed(db: Db, r: Request, p: Plan, w: Window, t: Id, d: PlanDriver, v: PlanVehicle)
    requires p.conflicts == Conflicts(db.trips, r, p.drivers, p.vehicles) && d in p.drivers && v in p.vehicles
    requires r.earliest <= w.start && w.end <= r.latest && t < |db.trips| && ConflictsWith(db.trips[t], w)
    ensures db.trips[t].driver == d.id ==> DriverBusy(p.conflicts, d.id, w)
    ensures db.trips[t].vehicle == v.id ==> VehicleBusy(p.conflicts, v.id, w)
  {
    var row := Conflict(db.trips[t].driver, db.trips[t].vehicle, db.trips[t].schedule);
    var k :| 0 <= k < |p.drivers| && p.drivers[k] == d;
    var m :| 0 <= m < |p.vehicles| && p.vehicles[m] == v;
    assert Overlaps(row, w);
    if db.trips[t].driver == d.id || db.trips[t].vehicle == v.id {
      assert Relevant(db.trips[t], r, p.drivers, p.vehicles);
      assert row in p.conflicts;
      var i :| 0 <= i < |p.conflicts| && p.conflicts[i] == row;
    }
  }

  /** No active trip of the chosen driver or vehicle overlaps the window. */
  lemma NotBooked(db: Db, r: Request, dir: Directory, c: Recommendation, n: nat)
    requires References(db) && FeasibleAt(Snapshot(db, r, dir), c, n)
    requires var p := Snapshot(db, r, dir); c.driver in p.drivers && c.vehicle in p.vehicles
    ensures BookingError(db.trips, c.driver.id, c.vehicle.id, c.window, None) == None
  {
    hide Select, Points, EligibleDrivers, EligibleVehicles, EligibleTransfers, SortBy, References, DriverBusy, VehicleBusy;
    var p := Snapshot(db, r, dir);
    assert c.window == DepartureNo(p, n).window;
    forall t: Id | t < |db.trips| && ConflictsWith(db.trips[t], c.window)
      ensures db.trips[t].driver != c.driver.id && db.trips[t].vehicle != c.vehicle.id
    {
      ConflictIsListed(db, r, p, c.window, t, c.driver, c.vehicle);
    }
  }

  lemma {:induction false} SameGrams(loads: seq<int>, ts: seq<PlanTransfer>)
    requires forall i :: 0 <= i < |ts| ==> ts[i].id < |loads| && ts[i].grams == loads[ts[i].id]
    ensures Within(Ids(ts), |loads|) && Grams(loads, Ids(ts)) == Weight(ts)
  {
    if |ts| > 0 {
      var n := |ts| - 1;
      SameGrams(loads, ts[..n]);
      assert Ids(ts)[..n] == Ids(ts[..n]);
    }
  }

  lemma CandidatesPass(db: Db, r: Request, c: Recommendation, key: Id)
    requires References(db) && Within(Ids(c.transfers), |db.transfers|)
    requires forall i :: 0 <= i < |c.transfers| ==>
               EligibleTransfer(db, r, c.transfers[i].id) && SafeWeight(LoadGrams(db.shipments[db.transfers[c.transfers[i].id].shipment]))
    ensures CandidateTransfersError(db, Followed(r, c, key), Ids(c.transfers)) == None
  {
    forall i | 0 <= i < |Ids(c.transfers)| ensures CandidateTransferError(db, Followed(r, c, key), Ids(c.transfers)[i]) == None {
      assert EligibleTransfer(db, r, c.transfers[i].id);
    }
  }

  lemma LoadIds(db: Db, r: Request, dir: Directory, capacity: int)
    requires References(db) && capacity > 0
    ensures DistinctTransfers(Select(Snapshot(db, r, dir).transfers, capacity))
  {
    hide EligibleTransfers, EligibleDrivers, EligibleVehicles, Conflicts, SortBy, Pack;
    var ts := EligibleTransfers(db, r, dir, |db.transfers|);
    SortedTransferIds(ts);
    var p := Snapshot(db, r, dir);
    SortedTransferIds(p.transfers);
    PackedIds(SortBy(AgeKey, p.transfers), capacity);
  }

  /** Everything `CreateTrip` asks of the load holds of a recommended load. */
  lemma LoadPasses(db: Db, r: Request, dir: Directory, c: Recommendation, key: Id)
    requires References(db) && c.vehicle.capacity > 0 && c.transfers == Select(Snapshot(db, r, dir).transfers, c.vehicle.capacity)
    requires forall t :: t in Snapshot(db, r, dir).transfers ==> SafeWeight(t.grams)
    ensures var ids := Ids(c.transfers);
            && Distinct(ids) && Within(ids, |db.transfers|)
            && CandidateTransfersError(db, Followed(r, c, key), ids) == None
            && Grams(Loads(db.transfers, db.shipments), ids) <= c.vehicle.capacity
  {
    hide EligibleTransfer, CandidateTransfersError, DispatchableError, Snapshot, Grams, References, Select;
    var p := Snapshot(db, r, dir);
    SnapshotMembers(db, r, dir);
    LoadIds(db, r, dir, c.vehicle.capacity);
    SelectedIn(p, c.vehicle.capacity);
    forall i | 0 <= i < |c.transfers|
      ensures c.transfers[i] in p.transfers && EligibleTransfer(db, r, c.transfers[i].id) && SafeWeight(c.transfers[i].grams)
    {
      assert c.transfers[i] in c.transfers;
    }
    InTable(db, r, c.transfers);
    SameGrams(Loads(db.transfers, db.shipments), c.transfers);
    LoadsAt(db, c.transfers);
    CandidatesPass(db, r, c, key);
  }

  lemma LoadsAt(db: Db, ts: seq<PlanTransfer>)
    requires References(db) && forall i :: 0 <= i < |ts| ==> ts[i].id < |db.transfers|
    ensures forall i :: 0 <= i < |ts| ==> LoadGrams(db.shipments[db.transfers[ts[i].id].shipment]) == Loads(db.transfers, db.shipments)[ts[i].id]
  {
  }

  lemma InTable(db: Db, r: Request, ts: seq<PlanTransfer>)
    requires References(db) && forall i :: 0 <= i < |ts| ==> EligibleTransfer(db, r, ts[i].id)
    ensures forall i :: 0 <= i < |ts| ==> ts[i].id < |db.transfers|
  {
  }

  lemma SelectedIn(p: Plan, capacity: int)
    requires capacity > 0
    ensures forall t :: t in Select(p.transfers, capacity) ==> t in p.transfers
    ensures Weight(Select(p.transfers, capacity)) <= capacity
  {
    MultisetMembers(SortBy(AgeKey, p.transfers), p.transfers);
  }

  lemma TripPasses(db: Db, r: Request, c: Recommendation, key: Id)
    requires References(db) && r.origin != r.destination && ValidWindow(c.window) && TripByKey(db.trips, key) == None
    requires WarehouseOpen(db.warehouses, r.origin) && WarehouseOpen(db.warehouses, r.destination)
    requires EligibleDriver(db, c.driver.id)
    requires EligibleVehicle(db, c.vehicle.id) && c.vehicle.capacity == db.vehicles[c.vehicle.id].capacity
    requires BookingError(db.trips, c.driver.id, c.vehicle.id, c.window, None) == None
    requires var ids := Ids(c.transfers);
             && Distinct(ids) && Within(ids, |db.transfers|) && CandidateTransfersError(db, Followed(r, c, key), ids) == None
             && Grams(Loads(db.transfers, db.shipments), ids) <= c.vehicle.capacity
    ensures CreateTrip(db, Followed(r, c, key)).1 == Done
  {
    hide References, BookingError, CandidateTransfersError, Grams, Distinct, Loads, DriverAssigned, SameTrip;
  }

  /** Every recommendation is accepted by `CreateTrip` in the state it was
      computed from: none of create's guards can refuse it. */
  lemma RecommendationsAreAccepted(db: Db, r: Request, dir: Directory, c: Recommendation, key: Id)
    requires References(db) && Recommendations(db, r, dir).Ok? && c in Recommendations(db, r, dir).value
    requires TripByKey(db.trips, key) == None
    ensures CreateTrip(db, Followed(r, c, key)).1 == Done
  {
    hide References, Feasible, FeasibleAt, Candidates, Best, Snapshot, BookingError, CandidateTransfersError,
         Grams, Distinct, Within, Loads,
      CreateTrip, EligibleDriver, EligibleVehicle, EligibleTransfer, WarehouseOpen, ValidWindow;
    var p := Snapshot(db, r, dir);
    SnapshotSound(db, r, dir);
    BestIsSubset(RankKey, p.limit, Candidates(p), c);
    CandidatesAreFeasible(p, c);
    var n := FeasibleSlot(p, c);
    SnapshotMembers(db, r, dir);
    AllSafe(p);
    NotBooked(db, r, dir, c, n);
    LoadPasses(db, r, dir, c, key);
    TripPasses(db, r, c, key);
  }

  lemma FeasibleSlot(p: Plan, c: Recommendation) returns (n: nat)
    requires Feasible(p, c)
    ensures FeasibleAt(p, c, n) && c.driver in p.drivers && c.vehicle in p.vehicles && ValidWindow(c.window)
    ensures c.vehicle.capacity > 0 && c.transfers == Select(p.transfers, c.vehicle.capacity)
  {
    n :| FeasibleAt(p, c, n);
  }

  lemma AllSafe(p: Plan)
    ensures !(exists i :: 0 <= i < |p.transfers| && !SafeWeight(p.transfers[i].grams)) ==> forall t :: t in p.transfers ==> SafeWeight(t.grams)
  {
  }
}

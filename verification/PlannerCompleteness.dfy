/** The planner misses nothing: what `CreateTrip` would accept on its departure
    grid, it offers, except to drivers who are on the road already. */
module PlannerCompleteness {
  import opened Rows
  import opened Policies
  import opened Tables
  import opened Invariants
  import opened TripCommands
  import opened Ordering
  import opened Planner
  import opened PlannerLaws
  import opened PlannerAgreement
  import opened PlannerOrder
  import opened Facts
  import opened KeepTransfers
  import R = Reachability

  lemma {:induction false} DriverIsRead(db: Db, dir: Directory, n: nat, d: Id)
    requires n <= |db.drivers| && d < n && EligibleDriver(db, d)
    ensures PlanDriver(d, dir.driverCode(d), db.drivers[d].home) in EligibleDrivers(db, dir, n)
  {
    hide EligibleDriver;
    if d < n - 1 { DriverIsRead(db, dir, n - 1, d); }
  }

  lemma {:induction false} VehicleIsRead(db: Db, dir: Directory, n: nat, v: Id)
    requires n <= |db.vehicles| && v < n && EligibleVehicle(db, v)
    ensures PlanVehicle(v, dir.vehicleCode(v), db.vehicles[v].capacity) in EligibleVehicles(db, dir, n)
  {
    hide EligibleVehicle;
    if v < n - 1 { VehicleIsRead(db, dir, n - 1, v); }
  }

  lemma {:induction false} TransferIsRead(db: Db, r: Request, dir: Directory, n: nat, x: Id)
    requires References(db) && n <= |db.transfers| && x < n && EligibleTransfer(db, r, x)
    ensures PlanTransfer(x, Weighs(db, x), dir.createdAt(x)) in EligibleTransfers(db, r, dir, n)
  {
    hide EligibleTransfer;
    if x < n - 1 { TransferIsRead(db, r, dir, n - 1, x); }
  }

  /** Every row that qualifies fits in what the planner reads. */
  predicate ReadsAll(db: Db, r: Request, dir: Directory)
    requires References(db)
  {
    && |EligibleDrivers(db, dir, |db.drivers|)| <= MAX_DRIVERS
    && |EligibleVehicles(db, dir, |db.vehicles|)| <= MAX_VEHICLES
    && |EligibleTransfers(db, r, dir, |db.transfers|)| <= MAX_TRANSFERS
  }

  lemma UntrimmedMembers<T>(key: T -> seq<int>, k: nat, xs: seq<T>)
    requires |xs| <= k
    ensures forall x :: x in xs ==> x in Trim(k, SortBy(key, xs))
  {
    MultisetMembers(SortBy(key, xs), xs);
  }

  lemma AllRead(db: Db, r: Request, dir: Directory)
    requires References(db) && ReadsAll(db, r, dir)
    ensures var p := Snapshot(db, r, dir);
            && (forall d: Id :: EligibleDriver(db, d) ==> PlanDriver(d, dir.driverCode(d), db.drivers[d].home) in p.drivers)
            && (forall v: Id :: EligibleVehicle(db, v) ==> PlanVehicle(v, dir.vehicleCode(v), db.vehicles[v].capacity) in p.vehicles)
            && (forall x: Id :: EligibleTransfer(db, r, x) ==> PlanTransfer(x, Weighs(db, x), dir.createdAt(x)) in p.transfers)
  {
    hide EligibleDrivers, EligibleVehicles, EligibleTransfers, SortBy, Trim, Conflicts;
    UntrimmedMembers(DriverKey, MAX_DRIVERS, EligibleDrivers(db, dir, |db.drivers|));
    UntrimmedMembers(VehicleKey, MAX_VEHICLES, EligibleVehicles(db, dir, |db.vehicles|));
    UntrimmedMembers(AgeKey, MAX_TRANSFERS, EligibleTransfers(db, r, dir, |db.transfers|));
    forall d: Id | EligibleDriver(db, d) ensures PlanDriver(d, dir.driverCode(d), db.drivers[d].home) in Snapshot(db, r, dir).drivers {
      DriverIsRead(db, dir, |db.drivers|, d);
    }
    forall v: Id | EligibleVehicle(db, v) ensures PlanVehicle(v, dir.vehicleCode(v), db.vehicles[v].capacity) in Snapshot(db, r, dir).vehicles {
      VehicleIsRead(db, dir, |db.vehicles|, v);
    }
    forall x: Id | EligibleTransfer(db, r, x) ensures PlanTransfer(x, Weighs(db, x), dir.createdAt(x)) in Snapshot(db, r, dir).transfers {
      TransferIsRead(db, r, dir, |db.transfers|, x);
    }
  }

  /** A conflict row is some trip's. */
  lemma {:induction false} ConflictIsATrip(trips: seq<Trip>, r: Request, drivers: seq<PlanDriver>, vehicles: seq<PlanVehicle>, x: Conflict)
    requires x in Conflicts(trips, r, drivers, vehicles)
    ensures exists t: Id :: t < |trips| && Relevant(trips[t], r, drivers, vehicles) && x == Conflict(trips[t].driver, trips[t].vehicle, trips[t].schedule)
  {
    hide Relevant;
    var n := |trips| - 1;
    if x in Conflicts(trips[..n], r, drivers, vehicles) {
      ConflictIsATrip(trips[..n], r, drivers, vehicles, x);
      var t: Id :| t < n && Relevant(trips[..n][t], r, drivers, vehicles) && x == Conflict(trips[..n][t].driver, trips[..n][t].vehicle, trips[..n][t].schedule);
      assert trips[..n][t] == trips[t];
    } else {
      assert Relevant(trips[n], r, drivers, vehicles);
    }
  }

  lemma BookedIsConflict(db: Db, r: Request, dir: Directory, driver: Id, vehicle: Id, w: Window)
    requires References(db) && BookingError(db.trips, driver, vehicle, w, None) == None
    ensures var p := Snapshot(db, r, dir); !DriverBusy(p.conflicts, driver, w) && !VehicleBusy(p.conflicts, vehicle, w)
  {
    hide EligibleDrivers, EligibleVehicles, EligibleTransfers, SortBy, Trim, References, Conflicts;
    var p := Snapshot(db, r, dir);
    forall i | 0 <= i < |p.conflicts| && Overlaps(p.conflicts[i], w)
      ensures p.conflicts[i].driver != driver && p.conflicts[i].vehicle != vehicle
    {
      ConflictIsATrip(db.trips, r, p.drivers, p.vehicles, p.conflicts[i]);
      var t: Id :| t < |db.trips| && Relevant(db.trips[t], r, p.drivers, p.vehicles)
                   && p.conflicts[i] == Conflict(db.trips[t].driver, db.trips[t].vehicle, db.trips[t].schedule);
      assert ConflictsWith(db.trips[t], w);
    }
  }

  /** What create has checked when it accepts. */
  lemma Accepted(db: Db, c: NewTrip)
    requires References(db) && CreateTrip(db, c).1 == Done && c.window.Some?
    ensures Within(c.transfers, |db.transfers|) && CandidateTransfersError(db, c, c.transfers) == None
    ensures EligibleVehicle(db, c.vehicle) && Grams(Loads(db.transfers, db.shipments), c.transfers) <= db.vehicles[c.vehicle].capacity
    ensures c.driver < |db.drivers|
    ensures !DriverExecuting(db.trips, c.driver) ==> EligibleDriver(db, c.driver)
    ensures BookingError(db.trips, c.driver, c.vehicle, c.window.value, None) == None
  {
    hide References, CandidateTransfersError, Grams, Distinct, Loads, BookingError, SameTrip;
  }

  lemma {:induction false} PartOfSum(loads: seq<int>, ids: seq<Id>)
    requires Within(ids, |loads|) && forall i :: 0 <= i < |ids| ==> loads[ids[i]] > 0
    ensures ids != [] ==> Grams(loads, ids) >= loads[ids[0]]
    ensures Grams(loads, ids) >= 0
  {
    if |ids| > 1 {
      PartOfSum(loads, ids[..|ids| - 1]);
    } else if |ids| == 1 {
      assert Grams(loads, ids[..0]) == 0;
    }
  }

  /** An accepted manifest has a transfer that would fit the vehicle alone. */
  lemma SomethingFits(db: Db, r: Request, c: NewTrip, capacity: int)
    requires References(db) && TransfersOk(db.transfers, db.shipments) && c.transfers != [] && Within(c.transfers, |db.transfers|)
    requires CandidateTransfersError(db, c, c.transfers) == None && c.origin == r.origin && c.destination == r.destination
    requires Grams(Loads(db.transfers, db.shipments), c.transfers) <= capacity
    ensures c.transfers[0] < |db.transfers| && db.transfers[c.transfers[0]].shipment < |db.shipments|
    ensures EligibleTransfer(db, r, c.transfers[0]) && 0 < Weighs(db, c.transfers[0]) <= capacity
  {
    hide TransfersOk, References;
    var loads := Loads(db.transfers, db.shipments);
    forall i | 0 <= i < |c.transfers| ensures loads[c.transfers[i]] > 0 {
      assert CandidateTransferError(db, c, c.transfers[i]) == None;
      LoadOf(db, c.transfers[i]);
    }
    PartOfSum(loads, c.transfers);
    LoadOf(db, c.transfers[0]);
    WaitingIsAtOrigin(db.transfers, db.shipments, c.transfers[0]);
    assert CandidateTransferError(db, c, c.transfers[0]) == None;
  }

  lemma LoadOf(db: Db, x: Id)
    requires References(db) && x < |db.transfers|
    ensures db.transfers[x].shipment < |db.shipments| && Loads(db.transfers, db.shipments)[x] == Weighs(db, x)
  {
    WeighsIsLoad(db, x);
  }

  lemma LoadNotEmpty(ts: seq<PlanTransfer>, capacity: int, t: PlanTransfer)
    requires Positive(ts) && t in ts && t.grams <= capacity
    ensures Select(ts, capacity) != []
  {
    forall i | 0 <= i < |ts| ensures ts[i].grams > 0 {}
    assert t.grams > 0;
    SelectIsMaximal(ts, capacity, t);
    assert Select(ts, capacity) == [] ==> Weight(Select(ts, capacity)) == 0;
  }

  /** A free driver and vehicle, a departure that fits and something to load
      make a proposal. */
  lemma ProposalFor(p: Plan, driver: PlanDriver, vehicle: PlanVehicle, slot: nat) returns (o: Recommendation)
    requires Sound(p) && driver in p.drivers && vehicle in p.vehicles && vehicle.capacity > 0 && DepartureNo(p, slot).window.end <= p.latest
    requires !DriverBusy(p.conflicts, driver.id, DepartureNo(p, slot).window) && !VehicleBusy(p.conflicts, vehicle.id, DepartureNo(p, slot).window)
    requires Select(p.transfers, vehicle.capacity) != []
    ensures Proposed(p, o, slot) && o.driver == driver && o.vehicle == vehicle && o.window == DepartureNo(p, slot).window
  {
    hide DriverBusy, VehicleBusy, Select, Duration, Weight, Permille, Points, Sound;
    o := Candidate(p, vehicle, DepartureNo(p, slot), driver);
    FreeOfConflicts(p, o);
  }

  lemma ProposedDriver(db: Db, r: Request, dir: Directory, o: Recommendation, slot: nat)
    requires References(db) && Proposed(Snapshot(db, r, dir), o, slot)
    ensures !DriverExecuting(db.trips, o.driver.id)
  {
    SnapshotMembers(db, r, dir);
    hide References, Snapshot, Points, Permille, Select;
    assert EligibleDriver(db, o.driver.id);
  }

  lemma GramsArePositive(db: Db, r: Request, dir: Directory)
    requires References(db) && Recommendations(db, r, dir).Ok?
    ensures Positive(Snapshot(db, r, dir).transfers)
  {
    hide References, Snapshot, WarehouseOpen, Duration, PlannerLaws.Result;
  }

  /** When the rows read are all there are, the planner proposes every driver,
      vehicle and departure on its grid for which create would accept some
      manifest, except to a driver who is on a READY or IN_TRANSIT trip, even
      one that ends before the departure. */
  lemma ProposesWhatCreateAccepts(db: Db, r: Request, dir: Directory, c: NewTrip, slot: nat)
    requires R.Reachable(db) && References(db) && Recommendations(db, r, dir).Ok? && ReadsAll(db, r, dir)
    requires c.origin == r.origin && c.destination == r.destination && c.transfers != []
    requires var p := Snapshot(db, r, dir); c.window == Some(DepartureNo(p, slot).window) && c.window.value.end <= r.latest
    requires CreateTrip(db, c).1 == Done
    ensures !OnTheRoad(db, c.driver) <==>
            exists o :: Proposed(Snapshot(db, r, dir), o, slot) && o.driver.id == c.driver && o.vehicle.id == c.vehicle && o.window == c.window.value
  {
    hide R.Reachable, References, CreateTrip, EligibleTransfer, EligibleDriver, Proposed, Select, BookingError, Conflicts, Duration,
         CandidateTransfersError, Grams, Within, Loads, ReadsAll, Recommendations, SortBy, Trim, EligibleDrivers, EligibleVehicles,
         EligibleTransfers, DriverBusy, VehicleBusy, TripsOk, SchedulesDisjoint, LinksOk, CapacityOk,
         VehiclesOk, RoutesOk, TransfersOk, ShipmentsOk, DriversOk, TasksOk, AttemptsOk, LedgersOk;
    R.ReachableInv(db);
    var p := Snapshot(db, r, dir);
    Accepted(db, c);
    TasksAndTrips(db, c.driver, c.vehicle);
    if OnTheRoad(db, c.driver) {
      forall o | Proposed(p, o, slot) ensures o.driver.id != c.driver {
        ProposedDriver(db, r, dir, o, slot);
      }
    } else {
      AllRead(db, r, dir);
      var capacity := db.vehicles[c.vehicle].capacity;
      var x := c.transfers[0];
      SomethingFits(db, r, c, capacity);
      GramsArePositive(db, r, dir);
      LoadNotEmpty(p.transfers, capacity, PlanTransfer(x, Weighs(db, x), dir.createdAt(x)));
      BookedIsConflict(db, r, dir, c.driver, c.vehicle, c.window.value);
      SnapshotSound(db, r, dir);
      var o := ProposalFor(p, PlanDriver(c.driver, dir.driverCode(c.driver), db.drivers[c.driver].home),
                           PlanVehicle(c.vehicle, dir.vehicleCode(c.vehicle), capacity), slot);
    }
  }
}

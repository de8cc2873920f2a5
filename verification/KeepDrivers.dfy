/** Commands on drivers, their accounts and warehouses keep the joint invariant. */
module KeepDrivers {
  import opened Rows
  import opened Policies
  import opened Tables
  import opened DriverCommands
  import opened Invariants

  /** What a driver row may become while the driver has a task or a trip. */
  predicate Compatible(db: Db, id: Id, d: Driver) {
    && DriverOk(d) && d.home < |db.warehouses|
    && (DriverExecuting(db.trips, id) ==> DriverError(d) == None)
    && (forall a :: 0 <= a < |db.assignments| && db.assignments[a].driver == id && ActiveAssignment(db.assignments[a].status) ==>
          !d.available && d.status != Suspended && db.assignments[a].kind in d.capabilities)
  }

  lemma DriverRowKeepsDrivers(drivers: seq<Driver>, trips: seq<Trip>, assignments: seq<Assignment>, id: Id, d: Driver)
    requires DriversOk(drivers, trips, assignments) && id < |drivers| && DriverOk(d)
    requires DriverExecuting(trips, id) ==> DriverError(d) == None
    requires forall a :: 0 <= a < |assignments| && assignments[a].driver == id ==> Occupies(assignments[a], drivers[id := d])
    ensures DriversOk(drivers[id := d], trips, assignments)
  {
    forall a | 0 <= a < |assignments| ensures Occupies(assignments[a], drivers[id := d]) {
      assert Occupies(assignments[a], drivers);
    }
    forall t | 0 <= t < |trips| && ExecutingTrip(trips[t].status) && trips[t].driver < |drivers|
      ensures DriverError(drivers[id := d][trips[t].driver]) == None && !DriverAssigned(assignments, trips[t].driver)
    {
      assert DriverError(drivers[trips[t].driver]) == None && !DriverAssigned(assignments, trips[t].driver);
      if trips[t].driver == id { assert DriverExecuting(trips, id); }
    }
  }

  lemma DriverRowKeeps(db: Db, id: Id, d: Driver)
    requires Inv(db) && id < |db.drivers| && Compatible(db, id, d)
    ensures Inv(db.(drivers := db.drivers[id := d]))
  {
    hide TripsOk, SchedulesDisjoint, LinksOk, CapacityOk, VehiclesOk, RoutesOk, TransfersOk, ShipmentsOk,
         DriversOk, TasksOk, AttemptsOk, LedgersOk;
    DriverRowKeepsDrivers(db.drivers, db.trips, db.assignments, id, d);
  }

  lemma DriverIs(db: Db, id: Id)
    requires References(db) && DriversOk(db.drivers, db.trips, db.assignments) && id < |db.drivers|
    ensures Compatible(db, id, db.drivers[id])
  {
    forall a | 0 <= a < |db.assignments| && db.assignments[a].driver == id && ActiveAssignment(db.assignments[a].status)
      ensures !db.drivers[id].available && db.drivers[id].status != Suspended && db.assignments[a].kind in db.drivers[id].capabilities
    {
      assert Occupies(db.assignments[a], db.drivers);
    }
  }

  lemma UpdateDriverKeeps(db: Db, id: Id, home: Option<Id>, suspended: Option<bool>)
    requires Inv(db)
    ensures Inv(UpdateDriver(db, id, home, suspended).0)
  {
    hide TripsOk, SchedulesDisjoint, LinksOk, CapacityOk, VehiclesOk, RoutesOk, TransfersOk, ShipmentsOk,
         DriversOk, TasksOk, AttemptsOk, LedgersOk;
    if UpdateDriver(db, id, home, suspended).1 == Done {
      DriverIs(db, id);
      DriverRowKeeps(db, id, UpdateDriver(db, id, home, suspended).0.drivers[id]);
    }
  }

  lemma SetCapabilitiesKeeps(db: Db, id: Id, capabilities: set<Capability>)
    requires Inv(db)
    ensures Inv(SetCapabilities(db, id, capabilities).0)
  {
    hide TripsOk, SchedulesDisjoint, LinksOk, CapacityOk, VehiclesOk, RoutesOk, TransfersOk, ShipmentsOk,
         DriversOk, AttemptsOk, LedgersOk;
    if SetCapabilities(db, id, capabilities).1 == Done {
      var d := SetCapabilities(db, id, capabilities).0.drivers[id];
      DriverIs(db, id);
      forall a | 0 <= a < |db.assignments| && db.assignments[a].driver == id && ActiveAssignment(db.assignments[a].status)
        ensures db.assignments[a].kind in capabilities
      {
        assert TaskOk(db.assignments[a], db.shipments);
        assert db.assignments[a].kind in db.drivers[id].capabilities;
      }
      assert Compatible(db, id, d);
      DriverRowKeeps(db, id, d);
    }
  }

  lemma SetAvailabilityKeeps(db: Db, id: Id, online: bool)
    requires Inv(db)
    ensures Inv(SetAvailability(db, id, online).0)
  {
    hide TripsOk, SchedulesDisjoint, LinksOk, CapacityOk, VehiclesOk, RoutesOk, TransfersOk, ShipmentsOk,
         DriversOk, TasksOk, AttemptsOk, LedgersOk;
    if SetAvailability(db, id, online).1 == Done {
      DriverIs(db, id);
      DriverRowKeeps(db, id, SetAvailability(db, id, online).0.drivers[id]);
    }
  }

  lemma SetUserStatusKeeps(db: Db, id: Id, active: bool)
    requires Inv(db)
    ensures Inv(SetUserStatus(db, id, active).0)
  {
    hide TripsOk, SchedulesDisjoint, LinksOk, CapacityOk, VehiclesOk, RoutesOk, TransfersOk, ShipmentsOk,
         DriversOk, TasksOk, AttemptsOk, LedgersOk;
    if SetUserStatus(db, id, active).1 == Done {
      DriverIs(db, id);
      DriverRowKeeps(db, id, SetUserStatus(db, id, active).0.drivers[id]);
    }
  }

  lemma CreateDriverKeeps(db: Db, userActive: bool, home: Id)
    requires Inv(db)
    ensures Inv(CreateDriver(db, userActive, home).0)
  {
    hide TripsOk, SchedulesDisjoint, LinksOk, CapacityOk, VehiclesOk, RoutesOk, TransfersOk, ShipmentsOk,
         DriversOk, TasksOk, AttemptsOk, LedgersOk;
    if CreateDriver(db, userActive, home).1 == Done {
      NewDriverKeepsDrivers(db, CreateDriver(db, userActive, home).0.drivers[|db.drivers|]);
    }
  }

  lemma NewDriverKeepsDrivers(db: Db, d: Driver)
    requires References(db) && DriversOk(db.drivers, db.trips, db.assignments) && DriverOk(d)
    ensures DriversOk(db.drivers + [d], db.trips, db.assignments)
  {
    forall a | 0 <= a < |db.assignments| ensures Occupies(db.assignments[a], db.drivers + [d]) {
      assert Occupies(db.assignments[a], db.drivers);
    }
  }

  lemma WarehousesKeep(db: Db, id: Id, active: bool, place: Option<int>)
    requires Inv(db)
    ensures Inv(CreateWarehouse(db, place).0) && Inv(UpdateWarehouse(db, id, active, place).0)
  {
    hide TripsOk, SchedulesDisjoint, LinksOk, CapacityOk, VehiclesOk, RoutesOk, TransfersOk, ShipmentsOk,
         DriversOk, TasksOk, AttemptsOk, LedgersOk;
  }
}

/** When a command on a driver goes through in a reachable state, and what it
    then writes, told by the rows alone. */
module DriverAnswers {
  import opened Rows
  import opened Policies
  import opened Tables
  import opened Invariants
  import opened DriverCommands
  import opened Facts
  import R = Reachability

  /** What a driver on the road, or with a parcel task, always is. */
  lemma DriversAreFit(db: Db, d: Id)
    requires R.Reachable(db) && d < |db.drivers|
    ensures OnTheRoad(db, d) ==> db.drivers[d].userActive && db.drivers[d].status != Suspended && LineHaul in db.drivers[d].capabilities && !OnTask(db, d)
    ensures OnTask(db, d) ==> db.drivers[d].userActive && db.drivers[d].status != Suspended && !db.drivers[d].available
    ensures forall a: Id :: a < |db.assignments| && db.assignments[a].driver == d && db.assignments[a].status in {Offered, Accepted} ==>
              db.assignments[a].kind in db.drivers[d].capabilities * {Pickup, Delivery}
  {
    hide TripsOk, SchedulesDisjoint, LinksOk, CapacityOk, VehiclesOk, RoutesOk, TransfersOk, ShipmentsOk, AttemptsOk, LedgersOk, R.Reachable;
    R.ReachableInv(db);
    TasksAndTrips(db, d, 0);
    forall a | 0 <= a < |db.assignments| ensures Occupies(db.assignments[a], db.drivers) && TaskOk(db.assignments[a], db.shipments) {
    }
  }

  /** Suspension, and a new operating warehouse, need a driver without a task;
      suspension also one off the road. What is asked for is what is written. */
  lemma UpdateDriverExact(db: Db, id: Id, home: Option<Id>, suspended: Option<bool>)
    requires R.Reachable(db) && id < |db.drivers|
    ensures var d := db.drivers[id];
            var (db', r) := UpdateDriver(db, id, home, suspended);
            var moves := home.Some? && home.value != d.home;
            && (r == Done <==>
                  && (moves ==> !OnTask(db, id))
                  && (suspended == Some(true) ==> !OnTask(db, id) && !OnTheRoad(db, id))
                  && (suspended == Some(false) ==> d.userActive)
                  && (home.Some? ==> Open(db, home.value)))
            && (r != Unchanged) && (r != Done ==> db' == db)
            && (r == Done ==>
                  && |db'.drivers| == |db.drivers| && db' == db.(drivers := db.drivers[id := db'.drivers[id]])
                  && var d' := db'.drivers[id];
                     && d'.version == d.version + 1 && d'.userActive == d.userActive && d'.capabilities == d.capabilities
                     && d'.home == (if moves then home.value else d.home)
                     && (suspended == None ==> d'.status == d.status && d'.online == d.online && d'.available == d.available)
                     && (suspended == Some(true) ==> d'.status == Suspended && !d'.online && !d'.available)
                     && (suspended == Some(false) ==> d'.status == Offline && !d'.online && !d'.available))
  {
    hide R.Reachable, OnTask, OnTheRoad, DriverAssigned, DriverExecuting;
    TasksAndTrips(db, id, 0);
  }

  predicate TasksWithin(db: Db, d: Id, capabilities: set<Capability>) {
    forall a: Id :: a < |db.assignments| && db.assignments[a].driver == d && db.assignments[a].status in {Offered, Accepted} ==>
      db.assignments[a].kind in capabilities
  }

  /** Capabilities change exactly when what the driver is doing stays covered. */
  lemma CapabilitiesExact(db: Db, id: Id, capabilities: set<Capability>)
    requires R.Reachable(db) && id < |db.drivers|
    ensures var d := db.drivers[id];
            var (db', r) := SetCapabilities(db, id, capabilities);
            && (r == Done <==> capabilities != d.capabilities && TasksWithin(db, id, capabilities) && (OnTheRoad(db, id) ==> LineHaul in capabilities))
            && (r == Unchanged <==> capabilities == d.capabilities)
            && db' == if r == Done then db.(drivers := db.drivers[id := d.(capabilities := capabilities, version := d.version + 1)]) else db
  {
    hide R.Reachable, OnTheRoad, DriverExecuting;
    DriversAreFit(db, id);
    TasksAndTrips(db, id, 0);
    var d := db.drivers[id];
    var removed := d.capabilities - capabilities;
    if AssignedFor(db.assignments, id, removed * {Pickup, Delivery}) {
      var i :| 0 <= i < |db.assignments| && db.assignments[i].driver == id && db.assignments[i].kind in removed * {Pickup, Delivery} && ActiveAssignment(db.assignments[i].status);
      assert db.assignments[i].kind !in capabilities;
    } else {
      forall a: Id | a < |db.assignments| && db.assignments[a].driver == id && db.assignments[a].status in {Offered, Accepted}
        ensures db.assignments[a].kind in capabilities
      {
        assert db.assignments[a].kind in d.capabilities * {Pickup, Delivery};
      }
    }
  }

  /** A driver in good standing goes on- or offline as he asks, but never offline
      with a task; online he is free exactly when he has none. */
  lemma AvailabilityExact(db: Db, id: Id, online: bool)
    requires R.Reachable(db) && id < |db.drivers|
    ensures var d := db.drivers[id];
            var (db', r) := SetAvailability(db, id, online);
            && (r == Done <==> GoodStanding(d) && (OnTask(db, id) ==> online))
            && (r != Unchanged) && (r != Done ==> db' == db)
            && (r == Done ==>
                  && |db'.drivers| == |db.drivers| && db' == db.(drivers := db.drivers[id := db'.drivers[id]])
                  && var d' := db'.drivers[id];
                     && d' == d.(status := d'.status, online := online, available := d'.available, version := d.version + 1)
                     && (d'.available <==> online && !OnTask(db, id)) && (d'.status == Free <==> d'.available) && (d'.status == Offline <==> !online)
                     && d'.status in {Free, Busy, Offline})
  {
    hide R.Reachable, OnTask, OnTheRoad, DriverAssigned, DriverExecuting;
    TasksAndTrips(db, id, 0);
  }

  /** Suspending an account suspends its driver, who must be idle; restoring it
      gives back the account only. */
  lemma UserStatusExact(db: Db, id: Id, active: bool)
    requires R.Reachable(db) && id < |db.drivers|
    ensures var d := db.drivers[id];
            var (db', r) := SetUserStatus(db, id, active);
            && (r == Done <==> d.userActive != active && (!active ==> !OnTask(db, id) && !OnTheRoad(db, id)))
            && (r == Unchanged <==> d.userActive == active)
            && db' == if r != Done then db
                      else if active then db.(drivers := db.drivers[id := d.(userActive := true)])
                      else db.(drivers := db.drivers[id := Driver(false, Suspended, false, false, d.capabilities, d.home, d.version + 1)])
  {
    hide R.Reachable, OnTask, OnTheRoad, DriverAssigned, DriverExecuting;
    TasksAndTrips(db, id, 0);
  }

  /** A new driver works for an open warehouse, on parcels only, and is offline,
      or suspended if his account is. */
  lemma CreateDriverExact(db: Db, userActive: bool, home: Id)
    ensures var (db', r) := CreateDriver(db, userActive, home);
            && (r == Done <==> Open(db, home)) && (r != Done ==> db' == db)
            && (r == Done ==>
                  && db' == db.(drivers := db'.drivers) && |db'.drivers| == |db.drivers| + 1 && db'.drivers[..|db.drivers|] == db.drivers
                  && var d := db'.drivers[|db.drivers|];
                     && d.userActive == userActive && (d.status == Offline <==> userActive) && (d.status == Suspended <==> !userActive)
                     && !d.online && !d.available && d.home == home && LineHaul !in d.capabilities && Pickup in d.capabilities && Delivery in d.capabilities)
  {
  }
}

/** Drivers, their user accounts, and warehouses. */
module DriverCommands {
  import opened Rows
  import opened Policies
  import opened Tables

  function CreateWarehouse(db: Db, place: Option<int>): (Db, Reply) {
    (db.(warehouses := db.warehouses + [Warehouse(true, place)]), Done)
  }

  function UpdateWarehouse(db: Db, id: Id, active: bool, place: Option<int>): (Db, Reply) {
    if id >= |db.warehouses| then (db, Refused(NotFound))
    else (db.(warehouses := db.warehouses[id := Warehouse(active, place)]), Done)
  }

  function CreateDriver(db: Db, userActive: bool, home: Id): (Db, Reply) {
    if !WarehouseOpen(db.warehouses, home) then (db, Refused(WarehouseInactive))
    else
      (db.(drivers := db.drivers + [Driver(userActive, if userActive then Offline else Suspended, false, false, {Pickup, Delivery}, home, 0)]),
       Done)
  }

  function UpdateDriver(db: Db, id: Id, home: Option<Id>, suspended: Option<bool>): (Db, Reply) {
    if id >= |db.drivers| then (db, Refused(NotFound))
    else
      var d := db.drivers[id];
      var moves := home.Some? && home.value != d.home;
      if (suspended == Some(true) || moves) && DriverAssigned(db.assignments, id) then (db, Refused(DriverHasActiveAssignment))
      else if suspended == Some(true) && DriverExecuting(db.trips, id) then (db, Refused(DriverHasActiveTrip))
      else if suspended == Some(false) && !d.userActive then (db, Refused(DriverUserSuspended))
      else if home.Some? && !WarehouseOpen(db.warehouses, home.value) then (db, Refused(WarehouseInactive))
      else
        var d1 := d.(home := if home.Some? then home.value else d.home, version := d.version + 1);
        var d2 := match suspended
          case None => d1
          case Some(yes) => d1.(status := if yes then Suspended else Offline, online := false, available := false);
        (db.(drivers := db.drivers[id := d2]), Done)
  }

  predicate AssignedFor(assignments: seq<Assignment>, driver: Id, kinds: set<Capability>) {
    exists i :: 0 <= i < |assignments| && assignments[i].driver == driver && assignments[i].kind in kinds && ActiveAssignment(assignments[i].status)
  }

  function SetCapabilities(db: Db, id: Id, capabilities: set<Capability>): (Db, Reply) {
    if id >= |db.drivers| then (db, Refused(NotFound))
    else
      var d := db.drivers[id];
      var removed := d.capabilities - capabilities;
      if d.capabilities == capabilities then (db, Unchanged)
      else if AssignedFor(db.assignments, id, removed * {Pickup, Delivery}) then (db, Refused(CapabilityInUse))
      else if LineHaul in removed && DriverExecuting(db.trips, id) then (db, Refused(CapabilityInUse))
      else (db.(drivers := db.drivers[id := d.(capabilities := capabilities, version := d.version + 1)]), Done)
  }

  function SetAvailability(db: Db, id: Id, online: bool): (Db, Reply) {
    if id >= |db.drivers| then (db, Refused(NotFound))
    else
      var d := db.drivers[id];
      var busy := DriverAssigned(db.assignments, id);
      if d.status == Suspended || !d.userActive then (db, Refused(DriverSuspended))
      else if busy && !online then (db, Refused(DriverHasActiveAssignment))
      else
        var d' := d.(status := if !online then Offline else if busy then Busy else Free,
                     online := online, available := online && !busy, version := d.version + 1);
        (db.(drivers := db.drivers[id := d']), Done)
  }

  function SetUserStatus(db: Db, id: Id, active: bool): (Db, Reply) {
    if id >= |db.drivers| then (db, Refused(NotFound))
    else
      var d := db.drivers[id];
      if d.userActive == active then (db, Unchanged)
      else if active then (db.(drivers := db.drivers[id := d.(userActive := true)]), Done)
      else if DriverAssigned(db.assignments, id) then (db, Refused(DriverHasActiveAssignment))
      else if DriverExecuting(db.trips, id) then (db, Refused(DriverHasActiveTrip))
      else
        (db.(drivers := db.drivers[id := d.(userActive := false, status := Suspended, online := false, available := false, version := d.version + 1)]),
         Done)
  }
}

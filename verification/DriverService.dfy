/** The driver and user services as they run. */
module DriverService {
  import opened Rows
  import opened Policies
  import opened Tables
  import opened Invariants
  import opened Storage
  import Spec = DriverCommands
  import KeepDrivers

  method UpdateDriver(s: Store, id: Id, home: Option<Id>, suspended: Option<bool>) returns (r: Reply)
    requires s.Valid()
    modifies s
    ensures s.Valid() && (s.Db(), r) == Spec.UpdateDriver(old(s.Db()), id, home, suspended)
  {
    hide Inv;
    Resolves(s.Db());
    KeepDrivers.UpdateDriverKeeps(s.Db(), id, home, suspended);
    if id >= |s.drivers| { return Refused(NotFound); }
    var d := s.drivers[id];
    var moves := home.Some? && home.value != d.home;
    if (suspended == Some(true) || moves) && DriverAssigned(s.assignments, id) { return Refused(DriverHasActiveAssignment); }
    if suspended == Some(true) && DriverExecuting(s.trips, id) { return Refused(DriverHasActiveTrip); }
    if suspended == Some(false) && !d.userActive { return Refused(DriverUserSuspended); }
    if home.Some? && !WarehouseOpen(s.warehouses, home.value) { return Refused(WarehouseInactive); }
    if home.Some? { d := d.(home := home.value); }
    if suspended.Some? { d := d.(status := if suspended.value then Suspended else Offline, online := false, available := false); }
    d := d.(version := d.version + 1);
    s.drivers := s.drivers[id := d];
    return Done;
  }

  method SetCapabilities(s: Store, id: Id, capabilities: set<Capability>) returns (r: Reply)
    requires s.Valid()
    modifies s
    ensures s.Valid() && (s.Db(), r) == Spec.SetCapabilities(old(s.Db()), id, capabilities)
  {
    hide Inv;
    Resolves(s.Db());
    KeepDrivers.SetCapabilitiesKeeps(s.Db(), id, capabilities);
    if id >= |s.drivers| { return Refused(NotFound); }
    var d := s.drivers[id];
    if d.capabilities == capabilities { return Unchanged; }
    var removed := d.capabilities - capabilities;
    if Spec.AssignedFor(s.assignments, id, removed * {Pickup, Delivery}) { return Refused(CapabilityInUse); }
    if LineHaul in removed && DriverExecuting(s.trips, id) { return Refused(CapabilityInUse); }
    s.drivers := s.drivers[id := d.(capabilities := capabilities, version := d.version + 1)];
    return Done;
  }

  method SetAvailability(s: Store, id: Id, online: bool) returns (r: Reply)
    requires s.Valid()
    modifies s
    ensures s.Valid() && (s.Db(), r) == Spec.SetAvailability(old(s.Db()), id, online)
  {
    hide Inv;
    Resolves(s.Db());
    KeepDrivers.SetAvailabilityKeeps(s.Db(), id, online);
    if id >= |s.drivers| { return Refused(NotFound); }
    var d := s.drivers[id];
    if d.status == Suspended || !d.userActive { return Refused(DriverSuspended); }
    var busy := DriverAssigned(s.assignments, id);
    if busy && !online { return Refused(DriverHasActiveAssignment); }
    if !online {
      d := d.(status := Offline);
    } else if busy {
      d := d.(status := Busy);
    } else {
      d := d.(status := Free);
    }
    s.drivers := s.drivers[id := d.(online := online, available := online && !busy, version := d.version + 1)];
    return Done;
  }

  method SetUserStatus(s: Store, id: Id, active: bool) returns (r: Reply)
    requires s.Valid()
    modifies s
    ensures s.Valid() && (s.Db(), r) == Spec.SetUserStatus(old(s.Db()), id, active)
  {
    hide Inv;
    Resolves(s.Db());
    KeepDrivers.SetUserStatusKeeps(s.Db(), id, active);
    if id >= |s.drivers| { return Refused(NotFound); }
    var d := s.drivers[id];
    if d.userActive == active { return Unchanged; }
    if !active {
      if DriverAssigned(s.assignments, id) { return Refused(DriverHasActiveAssignment); }
      if DriverExecuting(s.trips, id) { return Refused(DriverHasActiveTrip); }
      d := d.(status := Suspended, online := false, available := false, version := d.version + 1);
    }
    s.drivers := s.drivers[id := d.(userActive := active)];
    return Done;
  }
}

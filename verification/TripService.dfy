/** The line-haul services as they run: rows read, checked and written one
    after another inside a transaction. Each method is proved to do exactly
    what its command says and to keep the joint invariant. */
module TripService {
  import opened Rows
  import opened Ledgers
  import opened Policies
  import opened Tables
  import opened Invariants
  import opened Storage
  import Spec = TripCommands
  import TransferSpec = TransferCommands
  import KeepTrips
  import KeepTransfers

  lemma {:induction false} ErrorsStay(links: seq<Link>, loads: seq<int>, trip: Id, i: nat)
    requires i <= |links| && ManifestGrams(links[..i], loads, trip).Err?
    ensures ManifestGrams(links, loads, trip) == ManifestGrams(links[..i], loads, trip)
  {
    if i < |links| {
      assert links[..|links| - 1][..i] == links[..i];
      ErrorsStay(links[..|links| - 1], loads, trip, i);
    } else {
      assert links[..i] == links;
    }
  }

  /** Adds up a manifest link by link. */
  lemma NoLinks(links: seq<Link>, loads: seq<int>, trip: Id)
    ensures ManifestGrams(links[..0], loads, trip) == Ok(0)
  {
  }

  lemma OneLinkMore(links: seq<Link>, loads: seq<int>, trip: Id, i: nat)
    requires i < |links| && ManifestGrams(links[..i], loads, trip).Ok?
    ensures var (total, l) := (ManifestGrams(links[..i], loads, trip).value, links[i]);
            ManifestGrams(links[..i + 1], loads, trip) ==
            if !l.active || l.trip != trip || l.transfer >= |loads| then Ok(total)
            else if !SafeWeight(loads[l.transfer]) then Err(ShipmentWeightInvalid)
            else if total + loads[l.transfer] > MAX_SAFE_INTEGER then Err(ManifestWeightInvalid)
            else Ok(total + loads[l.transfer])
  {
    assert links[..i + 1][..i] == links[..i];
  }

  method ManifestWeight(s: Store, trip: Id) returns (r: Result<int>)
    requires References(s.Db())
    ensures r == ManifestGrams(s.links, Loads(s.transfers, s.shipments), trip)
  {
    hide ManifestGrams;
    ghost var loads := Loads(s.transfers, s.shipments);
    var total, i := 0, 0;
    NoLinks(s.links, loads, trip);
    while i < |s.links|
      invariant 0 <= i <= |s.links|
      invariant ManifestGrams(s.links[..i], loads, trip) == Ok(total)
    {
      var l := s.links[i];
      OneLinkMore(s.links, loads, trip, i);
      if l.active && l.trip == trip {
        var load := LoadGrams(s.shipments[s.transfers[l.transfer].shipment]);
        if !SafeWeight(load) {
          ErrorsStay(s.links, loads, trip, i + 1);
          return Err(ShipmentWeightInvalid);
        }
        total := total + load;
        if total > MAX_SAFE_INTEGER {
          ErrorsStay(s.links, loads, trip, i + 1);
          return Err(ManifestWeightInvalid);
        }
      }
      i := i + 1;
    }
    assert s.links[..i] == s.links;
    return Ok(total);
  }

  lemma {:induction false} FirstManifestError(db: Db, id: Id, ids: seq<Id>, i: nat)
    requires References(db) && id < |db.trips| && Spec.Within(ids, |db.transfers|) && i <= |ids|
    requires Spec.ManifestError(db, id, ids[..i]).Some?
    ensures Spec.ManifestError(db, id, ids) == Spec.ManifestError(db, id, ids[..i])
  {
    if i < |ids| {
      assert ids[..|ids| - 1][..i] == ids[..i];
      FirstManifestError(db, id, ids[..|ids| - 1], i);
    } else {
      assert ids[..i] == ids;
    }
  }

  /** Checks that every transfer of a manifest could leave now. */
  method CheckManifest(s: Store, id: Id, ids: seq<Id>) returns (e: Option<Error>)
    requires References(s.Db()) && id < |s.trips| && Spec.Within(ids, |s.transfers|)
    ensures e == Spec.ManifestError(s.Db(), id, ids)
  {
    var i := 0;
    while i < |ids|
      invariant 0 <= i <= |ids|
      invariant Spec.ManifestError(s.Db(), id, ids[..i]) == None
    {
      var t := s.transfers[ids[i]];
      e := DispatchableError(t, s.shipments[t.shipment], s.trips[id].origin, s.trips[id].destination);
      assert ids[..i + 1][..i] == ids[..i];
      if e.Some? {
        FirstManifestError(s.Db(), id, ids, i + 1);
        return;
      }
      i := i + 1;
    }
    assert ids[..i] == ids;
    return None;
  }

  /** What preparing and dispatching both check, in order. */
  method CheckExecution(s: Store, id: Id) returns (e: Option<Error>)
    requires References(s.Db()) && id < |s.trips|
    ensures e == Spec.ExecutionError(s.Db(), id)
  {
    var t := s.trips[id];
    if t.schedule == None { return Some(ScheduleRequired); }
    var w := t.schedule.value;
    if !ValidWindow(w) { return Some(ScheduleRangeInvalid); }
    e := DriverError(s.drivers[t.driver]);
    if e.Some? { return; }
    if DriverAssigned(s.assignments, t.driver) { return Some(DriverHasActiveAssignment); }
    e := VehicleError(s.vehicles[t.vehicle]);
    if e.Some? { return; }
    e := BookingError(s.trips, t.driver, t.vehicle, w, Some(id));
    if e.Some? { return; }
    if !s.warehouses[t.origin].active || !s.warehouses[t.destination].active { return Some(WarehouseInactive); }
    var ids := Manifest(s.links, id);
    if |ids| == 0 { return Some(ManifestEmpty); }
    e := CheckManifest(s, id, ids);
    if e.Some? { return; }
    var weight := ManifestWeight(s, id);
    match weight
    case Err(refusal) => return Some(refusal);
    case Ok(total) => return CapacityError(total, s.vehicles[t.vehicle].capacity);
  }

  lemma {:induction false} FirstCandidateError(db: Db, c: Spec.NewTrip, ids: seq<Id>, i: nat)
    requires References(db) && Spec.Within(ids, |db.transfers|) && i <= |ids|
    requires Spec.CandidateTransfersError(db, c, ids[..i]).Some?
    ensures Spec.CandidateTransfersError(db, c, ids) == Spec.CandidateTransfersError(db, c, ids[..i])
  {
    if i < |ids| {
      assert ids[..|ids| - 1][..i] == ids[..i];
      FirstCandidateError(db, c, ids[..|ids| - 1], i);
    } else {
      assert ids[..i] == ids;
    }
  }

  /** Locks and checks the requested transfers one by one, adding up their weight. */
  method CheckCandidates(s: Store, c: Spec.NewTrip) returns (r: Result<int>)
    requires References(s.Db()) && Spec.Within(c.transfers, |s.transfers|)
    ensures match Spec.CandidateTransfersError(s.Db(), c, c.transfers)
            case Some(e) => r == Err(e)
            case None => r == Ok(Spec.Grams(Loads(s.transfers, s.shipments), c.transfers))
  {
    hide DispatchableError, ActiveLink, SafeWeight;
    ghost var loads := Loads(s.transfers, s.shipments);
    var i, total := 0, 0;
    while i < |c.transfers|
      invariant 0 <= i <= |c.transfers|
      invariant Spec.CandidateTransfersError(s.Db(), c, c.transfers[..i]) == None
      invariant total == Spec.Grams(loads, c.transfers[..i])
    {
      var id := c.transfers[i];
      var t := s.transfers[id];
      var parcel := s.shipments[t.shipment];
      var e := DispatchableError(t, parcel, c.origin, c.destination);
      if e == None && ActiveLink(s.links, id).Some? { e := Some(TransferOwned); }
      if e == None && !SafeWeight(LoadGrams(parcel)) { e := Some(ShipmentWeightInvalid); }
      assert c.transfers[..i + 1][..i] == c.transfers[..i];
      if e.Some? {
        assert Spec.CandidateTransferError(s.Db(), c, id) == e;
        FirstCandidateError(s.Db(), c, c.transfers, i + 1);
        return Err(e.value);
      }
      total := total + LoadGrams(parcel);
      i := i + 1;
    }
    assert c.transfers[..i] == c.transfers;
    return Ok(total);
  }

  method CreateTrip(s: Store, c: Spec.NewTrip) returns (r: Reply)
    requires s.Valid()
    modifies s
    ensures s.Valid() && (s.Db(), r) == Spec.CreateTrip(old(s.Db()), c)
  {
    hide Inv;
    Resolves(s.Db());
    ghost var db := s.Db();
    KeepTrips.CreateTripKeeps(db, c);
    if c.origin == c.destination { return Refused(SameWarehouse); }
    if c.window.Some? && !ValidWindow(c.window.value) { return Refused(ScheduleRangeInvalid); }
    var existing := Spec.TripByKey(s.trips, c.key);
    if existing.Some? {
      return if Spec.SameTrip(s.Db(), s.trips[existing.value], existing.value, c) then Unchanged else Refused(KeyReused);
    }
    if !WarehouseOpen(s.warehouses, c.origin) || !WarehouseOpen(s.warehouses, c.destination) { return Refused(WarehouseInactive); }
    if c.driver >= |s.drivers| { return Refused(NotFound); }
    var e := DriverError(s.drivers[c.driver]);
    if e.Some? { return Refused(e.value); }
    if c.vehicle >= |s.vehicles| { return Refused(NotFound); }
    e := VehicleError(s.vehicles[c.vehicle]);
    if e.Some? { return Refused(e.value); }
    if c.window.Some? {
      if DriverAssigned(s.assignments, c.driver) { return Refused(DriverHasActiveAssignment); }
      e := BookingError(s.trips, c.driver, c.vehicle, c.window.value, None);
      if e.Some? { return Refused(e.value); }
    }
    if !Spec.Distinct(c.transfers) || !Spec.Within(c.transfers, |s.transfers|) { return Refused(NotFound); }
    var weight := CheckCandidates(s, c);
    if weight.Err? { return Refused(weight.error); }
    e := CapacityError(weight.value, s.vehicles[c.vehicle].capacity);
    if e.Some? { return Refused(e.value); }
    var id := |s.trips|;
    s.trips := s.trips + [Trip(c.key, c.origin, c.destination, c.driver, c.vehicle, Planned, c.window, None, None, None, 0)];
    s.links := s.links + Spec.ManifestLinks(id, c.transfers);
    return Done;
  }

  method AssignTransfer(s: Store, id: Id, transfer: Id) returns (r: Reply)
    requires s.Valid()
    modifies s
    ensures s.Valid() && (s.Db(), r) == Spec.AssignTransfer(old(s.Db()), id, transfer)
  {
    hide Inv;
    Resolves(s.Db());
    KeepTrips.AssignKeeps(s.Db(), id, transfer);
    if id >= |s.trips| { return Refused(NotFound); }
    var trip := s.trips[id];
    if trip.status != Planned { return Refused(TripNotConfigurable); }
    if transfer >= |s.transfers| { return Refused(NotFound); }
    var t := s.transfers[transfer];
    if t.status != Waiting { return Refused(TransferNotPending); }
    if t.from != trip.origin || t.to != trip.destination { return Refused(RouteMismatch); }
    var owner := ActiveLink(s.links, transfer);
    if owner.Some? {
      return if s.links[owner.value].trip == id then Unchanged else Refused(TransferOwned);
    }
    var weight := ManifestWeight(s, id);
    if weight.Err? { return Refused(weight.error); }
    var load := LoadGrams(s.shipments[t.shipment]);
    if !SafeWeight(load) { return Refused(ShipmentWeightInvalid); }
    var e := CapacityError(weight.value + load, s.vehicles[trip.vehicle].capacity);
    if e.Some? { return Refused(e.value); }
    s.links := s.links + [Link(id, transfer, true)];
    return Done;
  }

  method RemoveTransfer(s: Store, id: Id, transfer: Id) returns (r: Reply)
    requires s.Valid()
    modifies s
    ensures s.Valid() && (s.Db(), r) == Spec.RemoveTransfer(old(s.Db()), id, transfer)
  {
    hide Inv;
    Resolves(s.Db());
    KeepTrips.RemoveKeeps(s.Db(), id, transfer);
    if id >= |s.trips| { return Refused(NotFound); }
    if s.trips[id].status != Planned { return Refused(TripNotConfigurable); }
    var k := LinkOf(s.links, id, transfer);
    if k == None {
      return if exists i :: 0 <= i < |s.links| && s.links[i].trip == id && s.links[i].transfer == transfer
             then Unchanged else Refused(TransferAssignmentNotFound);
    }
    s.links := s.links[k.value := s.links[k.value].(active := false)];
    return Done;
  }

  method SetSchedule(s: Store, id: Id, w: Window, reschedule: bool, expectedVersion: int) returns (r: Reply)
    requires s.Valid()
    modifies s
    ensures s.Valid() && (s.Db(), r) == Spec.SetSchedule(old(s.Db()), id, w, reschedule, expectedVersion)
  {
    hide Inv;
    Resolves(s.Db());
    KeepTrips.ScheduleKeeps(s.Db(), id, w, reschedule, expectedVersion);
    if !ValidWindow(w) { return Refused(ScheduleRangeInvalid); }
    if id >= |s.trips| { return Refused(NotFound); }
    var t := s.trips[id];
    if t.status != Planned { return Refused(TripNotSchedulable); }
    if t.schedule == Some(w) { return Unchanged; }
    if !reschedule && t.schedule.Some? { return Refused(TripAlreadyScheduled); }
    if reschedule && t.schedule == None { return Refused(TripNotScheduled); }
    if t.version != expectedVersion { return Refused(ConcurrentModification); }
    var e := DriverError(s.drivers[t.driver]);
    if e.Some? { return Refused(e.value); }
    e := VehicleError(s.vehicles[t.vehicle]);
    if e.Some? { return Refused(e.value); }
    e := BookingError(s.trips, t.driver, t.vehicle, w, Some(id));
    if e.Some? { return Refused(e.value); }
    s.trips := s.trips[id := t.(schedule := Some(w), version := t.version + 1)];
    return Done;
  }

  method Unschedule(s: Store, id: Id, expectedVersion: int) returns (r: Reply)
    requires s.Valid()
    modifies s
    ensures s.Valid() && (s.Db(), r) == Spec.Unschedule(old(s.Db()), id, expectedVersion)
  {
    hide Inv;
    Resolves(s.Db());
    KeepTrips.UnscheduleKeeps(s.Db(), id, expectedVersion);
    if id >= |s.trips| { return Refused(NotFound); }
    var t := s.trips[id];
    if t.status != Planned { return Refused(TripNotSchedulable); }
    if t.schedule == None { return Unchanged; }
    if t.version != expectedVersion { return Refused(ConcurrentModification); }
    s.trips := s.trips[id := t.(schedule := None, version := t.version + 1)];
    return Done;
  }

  method PrepareTrip(s: Store, id: Id, routed: bool) returns (r: Reply)
    requires s.Valid()
    modifies s
    ensures s.Valid() && (s.Db(), r) == Spec.PrepareTrip(old(s.Db()), id, routed)
  {
    hide Inv, Spec.ExecutionError, DriverError, CapacityError, DriverAssigned, Manifest;
    Resolves(s.Db());
    KeepTrips.PrepareKeeps(s.Db(), id, routed);
    if id >= |s.trips| { return Refused(NotFound); }
    var t := s.trips[id];
    if FrozenTrip(t.status) { return Unchanged; }
    if t.status != Planned { return Refused(TripNotPreparable); }
    var e := CheckExecution(s, id);
    if e.Some? { return Refused(e.value); }
    KeepTrips.PassedChecks(s.Db(), id);
    var weight := ManifestWeight(s, id);
    t := t.(status := Ready, preparedGrams := Some(weight.value), preparedCapacity := Some(s.vehicles[t.vehicle].capacity), version := t.version + 1);
    if routed && s.warehouses[t.origin].place.Some? && s.warehouses[t.destination].place.Some? {
      t := t.(route := Some(|s.routes|));
      s.routes := s.routes + [Route(id, 1)];
    }
    s.trips := s.trips[id := t];
    return Done;
  }

  /** Sends one transfer off on behalf of a trip, or standalone. */
  method SendTransfer(s: Store, warehouse: Id, transfer: Id, trip: Option<Id>, cutover: Option<int>, now: int) returns (r: Reply)
    requires References(s.Db())
    modifies s
    ensures (s.Db(), r) == TransferSpec.DispatchTransfer(old(s.Db()), warehouse, transfer, trip, cutover, now)
  {
    if transfer >= |s.transfers| { return Refused(NotFound); }
    var t := s.transfers[transfer];
    if t.from != warehouse { return Refused(TransferOriginMismatch); }
    if t.status in {Moving, Completed} && t.dispatchedAt.Some? { return Unchanged; }
    var owner := ActiveLink(s.links, transfer);
    if trip.Some? {
      if owner == None || s.links[owner.value].trip != trip.value || s.trips[s.links[owner.value].trip].status != Underway {
        return Refused(ManifestOwnershipInvalid);
      }
    } else if owner.Some? {
      return Refused(TransferOwned);
    }
    if !s.warehouses[t.from].active || !s.warehouses[t.to].active { return Refused(WarehouseInactive); }
    var parcel := s.shipments[t.shipment];
    var e := DispatchableError(t, parcel, warehouse, t.to);
    if e.Some? { return Refused(e.value); }
    if trip == None && Enforced(cutover, now) { return Refused(TripRequired); }
    s.transfers := s.transfers[transfer := t.(status := Moving, dispatchedAt := Some(now))];
    s.shipments := s.shipments[t.shipment := parcel.(status := InTransit, current := None, version := parcel.version + 1)];
    return Done;
  }

  lemma {:induction false} FirstDispatchError(db: Db, warehouse: Id, trip: Id, ids: seq<Id>, i: nat, now: int)
    requires References(db) && i <= |ids| && Spec.DispatchAll(db, warehouse, trip, ids[..i], now).Err?
    ensures Spec.DispatchAll(db, warehouse, trip, ids, now) == Spec.DispatchAll(db, warehouse, trip, ids[..i], now)
  {
    hide References, TransferSpec.DispatchTransfer;
    if i < |ids| {
      assert ids[..|ids| - 1][..i] == ids[..i];
      FirstDispatchError(db, warehouse, trip, ids[..|ids| - 1], i, now);
    } else {
      assert ids[..i] == ids;
    }
  }

  /** The dispatch loop over a manifest: it stops at the first refusal. */
  method SendManifest(s: Store, warehouse: Id, trip: Id, ids: seq<Id>, now: int) returns (e: Option<Error>)
    requires References(s.Db())
    modifies s
    ensures match Spec.DispatchAll(old(s.Db()), warehouse, trip, ids, now)
            case Ok(db) => e == None && s.Db() == db
            case Err(refusal) => e == Some(refusal)
  {
    hide TransferSpec.DispatchTransfer, References;
    ghost var db := s.Db();
    var i := 0;
    assert Spec.DispatchAll(db, warehouse, trip, ids[..0], now) == Ok(db);
    while i < |ids|
      invariant 0 <= i <= |ids|
      invariant Spec.DispatchAll(db, warehouse, trip, ids[..i], now) == Ok(s.Db())
    {
      var r := SendTransfer(s, warehouse, ids[i], Some(trip), None, now);
      assert ids[..i + 1][..i] == ids[..i];
      if r.Refused? {
        FirstDispatchError(db, warehouse, trip, ids, i + 1, now);
        return Some(r.error);
      }
      i := i + 1;
    }
    assert ids[..i] == ids;
    return None;
  }

  /** Trip and vehicle first, then the manifest; a refusal anywhere undoes all. */
  method DispatchTrip(s: Store, id: Id, now: int) returns (r: Reply)
    requires s.Valid()
    modifies s
    ensures s.Valid() && (s.Db(), r) == Spec.DispatchTrip(old(s.Db()), id, now)
  {
    hide Inv, Spec.ExecutionError, Spec.DispatchAll, Manifest;
    Resolves(s.Db());
    KeepTransfers.DispatchKeeps(s.Db(), id, now);
    var before := s.Db();
    if id >= |s.trips| { return Refused(NotFound); }
    var t := s.trips[id];
    if t.status in {Underway, Arrived} { return Unchanged; }
    if t.status != Ready { return Refused(TripNotDispatchable); }
    var e := CheckExecution(s, id);
    if e.Some? { return Refused(e.value); }
    var v := s.vehicles[t.vehicle];
    s.trips := s.trips[id := t.(status := Underway, version := t.version + 1)];
    s.vehicles := s.vehicles[t.vehicle := v.(status := InUse, version := v.version + 1)];
    assert s.Db() == Spec.Departed(before, id);
    e := SendManifest(s, t.origin, id, Manifest(s.links, id), now);
    if e.Some? {
      s.Rollback(before);
      return Refused(e.value);
    }
    return Done;
  }

  method ArriveTrip(s: Store, id: Id) returns (r: Reply)
    requires s.Valid()
    modifies s
    ensures s.Valid() && (s.Db(), r) == Spec.ArriveTrip(old(s.Db()), id)
  {
    hide Inv;
    Resolves(s.Db());
    KeepTrips.ArriveKeeps(s.Db(), id);
    if id >= |s.trips| { return Refused(NotFound); }
    var t := s.trips[id];
    if t.status == Arrived { return Unchanged; }
    if t.status != Underway { return Refused(TripNotArrivable); }
    if |Manifest(s.links, id)| == 0 { return Refused(ManifestEmpty); }
    var v := s.vehicles[t.vehicle];
    if v.status != InUse { return Refused(ConcurrentModification); }
    s.trips := s.trips[id := t.(status := Arrived, version := t.version + 1)];
    s.vehicles := s.vehicles[t.vehicle := v.(status := Available, version := v.version + 1)];
    return Done;
  }

  method CommitReroute(s: Store, id: Id, seen: Spec.Preflight, now: int) returns (r: Reply)
    requires s.Valid()
    modifies s
    ensures s.Valid() && (s.Db(), r) == Spec.CommitReroute(old(s.Db()), id, seen, now)
  {
    hide Inv;
    Resolves(s.Db());
    KeepTrips.RerouteKeeps(s.Db(), id, seen, now);
    if id >= |s.trips| { return Refused(NotFound); }
    var t := s.trips[id];
    if t.status != Underway { return Refused(RerouteNotInTransit); }
    if t.version != seen.version || t.route != Some(seen.route) { return Refused(ConcurrentModification); }
    if s.warehouses[t.destination].place != Some(seen.place) { return Refused(RerouteDestinationChanged); }
    if now - seen.capturedAt < 0 || now - seen.capturedAt >= Spec.LOCATION_TTL { return Refused(CurrentGpsRequired); }
    var route := |s.routes|;
    s.routes := s.routes + [Route(id, s.routes[seen.route].version + 1)];
    s.trips := s.trips[id := t.(route := Some(route), version := t.version + 1)];
    return Done;
  }

  /** Takes every transfer off a trip's manifest. */
  method Release(s: Store, trip: Id)
    modifies s`links
    ensures s.links == Spec.WithoutTrip(old(s.links), trip)
  {
    ghost var was := s.links;
    var i := 0;
    while i < |s.links|
      invariant 0 <= i <= |s.links| == |was|
      invariant forall k :: 0 <= k < i ==> s.links[k] == if was[k].trip == trip then was[k].(active := false) else was[k]
      invariant forall k :: i <= k < |was| ==> s.links[k] == was[k]
    {
      if s.links[i].trip == trip {
        s.links := s.links[i := s.links[i].(active := false)];
      }
      i := i + 1;
    }
  }

  /** Releases every transfer of the trip, then withdraws it. */
  method CancelTrip(s: Store, id: Id) returns (r: Reply)
    requires s.Valid()
    modifies s
    ensures s.Valid() && (s.Db(), r) == Spec.CancelTrip(old(s.Db()), id)
  {
    hide Inv;
    Resolves(s.Db());
    KeepTrips.CancelKeeps(s.Db(), id);
    if id >= |s.trips| { return Refused(NotFound); }
    var t := s.trips[id];
    if t.status == Withdrawn { return Unchanged; }
    if t.status !in {Planned, Ready} { return Refused(TripNotCancellable); }
    Release(s, id);
    s.trips := s.trips[id := t.(status := Withdrawn, version := t.version + 1)];
    return Done;
  }

  lemma {:induction false} FirstCarryingError(links: seq<Link>, loads: seq<int>, ids: seq<Id>, capacity: int, i: nat)
    requires i <= |ids| && Spec.CarryingError(links, loads, ids[..i], capacity).Some?
    ensures Spec.CarryingError(links, loads, ids, capacity) == Spec.CarryingError(links, loads, ids[..i], capacity)
  {
    if i < |ids| {
      assert ids[..|ids| - 1][..i] == ids[..i];
      FirstCarryingError(links, loads, ids[..|ids| - 1], capacity, i);
    } else {
      assert ids[..i] == ids;
    }
  }

  /** Weighs the given trips one by one against a capacity. */
  method CheckCarrying(s: Store, ids: seq<Id>, capacity: int) returns (e: Option<Error>)
    requires References(s.Db())
    ensures e == Spec.CarryingError(s.links, Loads(s.transfers, s.shipments), ids, capacity)
  {
    ghost var loads := Loads(s.transfers, s.shipments);
    var i := 0;
    while i < |ids|
      invariant 0 <= i <= |ids|
      invariant Spec.CarryingError(s.links, loads, ids[..i], capacity) == None
    {
      var weight := ManifestWeight(s, ids[i]);
      e := match weight case Err(refusal) => Some(refusal) case Ok(total) => CapacityError(total, capacity);
      assert ids[..i + 1][..i] == ids[..i];
      if e.Some? {
        FirstCarryingError(s.links, loads, ids, capacity, i + 1);
        return;
      }
      i := i + 1;
    }
    assert ids[..i] == ids;
    return None;
  }

  /** Every active trip of the vehicle must still fit the new capacity. */
  method UpdateCapacity(s: Store, vehicle: Id, capacity: int, hints: seq<Id>) returns (r: Reply)
    requires s.Valid()
    modifies s
    ensures s.Valid() && (s.Db(), r) == Spec.UpdateCapacity(old(s.Db()), vehicle, capacity, hints)
  {
    hide Inv;
    Resolves(s.Db());
    KeepTrips.UpdateCapacityKeeps(s.Db(), vehicle, capacity, hints);
    if !ValidCapacity(capacity) { return Refused(CapacityRequired); }
    if vehicle >= |s.vehicles| { return Refused(NotFound); }
    var v := s.vehicles[vehicle];
    if v.capacity == capacity { return Unchanged; }
    if v.status == InUse { return Refused(VehicleInUse); }
    var ids := Spec.ActiveTrips(s.trips, vehicle);
    if ids != hints { return Refused(ConcurrentModification); }
    var e := CheckCarrying(s, ids, capacity);
    if e.Some? { return Refused(e.value); }
    s.vehicles := s.vehicles[vehicle := v.(capacity := capacity, version := v.version + 1)];
    return Done;
  }

  method SetVehicleStatus(s: Store, vehicle: Id, status: VehicleStatus) returns (r: Reply)
    requires s.Valid()
    modifies s
    ensures s.Valid() && (s.Db(), r) == Spec.SetVehicleStatus(old(s.Db()), vehicle, status)
  {
    hide Inv;
    Resolves(s.Db());
    KeepTrips.SetVehicleStatusKeeps(s.Db(), vehicle, status);
    if vehicle >= |s.vehicles| { return Refused(NotFound); }
    if status == InUse { return Refused(InvalidInput); }
    var v := s.vehicles[vehicle];
    if v.status == status {
      if status == Available && !ValidCapacity(v.capacity) { return Refused(CapacityRequired); }
      return Unchanged;
    }
    if v.status == InUse { return Refused(VehicleInUse); }
    if VehicleExecuting(s.trips, vehicle) { return Refused(VehicleHasActiveTrip); }
    if status == Available && !ValidCapacity(v.capacity) { return Refused(CapacityRequired); }
    s.vehicles := s.vehicles[vehicle := v.(status := status, version := v.version + 1)];
    return Done;
  }
}

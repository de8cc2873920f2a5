/** What the joint invariant says about every reachable state of the line-haul
    network: which guards can still refuse, and which never do. */
module NetworkTheorems {
  import opened Rows
  import opened Policies
  import opened Tables
  import opened Invariants
  import opened TransferCommands
  import opened TripCommands
  import opened ParcelCommands
  import opened TripRows
  import R = Reachability
  import opened Histories
  import KeepTrips
  import opened KeepTransfers

  // ----- guards the invariant already gives -----

  lemma NeverBooked(trips: seq<Trip>, id: Id)
    requires TripsOk(trips) && SchedulesDisjoint(trips) && id < |trips| && ActiveTrip(trips[id].status) && trips[id].schedule.Some?
    ensures BookingError(trips, trips[id].driver, trips[id].vehicle, trips[id].schedule.value, Some(id)) == None
  {
    forall i | 0 <= i < |trips| && i != id && ConflictsWith(trips[i], trips[id].schedule.value)
      ensures trips[i].driver != trips[id].driver && trips[i].vehicle != trips[id].vehicle
    {
      assert TripOk(trips[i]);
      if i < id { assert Apart(trips[i], trips[id]); } else { assert Apart(trips[id], trips[i]); }
    }
  }

  lemma NeverUndispatchable(db: Db, id: Id)
    requires References(db) && LinksOk(db.trips, db.links, db.transfers) && TransfersOk(db.transfers, db.shipments)
    requires id < |db.trips| && db.trips[id].status in {Planned, Ready}
    ensures ManifestError(db, id, Manifest(db.links, id)) == None
  {
    var ids := Manifest(db.links, id);
    forall i | 0 <= i < |ids|
      ensures DispatchableError(db.transfers[ids[i]], db.shipments[db.transfers[ids[i]].shipment], db.trips[id].origin, db.trips[id].destination) == None
    {
      assert OnManifest(db.links, id, ids[i]);
      var k :| 0 <= k < |db.links| && db.links[k] == Link(id, ids[i], true);
      assert LinkOk(db.trips, db.transfers, db.links[k]);
      assert TransferOk(db.transfers[ids[i]], db.shipments[db.transfers[ids[i]].shipment]);
    }
  }

  lemma NeverOverweight(db: Db, id: Id)
    requires References(db) && CapacityOk(db.trips, db.vehicles, db.links, Loads(db.transfers, db.shipments))
    requires id < |db.trips| && ActiveTrip(db.trips[id].status)
    ensures ValidCapacity(db.vehicles[db.trips[id].vehicle].capacity)
    ensures var grams := ManifestGrams(db.links, Loads(db.transfers, db.shipments), id);
            grams.Ok? && CapacityError(grams.value, db.vehicles[db.trips[id].vehicle].capacity) == None
  {
    assert TripLoadOk(db.trips[id], ManifestGrams(db.links, Loads(db.transfers, db.shipments), id), db.vehicles[db.trips[id].vehicle].capacity);
  }

  predicate OutWithAnother(trips: seq<Trip>, id: Id)
    requires id < |trips|
  {
    exists u :: 0 <= u < |trips| && u != id && trips[u].vehicle == trips[id].vehicle && trips[u].status == Underway
  }

  lemma VehicleOut(trips: seq<Trip>, vehicles: seq<Vehicle>, id: Id)
    requires VehiclesOk(trips, vehicles) && id < |trips| && trips[id].status == Ready && trips[id].vehicle < |vehicles|
    ensures OutWithAnother(trips, id) <==> vehicles[trips[id].vehicle].status != Available
    ensures vehicles[trips[id].vehicle].status in {Available, InUse}
  {
    if vehicles[trips[id].vehicle].status == InUse {
      var t :| 0 <= t < |trips| && trips[t].vehicle == trips[id].vehicle && trips[t].status == Underway;
      assert t != id;
    }
  }

  lemma ReadyDriver(db: Db, id: Id)
    requires References(db) && DriversOk(db.drivers, db.trips, db.assignments) && id < |db.trips| && ExecutingTrip(db.trips[id].status)
    ensures DriverError(db.drivers[db.trips[id].driver]) == None && !DriverAssigned(db.assignments, db.trips[id].driver)
  {
  }

  predicate EndpointsOpen(db: Db, id: Id)
    requires References(db) && id < |db.trips|
  {
    db.warehouses[db.trips[id].origin].active && db.warehouses[db.trips[id].destination].active
  }

  lemma ReadyGuards(db: Db, id: Id)
    requires Inv(db) && id < |db.trips| && db.trips[id].status == Ready
    ensures ExecutionError(db, id) ==
            if OutWithAnother(db.trips, id) then Some(VehicleNotAvailable)
            else if !EndpointsOpen(db, id) then Some(WarehouseInactive)
            else None
  {
    hide SchedulesDisjoint, LinksOk, CapacityOk, VehiclesOk, RoutesOk, TransfersOk, ShipmentsOk, DriversOk,
         TasksOk, AttemptsOk, LedgersOk,
      OutWithAnother, BookingError, ManifestError, Manifest, ManifestGrams, CapacityError, DriverError, DriverAssigned;
    NeverBooked(db.trips, id);
    NeverUndispatchable(db, id);
    NeverOverweight(db, id);
    VehicleOut(db.trips, db.vehicles, id);
    ReadyDriver(db, id);
    KeepTrips.FrozenHasManifest(db, id);
    ManifestNonEmpty(db.links, id);
    assert TripOk(db.trips[id]);
  }

  /** What a dispatch does to one transfer and its shipment. */
  predicate TransferSent(db: Db, listed: bool, now: int, db': Db, x: Id)
    requires References(db) && x < |db.transfers| == |db'.transfers| && |db'.shipments| == |db.shipments|
  {
    var s := db.transfers[x].shipment;
    if listed
    then db'.transfers[x] == db.transfers[x].(status := Moving, dispatchedAt := Some(now))
         && db'.shipments[s] == db.shipments[s].(status := InTransit, current := None, version := db.shipments[s].version + 1)
    else db'.transfers[x] == db.transfers[x] && db'.shipments[s] == db.shipments[s]
  }

  /** A dispatch that happens moves exactly the trip, its vehicle, the transfers
      on its manifest and their shipments. */
  predicate DispatchedExactly(db: Db, id: Id, now: int, db': Db)
    requires References(db) && id < |db.trips|
  {
    var t := db.trips[id];
    && db' == db.(trips := db'.trips, vehicles := db'.vehicles, transfers := db'.transfers, shipments := db'.shipments)
    && db'.trips == db.trips[id := t.(status := Underway, version := t.version + 1)]
    && db'.vehicles == db.vehicles[t.vehicle := db.vehicles[t.vehicle].(status := InUse, version := db.vehicles[t.vehicle].version + 1)]
    && |db'.transfers| == |db.transfers| && |db'.shipments| == |db.shipments|
    && (forall x: Id :: x < |db.transfers| ==> TransferSent(db, OnManifest(db.links, id, x), now, db', x))
    && (forall s: Id :: s < |db.shipments| && (forall x: Id :: x < |db.transfers| ==> db.transfers[x].shipment != s) ==> db'.shipments[s] == db.shipments[s])
  }

  lemma SentRow(db: Db, id: Id, now: int, x: Id)
    requires References(db) && TransfersOk(db.transfers, db.shipments) && id < |db.trips| && Within(Manifest(db.links, id), |db.transfers|)
    requires x < |db.transfers|
    ensures TransferSent(db, OnManifest(db.links, id, x), now, Sent(Departed(db, id), Manifest(db.links, id), now), x)
  {
    hide OnManifest, TransfersOk, Carries;
    CarriedIffListed(db, Manifest(db.links, id), x);
  }

  lemma NotSent(db: Db, id: Id, now: int, s: Id)
    requires References(db) && id < |db.trips| && s < |db.shipments| && forall x: Id :: x < |db.transfers| ==> db.transfers[x].shipment != s
    ensures Sent(Departed(db, id), Manifest(db.links, id), now).shipments[s] == db.shipments[s]
  {
    hide OnManifest, Manifest;
    assert !Carries(db.transfers, Manifest(db.links, id), s);
  }

  lemma SentExactly(db: Db, id: Id, now: int)
    requires References(db) && TransfersOk(db.transfers, db.shipments) && id < |db.trips| && Within(Manifest(db.links, id), |db.transfers|)
    ensures DispatchedExactly(db, id, now, Sent(Departed(db, id), Manifest(db.links, id), now))
  {
    hide OnManifest, TransfersOk, Carries, Manifest, TransferSent;
    var db' := Sent(Departed(db, id), Manifest(db.links, id), now);
    forall x: Id | x < |db.transfers| ensures TransferSent(db, OnManifest(db.links, id, x), now, db', x) { SentRow(db, id, now, x); }
    forall s: Id | s < |db.shipments| && (forall x: Id :: x < |db.transfers| ==> db.transfers[x].shipment != s) ensures db'.shipments[s] == db.shipments[s] {
      NotSent(db, id, now, s);
    }
  }

  /** In every reachable state a READY trip can be refused dispatch only because
      its vehicle is out with another trip or an endpoint warehouse is closed. */
  lemma DispatchExact(db: Db, id: Id, now: int)
    requires R.Reachable(db) && id < |db.trips| && db.trips[id].status == Ready
    ensures References(db)
    ensures DispatchTrip(db, id, now).1 ==
            if OutWithAnother(db.trips, id) then Refused(VehicleNotAvailable)
            else if !EndpointsOpen(db, id) then Refused(WarehouseInactive)
            else Done
    ensures DispatchTrip(db, id, now).1 == Done ==> DispatchedExactly(db, id, now, DispatchTrip(db, id, now).0)
  {
    hide TripsOk, SchedulesDisjoint, LinksOk, CapacityOk, VehiclesOk, RoutesOk, TransfersOk, ShipmentsOk,
         DriversOk, TasksOk, AttemptsOk, LedgersOk,
      OutWithAnother, ExecutionError, DispatchedExactly, Sent, Departed, Manifest, DispatchAll, R.Reachable;
    R.ReachableInv(db);
    ReadyGuards(db, id);
    if ExecutionError(db, id) == None {
      DispatchGoesThrough(db, id, now);
      PassedManifest(db, id);
      SentExactly(db, id, now);
    }
  }

  /** Preparing a planned trip checks seven things that can fail; the overlap,
      dispatchability and weight checks after them never do. */
  lemma PrepareExact(db: Db, id: Id, routed: bool)
    requires R.Reachable(db) && id < |db.trips| && db.trips[id].status == Planned
    ensures References(db)
    ensures var t := db.trips[id];
            PrepareTrip(db, id, routed).1 ==
            if t.schedule == None then Refused(ScheduleRequired)
            else if !db.drivers[t.driver].userActive || db.drivers[t.driver].status == Suspended then Refused(DriverInactive)
            else if LineHaul !in db.drivers[t.driver].capabilities then Refused(CapabilityRequired)
            else if DriverAssigned(db.assignments, t.driver) then Refused(DriverHasActiveAssignment)
            else if db.vehicles[t.vehicle].status != Available then Refused(VehicleNotAvailable)
            else if !EndpointsOpen(db, id) then Refused(WarehouseInactive)
            else if !HasManifest(db.links, id) then Refused(ManifestEmpty)
            else Done
  {
    hide SchedulesDisjoint, LinksOk, CapacityOk, VehiclesOk, RoutesOk, TransfersOk, ShipmentsOk, DriversOk,
         TasksOk, AttemptsOk, LedgersOk,
      BookingError, ManifestError, Manifest, ManifestGrams, CapacityError, DriverAssigned, HasManifest, R.Reachable;
    R.ReachableInv(db);
    assert TripOk(db.trips[id]);
    if db.trips[id].schedule.Some? { NeverBooked(db.trips, id); }
    NeverUndispatchable(db, id);
    NeverOverweight(db, id);
    ManifestNonEmpty(db.links, id);
  }

  /** Arrival never fails for a trip on the road. */
  lemma ArriveExact(db: Db, id: Id)
    requires R.Reachable(db) && id < |db.trips| && db.trips[id].status == Underway
    ensures References(db) && ArriveTrip(db, id).1 == Done
    ensures ArriveTrip(db, id).0.vehicles[db.trips[id].vehicle].status == Available
  {
    hide TripsOk, SchedulesDisjoint, LinksOk, CapacityOk, RoutesOk, TransfersOk, ShipmentsOk, DriversOk, TasksOk,
         AttemptsOk, LedgersOk, Manifest, R.Reachable;
    R.ReachableInv(db);
    KeepTrips.FrozenHasManifest(db, id);
    ManifestNonEmpty(db.links, id);
  }

  /** Receiving at the right, open warehouse: the route-mismatch and shipment
      status guards never fire. */
  lemma ReceiveExact(db: Db, transfer: Id, cutover: Option<int>, now: int)
    requires R.Reachable(db) && transfer < |db.transfers|
    ensures References(db)
    ensures var t := db.transfers[transfer];
            var owner := ActiveLink(db.links, transfer);
            ReceiveTransfer(db, t.to, transfer, cutover, now).1 ==
            if t.status == Completed then Unchanged
            else if !db.warehouses[t.to].active then Refused(NotFound)
            else if t.status == Waiting then Refused(TransferNotInTransit)
            else if owner.Some? then if db.trips[db.links[owner.value].trip].status == Arrived then Done else Refused(TripNotArrived)
            else if Enforced(cutover, now) && !LegacyStandalone(cutover, t.dispatchedAt) then Refused(LegacyReceiveNotEligible)
            else Done
  {
    hide TripsOk, SchedulesDisjoint, LinksOk, CapacityOk, VehiclesOk, RoutesOk, TransfersOk, ShipmentsOk,
         DriversOk, TasksOk, AttemptsOk, LedgersOk, R.Reachable;
    R.ReachableInv(db);
    WaitingIsAtOrigin(db.transfers, db.shipments, transfer);
    OwnerAgrees(db, transfer);
  }

  lemma OwnerAgrees(db: Db, transfer: Id)
    requires References(db) && LinksOk(db.trips, db.links, db.transfers) && transfer < |db.transfers|
    ensures var owner := ActiveLink(db.links, transfer);
            owner.Some? ==>
              && db.trips[db.links[owner.value].trip].origin == db.transfers[transfer].from
              && db.trips[db.links[owner.value].trip].destination == db.transfers[transfer].to
  {
    var owner := ActiveLink(db.links, transfer);
    if owner.Some? { assert LinkOk(db.trips, db.transfers, db.links[owner.value]); }
  }

  /** The AT_DESTINATION_WAREHOUSE branches of transfer creation and dispatch
      are unreachable: a transfer is only ever created, and only ever leaves,
      for a shipment still at its origin. */
  lemma TransfersLeaveFromOrigin(db: Db, key: Id, warehouse: Id, shipment: Id, to: Id, transfer: Id, owner: Option<Id>, cutover: Option<int>, now: int)
    requires R.Reachable(db)
    ensures References(db)
    ensures CreateTransfer(db, key, warehouse, shipment, to).1 == Done ==> db.shipments[shipment].status == AtOrigin
    ensures DispatchTransfer(db, warehouse, transfer, owner, cutover, now).1 == Done ==>
              db.shipments[db.transfers[transfer].shipment].status == AtOrigin
  {
    hide TripsOk, SchedulesDisjoint, LinksOk, CapacityOk, VehiclesOk, RoutesOk, TransfersOk, DriversOk, TasksOk,
         AttemptsOk, LedgersOk, R.Reachable;
    R.ReachableInv(db);
    if transfer < |db.transfers| { WaitingIsAtOrigin(db.transfers, db.shipments, transfer); }
    if shipment < |db.shipments| { assert ShipmentOk(db.shipments[shipment]); }
  }

  // ----- couplings -----

  /** Trip, manifest, transfer and vehicle move together. */
  lemma NetworkCoupling(db: Db)
    requires R.Reachable(db)
    ensures References(db)
    ensures forall t: Id, x: Id :: t < |db.trips| && OnManifest(db.links, t, x) ==>
              && x < |db.transfers| && Coupled(db.trips[t].status, db.transfers[x].status)
              && db.transfers[x].from == db.trips[t].origin && db.transfers[x].to == db.trips[t].destination
    ensures forall t: Id, u: Id, x: Id :: OnManifest(db.links, t, x) && OnManifest(db.links, u, x) ==> t == u
    ensures forall t: Id :: t < |db.trips| && FrozenTrip(db.trips[t].status) ==> HasManifest(db.links, t)
    ensures forall v: Id :: v < |db.vehicles| ==>
              (db.vehicles[v].status == InUse <==> exists t: Id :: t < |db.trips| && db.trips[t].vehicle == v && db.trips[t].status == Underway)
    ensures forall t: Id, u: Id :: t < |db.trips| && u < |db.trips| && t != u && db.trips[t].status == db.trips[u].status == Underway ==>
              db.trips[t].vehicle != db.trips[u].vehicle
  {
    hide TripsOk, SchedulesDisjoint, LinksOk, CapacityOk, VehiclesOk, RoutesOk, TransfersOk, ShipmentsOk,
         DriversOk, TasksOk, AttemptsOk, LedgersOk, R.Reachable;
    R.ReachableInv(db);
    ManifestCoupling(db);
    VehicleCoupling(db);
  }

  lemma ManifestCoupling(db: Db)
    requires References(db) && LinksOk(db.trips, db.links, db.transfers)
    ensures forall t: Id, x: Id :: t < |db.trips| && OnManifest(db.links, t, x) ==>
              && x < |db.transfers| && Coupled(db.trips[t].status, db.transfers[x].status)
              && db.transfers[x].from == db.trips[t].origin && db.transfers[x].to == db.trips[t].destination
    ensures forall t: Id, u: Id, x: Id :: OnManifest(db.links, t, x) && OnManifest(db.links, u, x) ==> t == u
    ensures forall t: Id :: t < |db.trips| && FrozenTrip(db.trips[t].status) ==> HasManifest(db.links, t)
  {
    forall t: Id, x: Id | t < |db.trips| && OnManifest(db.links, t, x)
      ensures x < |db.transfers| && Coupled(db.trips[t].status, db.transfers[x].status)
      ensures x < |db.transfers| && db.transfers[x].from == db.trips[t].origin && db.transfers[x].to == db.trips[t].destination
    {
      var i :| 0 <= i < |db.links| && db.links[i] == Link(t, x, true);
      assert LinkOk(db.trips, db.transfers, db.links[i]);
    }
  }

  lemma VehicleCoupling(db: Db)
    requires References(db) && VehiclesOk(db.trips, db.vehicles)
    ensures forall v: Id :: v < |db.vehicles| ==>
              (db.vehicles[v].status == InUse <==> exists t: Id :: t < |db.trips| && db.trips[t].vehicle == v && db.trips[t].status == Underway)
    ensures forall t: Id, u: Id :: t < |db.trips| && u < |db.trips| && t != u && db.trips[t].status == db.trips[u].status == Underway ==>
              db.trips[t].vehicle != db.trips[u].vehicle
  {
  }

  /** Each shipment has at most one transfer, is in transit exactly while that
      transfer is, and stands at its destination once at a destination. */
  lemma ShipmentTransferCoupling(db: Db)
    requires R.Reachable(db)
    ensures References(db)
    ensures forall t: Id, u: Id :: t < |db.transfers| && u < |db.transfers| && db.transfers[t].shipment == db.transfers[u].shipment ==> t == u
    ensures forall s: Id :: s < |db.shipments| ==>
              (db.shipments[s].status == InTransit <==> exists t: Id :: t < |db.transfers| && db.transfers[t].shipment == s && db.transfers[t].status == Moving)
    ensures forall t: Id :: t < |db.transfers| && db.transfers[t].status == Waiting ==>
              var s := db.shipments[db.transfers[t].shipment];
              s.status == AtOrigin && s.current == Some(db.transfers[t].from) == s.origin && s.destination == Some(db.transfers[t].to)
    ensures forall s: Id :: s < |db.shipments| && db.shipments[s].status == AtDestination ==>
              db.shipments[s].current.Some? && db.shipments[s].current == db.shipments[s].destination
  {
    hide TripsOk, SchedulesDisjoint, LinksOk, CapacityOk, VehiclesOk, RoutesOk, TransfersOk, DriversOk, TasksOk,
         AttemptsOk, LedgersOk, R.Reachable;
    R.ReachableInv(db);
    OneTransferEach(db);
  }

  lemma OneTransferEach(db: Db)
    requires References(db) && TransfersOk(db.transfers, db.shipments)
    ensures forall t: Id, u: Id :: t < |db.transfers| && u < |db.transfers| && db.transfers[t].shipment == db.transfers[u].shipment ==> t == u
    ensures forall s: Id :: s < |db.shipments| ==>
              (db.shipments[s].status == InTransit <==> exists t: Id :: t < |db.transfers| && db.transfers[t].shipment == s && db.transfers[t].status == Moving)
    ensures forall t: Id :: t < |db.transfers| ==> TransferOk(db.transfers[t], db.shipments[db.transfers[t].shipment])
  {
    forall t: Id | t < |db.transfers| ensures TransferOk(db.transfers[t], db.shipments[db.transfers[t].shipment]) {
    }
  }

  predicate Rivals(a: Trip, b: Trip) {
    && (a.driver == b.driver || a.vehicle == b.vehicle)
    && ActiveTrip(a.status) && ActiveTrip(b.status) && a.schedule.Some? && b.schedule.Some?
  }

  /** Active trips sharing a driver or a vehicle never overlap, and every
      executing trip holds a window. */
  lemma WindowsDisjoint(db: Db)
    requires R.Reachable(db)
    ensures forall t: Id :: t < |db.trips| && ExecutingTrip(db.trips[t].status) ==> db.trips[t].schedule.Some? && ValidWindow(db.trips[t].schedule.value)
    ensures forall t: Id, u: Id :: t < |db.trips| && u < |db.trips| && t != u && Rivals(db.trips[t], db.trips[u]) ==>
              db.trips[t].schedule.value.end <= db.trips[u].schedule.value.start || db.trips[u].schedule.value.end <= db.trips[t].schedule.value.start
  {
    hide LinksOk, CapacityOk, VehiclesOk, RoutesOk, TransfersOk, ShipmentsOk, DriversOk, TasksOk, AttemptsOk,
         LedgersOk, R.Reachable;
    R.ReachableInv(db);
    forall t: Id, u: Id | t < |db.trips| && u < |db.trips| && t != u && Rivals(db.trips[t], db.trips[u])
      ensures !Overlap(db.trips[t].schedule.value, db.trips[u].schedule.value)
    {
      if t < u { assert Apart(db.trips[t], db.trips[u]); } else { assert Apart(db.trips[u], db.trips[t]); }
    }
  }

  // ----- runs -----

  /** From READY through ARRIVED the manifest is frozen, and the weight stored
      at preparation is still the sum of what the manifest carries, whatever
      happens in between. */
  lemma ManifestIsFrozen(db: Db, later: Db, id: Id)
    requires R.Reachable(db) && R.LeadsTo(db, later) && id < |db.trips| && FrozenTrip(db.trips[id].status)
    ensures id < |later.trips| && (later.trips[id].status == Withdrawn || FrozenTrip(later.trips[id].status))
    ensures FrozenTrip(later.trips[id].status) ==>
              && later.trips[id].preparedGrams == db.trips[id].preparedGrams
              && (forall x: Id :: OnManifest(later.links, id, x) <==> OnManifest(db.links, id, x))
              && var grams := ManifestGrams(later.links, Loads(later.transfers, later.shipments), id);
                 grams.Ok? && later.trips[id].preparedGrams == Some(grams.value)
                 && later.trips[id].preparedCapacity.Some? && grams.value <= later.trips[id].preparedCapacity.value
  {
    hide TripsOk, SchedulesDisjoint, LinksOk, CapacityOk, VehiclesOk, RoutesOk, TransfersOk, ShipmentsOk,
         DriversOk, TasksOk, AttemptsOk, LedgersOk,
      R.Reachable, R.LeadsTo, ManifestGrams, LedgerStep;
    R.ReachableInv(db);
    RunFollows(db, later);
    assert TripLater(db.trips[id], later.trips[id]);
    KeepTrips.FrozenLoad(later, id);
    assert ManifestStep(db, later, id);
  }

  lemma TripRowLater(db: Db, later: Db, id: Id)
    requires Inv(db) && R.LeadsTo(db, later) && id < |db.trips|
    ensures Inv(later) && id < |later.trips| && TripLater(db.trips[id], later.trips[id])
  {
    hide Inv, R.LeadsTo, LedgerStep, ManifestStep, TripLater, ShipmentLater, TransferLater, VehicleLater, DriverLater;
    RunFollows(db, later);
  }

  /** However much happened while the provider was asked, a reroute commits
      exactly when the trip row and the destination's place are still those its
      preflight read, and its position sample is still fresh. */
  lemma RerouteSawTheCurrentTrip(db: Db, id: Id, gps: Option<int>, asked: int, later: Db, now: int)
    requires R.Reachable(db) && R.LeadsTo(db, later)
    ensures References(db) && References(later)
    ensures var seen := ReroutePreflight(db, id, gps, asked);
            seen.Ok? ==>
              && id < |db.trips| && id < |later.trips|
              && (CommitReroute(later, id, seen.value, now).1 == Done <==>
                    && later.trips[id] == db.trips[id]
                    && later.warehouses[later.trips[id].destination].place == db.warehouses[db.trips[id].destination].place
                    && FreshSample(gps.value, now))
  {
    hide TripsOk, SchedulesDisjoint, LinksOk, CapacityOk, VehiclesOk, RoutesOk, TransfersOk, ShipmentsOk,
         DriversOk, TasksOk, AttemptsOk, LedgersOk, R.LeadsTo, R.Reachable;
    R.ReachableInv(db);
    R.LaterKeeps(db, later);
    if id < |db.trips| { TripRowLater(db, later, id); }
  }

  /** One preflight commits at most once. */
  lemma RerouteOnce(db: Db, id: Id, seen: Preflight, now: int, later: Db, again: int)
    requires R.Reachable(db) && References(db) && CommitReroute(db, id, seen, now).1 == Done && R.LeadsTo(CommitReroute(db, id, seen, now).0, later)
    ensures References(later) && CommitReroute(later, id, seen, again).1.Refused?
  {
    hide TripsOk, SchedulesDisjoint, LinksOk, CapacityOk, VehiclesOk, RoutesOk, TransfersOk, ShipmentsOk,
         DriversOk, TasksOk, AttemptsOk, LedgersOk, R.LeadsTo, R.Reachable;
    R.ReachableInv(db);
    KeepTrips.RerouteKeeps(db, id, seen, now);
    TripRowLater(CommitReroute(db, id, seen, now).0, later, id);
  }

  lemma {:induction false} RouteVersionExists(routes: seq<Route>, trip: Id, n: nat) returns (r: nat)
    requires forall i :: 0 <= i < |routes| ==> routes[i].version == CountRoutes(routes[..i], routes[i].trip) + 1
    requires 1 <= n <= CountRoutes(routes, trip)
    ensures r < |routes| && routes[r].trip == trip && routes[r].version == n
    decreases |routes|
  {
    var m := |routes| - 1;
    if routes[m].trip == trip && CountRoutes(routes, trip) == n {
      r := m;
    } else {
      forall i | 0 <= i < m ensures routes[..m][i].version == CountRoutes(routes[..m][..i], routes[..m][i].trip) + 1 {
        assert routes[..m][..i] == routes[..i];
      }
      r := RouteVersionExists(routes[..m], trip, n);
    }
  }

  lemma {:induction false} CountGrows(routes: seq<Route>, trip: Id, i: nat, j: nat)
    requires i <= j <= |routes|
    ensures CountRoutes(routes[..i], trip) <= CountRoutes(routes[..j], trip)
    ensures i < j && routes[i].trip == trip ==> CountRoutes(routes[..i], trip) < CountRoutes(routes[..j], trip)
    decreases j - i
  {
    if i < j {
      assert routes[..j][..j - 1] == routes[..j - 1];
      CountGrows(routes, trip, i, j - 1);
    }
  }

  predicate HasVersion(routes: seq<Route>, trip: Id, n: nat) {
    exists r :: 0 <= r < |routes| && routes[r].trip == trip && routes[r].version == n
  }

  /** A trip's routes carry the versions 1..n, each once and in order, and its
      current route is the newest. */
  lemma RouteVersions(db: Db, trip: Id)
    requires R.Reachable(db) && trip < |db.trips|
    ensures forall i: Id, j: Id :: i < j < |db.routes| && db.routes[i].trip == trip && db.routes[j].trip == trip ==> db.routes[i].version < db.routes[j].version
    ensures forall n: nat :: HasVersion(db.routes, trip, n) <==> 1 <= n <= CountRoutes(db.routes, trip)
    ensures db.trips[trip].route.Some? ==>
              && db.trips[trip].route.value < |db.routes| && db.routes[db.trips[trip].route.value].trip == trip
              && db.routes[db.trips[trip].route.value].version == CountRoutes(db.routes, trip)
  {
    hide TripsOk, SchedulesDisjoint, LinksOk, CapacityOk, VehiclesOk, TransfersOk, ShipmentsOk, DriversOk,
         TasksOk, AttemptsOk, LedgersOk, References, R.Reachable;
    R.ReachableInv(db);
    VersionsInOrder(db.routes, trip);
  }

  lemma VersionsInOrder(routes: seq<Route>, trip: Id)
    requires forall i :: 0 <= i < |routes| ==> routes[i].version == CountRoutes(routes[..i], routes[i].trip) + 1
    ensures forall i: Id, j: Id :: i < j < |routes| && routes[i].trip == trip && routes[j].trip == trip ==> routes[i].version < routes[j].version
    ensures forall n: nat :: HasVersion(routes, trip, n) <==> 1 <= n <= CountRoutes(routes, trip)
  {
    forall i: Id, j: Id | i < j < |routes| && routes[i].trip == trip && routes[j].trip == trip ensures routes[i].version < routes[j].version {
      CountGrows(routes, trip, i, j);
    }
    forall n: nat ensures HasVersion(routes, trip, n) <==> 1 <= n <= CountRoutes(routes, trip) {
      if 1 <= n <= CountRoutes(routes, trip) {
        var r := RouteVersionExists(routes, trip, n);
      }
      if HasVersion(routes, trip, n) {
        var r :| 0 <= r < |routes| && routes[r].trip == trip && routes[r].version == n;
        CountGrows(routes, trip, r, |routes|);
        assert routes[..|routes|] == routes;
      }
    }
  }
}

/** Every line-haul command keeps the joint invariant. */
module KeepTrips {
  import opened Rows
  import opened Policies
  import opened Tables
  import opened TransferCommands
  import opened TripCommands
  import opened Invariants
  import opened TripRows

  lemma ScheduleKeeps(db: Db, id: Id, w: Window, reschedule: bool, expectedVersion: int)
    requires Inv(db)
    ensures Inv(SetSchedule(db, id, w, reschedule, expectedVersion).0)
  {
    hide SchedulesDisjoint, LinksOk, CapacityOk, VehiclesOk, RoutesOk, TransfersOk, ShipmentsOk, DriversOk,
         TasksOk, AttemptsOk, LedgersOk;
    if SetSchedule(db, id, w, reschedule, expectedVersion).1 == Done {
      var t := db.trips[id];
      var u := t.(schedule := Some(w), version := t.version + 1);
      UnbookedWindowIsApart(db.trips, Some(id), u);
      TripRowKeepsSchedules(db.trips, id, u);
      QuietTripRow(db, id, u);
    }
  }

  lemma UnscheduleKeeps(db: Db, id: Id, expectedVersion: int)
    requires Inv(db)
    ensures Inv(Unschedule(db, id, expectedVersion).0)
  {
    hide SchedulesDisjoint, LinksOk, CapacityOk, VehiclesOk, RoutesOk, TransfersOk, ShipmentsOk, DriversOk,
         TasksOk, AttemptsOk, LedgersOk;
    if Unschedule(db, id, expectedVersion).1 == Done {
      var t := db.trips[id];
      var u := t.(schedule := None, version := t.version + 1);
      SameWindowStaysApart(db.trips, id, u);
      TripRowKeepsSchedules(db.trips, id, u);
      QuietTripRow(db, id, u);
    }
  }

  /** A planned trip whose row changes without leaving PLANNED. */
  lemma QuietTripRow(db: Db, id: Id, u: Trip)
    requires Inv(db) && id < |db.trips| && SameLeg(db.trips[id], u)
    requires u.status == db.trips[id].status == Planned && u.route == db.trips[id].route && TripOk(u)
    ensures var trips := db.trips[id := u];
            && TripsOk(trips) && LinksOk(trips, db.links, db.transfers)
            && CapacityOk(trips, db.vehicles, db.links, Loads(db.transfers, db.shipments))
            && VehiclesOk(trips, db.vehicles) && RoutesOk(trips, db.routes) && DriversOk(db.drivers, trips, db.assignments)
  {
    hide LinksOk, VehiclesOk, RoutesOk, TransfersOk, ShipmentsOk, DriversOk, TasksOk, AttemptsOk, LedgersOk;
    TripRowKeepsTrips(db.trips, id, u);
    TripRowKeepsLinks(db.trips, db.links, db.transfers, id, u);
    TripRowKeepsCapacity(db.trips, db.vehicles, db.links, Loads(db.transfers, db.shipments), id, u);
    TripRowKeepsVehicles(db.trips, db.vehicles, id, u);
    TripRowKeepsRoutes(db.trips, db.routes, id, u);
    TripRowKeepsDrivers(db.drivers, db.trips, db.assignments, id, u);
  }

  lemma PrepareKeeps(db: Db, id: Id, routed: bool)
    requires Inv(db)
    ensures Inv(PrepareTrip(db, id, routed).0)
  {
    hide SchedulesDisjoint, LinksOk, CapacityOk, VehiclesOk, RoutesOk, TransfersOk, ShipmentsOk, DriversOk,
         TasksOk, AttemptsOk, LedgersOk,
      ExecutionError, Manifest, ManifestGrams, DriverError, CapacityError, DriverAssigned;
    if id < |db.trips| { PassedChecks(db, id); }
    var db' := PrepareTrip(db, id, routed).0;
    if PrepareTrip(db, id, routed).1 == Done {
      var t := db.trips[id];
      var u := db'.trips[id];
      WithinCapacity(db, id);
      SameWindowStaysApart(db.trips, id, u);
      TripRowKeepsSchedules(db.trips, id, u);
      TripRowKeepsTrips(db.trips, id, u);
      ManifestNonEmpty(db.links, id);
      TripRowKeepsLinks(db.trips, db.links, db.transfers, id, u);
      TripRowKeepsCapacity(db.trips, db.vehicles, db.links, Loads(db.transfers, db.shipments), id, u);
      TripRowKeepsVehicles(db.trips, db.vehicles, id, u);
      TripRowKeepsDrivers(db.drivers, db.trips, db.assignments, id, u);
      PlannedHasNoRoute(db.trips, db.routes, id);
      if u.route == None { TripRowKeepsRoutes(db.trips, db.routes, id, u); } else { RouteAppended(db.trips, db.routes, id, u, 1); }
    }
  }

  lemma PlannedHasNoRoute(trips: seq<Trip>, routes: seq<Route>, id: Id)
    requires RoutesOk(trips, routes) && id < |trips| && trips[id].status == Planned
    ensures trips[id].route == None && CountRoutes(routes, id) == 0
  {
  }

  /** What a trip has shown once its execution checks pass. */
  lemma PassedChecks(db: Db, id: Id)
    requires References(db) && id < |db.trips|
    ensures ExecutionError(db, id) == None ==>
              var t := db.trips[id];
              var grams := ManifestGrams(db.links, Loads(db.transfers, db.shipments), id);
              && t.schedule.Some? && ValidWindow(t.schedule.value) && |Manifest(db.links, id)| > 0
              && DriverError(db.drivers[t.driver]) == None && !DriverAssigned(db.assignments, t.driver)
              && db.vehicles[t.vehicle].status == Available
              && grams.Ok? && CapacityError(grams.value, db.vehicles[t.vehicle].capacity) == None
  {
    hide BookingError, ManifestError, Manifest, ManifestGrams, DriverError, CapacityError, DriverAssigned;
  }

  lemma WithinCapacity(db: Db, id: Id)
    requires References(db) && id < |db.trips|
    ensures var t := db.trips[id];
            var grams := ManifestGrams(db.links, Loads(db.transfers, db.shipments), id);
            grams.Ok? && CapacityError(grams.value, db.vehicles[t.vehicle].capacity) == None ==> grams.value <= db.vehicles[t.vehicle].capacity
  {
  }

  lemma ArriveKeeps(db: Db, id: Id)
    requires Inv(db)
    ensures Inv(ArriveTrip(db, id).0)
  {
    hide SchedulesDisjoint, LinksOk, CapacityOk, VehiclesOk, RoutesOk, TransfersOk, ShipmentsOk, DriversOk,
         TasksOk, AttemptsOk, LedgersOk;
    var db' := ArriveTrip(db, id).0;
    if ArriveTrip(db, id).1 == Done {
      var t := db.trips[id];
      var u := db'.trips[id];
      SameWindowStaysApart(db.trips, id, u);
      TripRowKeepsSchedules(db.trips, id, u);
      TripRowKeepsTrips(db.trips, id, u);
      ManifestNonEmpty(db.links, id);
      TripRowKeepsLinks(db.trips, db.links, db.transfers, id, u);
      TripRowKeepsDrivers(db.drivers, db.trips, db.assignments, id, u);
      TripRowKeepsRoutes(db.trips, db.routes, id, u);
      ArriveKeepsVehicles(db, id);
      ArriveKeepsCapacity(db, id);
    }
  }

  lemma ArriveKeepsVehicles(db: Db, id: Id)
    requires References(db) && VehiclesOk(db.trips, db.vehicles) && ArriveTrip(db, id).1 == Done
    ensures var db' := ArriveTrip(db, id).0; VehiclesOk(db'.trips, db'.vehicles)
  {
    hide VehiclesOk, Manifest;
    var t := db.trips[id];
    var v := db.vehicles[t.vehicle];
    ArrivedRowKeepsVehicles(db.trips, db.vehicles, id, t.(status := Arrived, version := t.version + 1),
                            v.(status := Available, version := v.version + 1));
  }

  lemma ArrivedRowKeepsVehicles(trips: seq<Trip>, vehicles: seq<Vehicle>, id: Id, u: Trip, w: Vehicle)
    requires VehiclesOk(trips, vehicles) && id < |trips| && trips[id].status == Underway && trips[id].vehicle < |vehicles|
    requires u.status == Arrived && u.vehicle == trips[id].vehicle && w.status == Available
    ensures VehiclesOk(trips[id := u], vehicles[u.vehicle := w])
  {
    var trips', vehicles' := trips[id := u], vehicles[u.vehicle := w];
    forall v | 0 <= v < |vehicles'| && vehicles'[v].status == InUse
      ensures exists t :: 0 <= t < |trips'| && trips'[t].vehicle == v && trips'[t].status == Underway
    {
      var t :| 0 <= t < |trips| && trips[t].vehicle == v && trips[t].status == Underway;
      assert trips'[t].vehicle == v && trips'[t].status == Underway;
    }
  }

  lemma ArriveKeepsCapacity(db: Db, id: Id)
    requires References(db) && CapacityOk(db.trips, db.vehicles, db.links, Loads(db.transfers, db.shipments)) && ArriveTrip(db, id).1 == Done
    ensures var db' := ArriveTrip(db, id).0; CapacityOk(db'.trips, db'.vehicles, db'.links, Loads(db'.transfers, db'.shipments))
  {
  }

  lemma RerouteKeeps(db: Db, id: Id, seen: Preflight, now: int)
    requires Inv(db)
    ensures Inv(CommitReroute(db, id, seen, now).0)
  {
    hide SchedulesDisjoint, LinksOk, CapacityOk, VehiclesOk, RoutesOk, TransfersOk, ShipmentsOk, DriversOk,
         TasksOk, AttemptsOk, LedgersOk;
    var db' := CommitReroute(db, id, seen, now).0;
    if CommitReroute(db, id, seen, now).1 == Done {
      var u := db'.trips[id];
      SameWindowStaysApart(db.trips, id, u);
      TripRowKeepsSchedules(db.trips, id, u);
      TripRowKeepsTrips(db.trips, id, u);
      FrozenHasManifest(db, id);
      TripRowKeepsLinks(db.trips, db.links, db.transfers, id, u);
      FrozenLoad(db, id);
      TripRowKeepsCapacity(db.trips, db.vehicles, db.links, Loads(db.transfers, db.shipments), id, u);
      TripRowKeepsVehicles(db.trips, db.vehicles, id, u);
      TripRowKeepsDrivers(db.drivers, db.trips, db.assignments, id, u);
      CurrentRouteIsNewest(db.trips, db.routes, id);
      RouteAppended(db.trips, db.routes, id, u, db.routes[seen.route].version + 1);
    }
  }

  lemma CurrentRouteIsNewest(trips: seq<Trip>, routes: seq<Route>, id: Id)
    requires RoutesOk(trips, routes) && id < |trips| && trips[id].route.Some?
    ensures trips[id].route.value < |routes| && routes[trips[id].route.value].version == CountRoutes(routes, id)
    ensures trips[id].status != Planned
  {
  }

  lemma FrozenHasManifest(db: Db, id: Id)
    requires LinksOk(db.trips, db.links, db.transfers) && id < |db.trips| && FrozenTrip(db.trips[id].status)
    ensures HasManifest(db.links, id)
  {
  }

  lemma FrozenLoad(db: Db, id: Id)
    requires References(db) && CapacityOk(db.trips, db.vehicles, db.links, Loads(db.transfers, db.shipments)) && id < |db.trips|
    ensures TripLoadOk(db.trips[id], ManifestGrams(db.links, Loads(db.transfers, db.shipments), id), db.vehicles[db.trips[id].vehicle].capacity)
  {
  }

  lemma CancelKeeps(db: Db, id: Id)
    requires Inv(db)
    ensures Inv(CancelTrip(db, id).0)
  {
    hide SchedulesDisjoint, LinksOk, CapacityOk, VehiclesOk, RoutesOk, TransfersOk, ShipmentsOk, DriversOk,
         TasksOk, AttemptsOk, LedgersOk;
    var db' := CancelTrip(db, id).0;
    if CancelTrip(db, id).1 == Done {
      var u := db'.trips[id];
      SameWindowStaysApart(db.trips, id, u);
      TripRowKeepsSchedules(db.trips, id, u);
      TripRowKeepsTrips(db.trips, id, u);
      TripRowKeepsVehicles(db.trips, db.vehicles, id, u);
      TripRowKeepsDrivers(db.drivers, db.trips, db.assignments, id, u);
      TripRowKeepsRoutes(db.trips, db.routes, id, u);
      CancelKeepsLinks(db.trips, db.links, db.transfers, id, u);
      CancelKeepsCapacity(db.trips, db.vehicles, db.links, Loads(db.transfers, db.shipments), id, u);
    }
  }

  lemma CancelKeepsLinks(trips: seq<Trip>, links: seq<Link>, transfers: seq<Transfer>, id: Id, u: Trip)
    requires LinksOk(trips, links, transfers) && id < |trips| && u.status == Withdrawn
    ensures LinksOk(trips[id := u], WithoutTrip(links, id), transfers)
  {
    var trips' := trips[id := u];
    var links' := WithoutTrip(links, id);
    forall i | 0 <= i < |links'| ensures LinkOk(trips', transfers, links'[i]) {
      assert LinkOk(trips, transfers, links[i]);
    }
    forall t | 0 <= t < |trips'| && FrozenTrip(trips'[t].status) ensures HasManifest(links', t) {
      var i :| 0 <= i < |links| && links[i].active && links[i].trip == t;
      assert links'[i].active && links'[i].trip == t;
    }
  }

  lemma CancelKeepsCapacity(trips: seq<Trip>, vehicles: seq<Vehicle>, links: seq<Link>, loads: seq<int>, id: Id, u: Trip)
    requires CapacityOk(trips, vehicles, links, loads) && id < |trips| && u.status == Withdrawn
    ensures CapacityOk(trips[id := u], vehicles, WithoutTrip(links, id), loads)
  {
    var links' := WithoutTrip(links, id);
    forall t: Id | t != id ensures ManifestGrams(links', loads, t) == ManifestGrams(links, loads, t) {
      GramsDependOnOwnLinks(links, links', loads, t);
    }
  }

  // ----- manifests -----

  lemma AssignKeeps(db: Db, id: Id, transfer: Id)
    requires Inv(db)
    ensures Inv(AssignTransfer(db, id, transfer).0)
  {
    hide SchedulesDisjoint, LinksOk, CapacityOk, VehiclesOk, RoutesOk, TransfersOk, ShipmentsOk, DriversOk,
         TasksOk, AttemptsOk, LedgersOk;
    var db' := AssignTransfer(db, id, transfer).0;
    if AssignTransfer(db, id, transfer).1 == Done {
      AppendKeepsLinks(db.trips, db.links, db.transfers, id, transfer);
      AppendKeepsCapacity(db.trips, db.vehicles, db.links, Loads(db.transfers, db.shipments), id, transfer);
    }
  }

  lemma AppendKeepsLinks(trips: seq<Trip>, links: seq<Link>, transfers: seq<Transfer>, id: Id, transfer: Id)
    requires LinksOk(trips, links, transfers) && id < |trips| && transfer < |transfers|
    requires trips[id].status == Planned && transfers[transfer].status == Waiting && ActiveLink(links, transfer) == None
    requires transfers[transfer].from == trips[id].origin && transfers[transfer].to == trips[id].destination
    ensures LinksOk(trips, links + [Link(id, transfer, true)], transfers)
  {
    var links' := links + [Link(id, transfer, true)];
    forall i | 0 <= i < |links'| ensures LinkOk(trips, transfers, links'[i]) {
      if i < |links| { assert LinkOk(trips, transfers, links[i]); }
    }
    forall t | 0 <= t < |trips| && FrozenTrip(trips[t].status) ensures HasManifest(links', t) {
      var i :| 0 <= i < |links| && links[i].active && links[i].trip == t;
      assert links'[i].active && links'[i].trip == t;
    }
  }

  lemma AppendKeepsCapacity(trips: seq<Trip>, vehicles: seq<Vehicle>, links: seq<Link>, loads: seq<int>, id: Id, transfer: Id)
    requires CapacityOk(trips, vehicles, links, loads) && id < |trips| && transfer < |loads| && trips[id].vehicle < |vehicles|
    requires trips[id].status == Planned && SafeWeight(loads[transfer])
    requires ManifestGrams(links, loads, id).Ok?
    requires CapacityError(ManifestGrams(links, loads, id).value + loads[transfer], vehicles[trips[id].vehicle].capacity) == None
    ensures CapacityOk(trips, vehicles, links + [Link(id, transfer, true)], loads)
  {
    hide ManifestGrams;
    var links' := links + [Link(id, transfer, true)];
    forall t | 0 <= t < |trips| && trips[t].vehicle < |vehicles|
      ensures TripLoadOk(trips[t], ManifestGrams(links', loads, t), vehicles[trips[t].vehicle].capacity)
    {
      GramsOfAppend(links, loads, t, Link(id, transfer, true));
      assert TripLoadOk(trips[t], ManifestGrams(links, loads, t), vehicles[trips[t].vehicle].capacity);
    }
  }

  lemma RemoveKeeps(db: Db, id: Id, transfer: Id)
    requires Inv(db)
    ensures Inv(RemoveTransfer(db, id, transfer).0)
  {
    hide SchedulesDisjoint, LinksOk, CapacityOk, VehiclesOk, RoutesOk, TransfersOk, ShipmentsOk, DriversOk,
         TasksOk, AttemptsOk, LedgersOk;
    if RemoveTransfer(db, id, transfer).1 == Done {
      var k := LinkOf(db.links, id, transfer).value;
      RemoveKeepsLinks(db.trips, db.links, db.transfers, id, k);
      RemoveKeepsCapacity(db.trips, db.vehicles, db.links, Loads(db.transfers, db.shipments), id, k);
    }
  }

  lemma RemoveKeepsLinks(trips: seq<Trip>, links: seq<Link>, transfers: seq<Transfer>, id: Id, k: Id)
    requires LinksOk(trips, links, transfers) && id < |trips| && trips[id].status == Planned && k < |links| && links[k].trip == id
    ensures LinksOk(trips, links[k := links[k].(active := false)], transfers)
  {
    var links' := links[k := links[k].(active := false)];
    forall i | 0 <= i < |links'| ensures LinkOk(trips, transfers, links'[i]) {
      assert LinkOk(trips, transfers, links[i]);
    }
    forall t | 0 <= t < |trips| && FrozenTrip(trips[t].status) ensures HasManifest(links', t) {
      var i :| 0 <= i < |links| && links[i].active && links[i].trip == t;
      assert links'[i].active && links'[i].trip == t;
    }
  }

  lemma RemoveKeepsCapacity(trips: seq<Trip>, vehicles: seq<Vehicle>, links: seq<Link>, loads: seq<int>, id: Id, k: Id)
    requires CapacityOk(trips, vehicles, links, loads) && id < |trips| && trips[id].status == Planned && k < |links| && links[k].trip == id
    ensures CapacityOk(trips, vehicles, links[k := links[k].(active := false)], loads)
  {
    var links' := links[k := links[k].(active := false)];
    forall t: Id ensures t != id ==> ManifestGrams(links', loads, t) == ManifestGrams(links, loads, t) {
      if t != id { GramsDependOnOwnLinks(links, links', loads, t); }
    }
    if ManifestGrams(links, loads, id).Ok? { GramsAfterRemoval(links, loads, id, k); }
  }

  // ----- creation -----

  lemma CreateTripKeeps(db: Db, c: NewTrip)
    requires Inv(db)
    ensures Inv(CreateTrip(db, c).0)
  {
    hide SchedulesDisjoint, LinksOk, CapacityOk, VehiclesOk, RoutesOk, TransfersOk, ShipmentsOk, DriversOk,
         TasksOk, AttemptsOk, LedgersOk;
    var db' := CreateTrip(db, c).0;
    if CreateTrip(db, c).1 == Done {
      assert References(db');
      NewTripKeepsSchedules(db, c);
      NewTripKeepsLinks(db, c);
      NewTripKeepsCapacity(db, c);
      NewTripKeepsVehicles(db.trips, db.vehicles, db'.trips[|db.trips|]);
      NewTripKeepsRoutes(db, db'.trips[|db.trips|]);
      NewTripKeepsDrivers(db.drivers, db.trips, db.assignments, db'.trips[|db.trips|]);
    }
  }

  lemma NewTripKeepsSchedules(db: Db, c: NewTrip)
    requires References(db) && SchedulesDisjoint(db.trips) && CreateTrip(db, c).1 == Done
    ensures SchedulesDisjoint(CreateTrip(db, c).0.trips)
  {
    var u := CreateTrip(db, c).0.trips[|db.trips|];
    if c.window.Some? {
      UnbookedWindowIsApart(db.trips, None, u);
    }
  }

  lemma NewTripKeepsLinks(db: Db, c: NewTrip)
    requires References(db) && LinksOk(db.trips, db.links, db.transfers) && CreateTrip(db, c).1 == Done
    ensures var db' := CreateTrip(db, c).0; LinksOk(db'.trips, db'.links, db'.transfers)
  {
    var db' := CreateTrip(db, c).0;
    forall i | 0 <= i < |db'.links| ensures LinkOk(db'.trips, db'.transfers, db'.links[i]) {
      if i < |db.links| {
        assert LinkOk(db.trips, db.transfers, db.links[i]);
      } else {
        assert CandidateTransferError(db, c, c.transfers[i - |db.links|]) == None;
      }
    }
    forall i, j | 0 <= i < j < |db'.links| && db'.links[i].active && db'.links[j].active
      ensures db'.links[i].transfer != db'.links[j].transfer
    {
      if j >= |db.links| {
        assert CandidateTransferError(db, c, c.transfers[j - |db.links|]) == None;
      }
    }
    forall t | 0 <= t < |db'.trips| && FrozenTrip(db'.trips[t].status) ensures HasManifest(db'.links, t) {
      assert HasManifest(db.links, t);
      var i :| 0 <= i < |db.links| && db.links[i].active && db.links[i].trip == t;
      assert db'.links[i].active && db'.links[i].trip == t;
    }
  }

  /** The links `create` writes weigh what it added up before writing them. */
  lemma {:induction false} NewManifestGrams(links: seq<Link>, loads: seq<int>, trip: Id, ids: seq<Id>)
    requires Within(ids, |loads|) && !HasManifest(links, trip)
    requires forall i :: 0 <= i < |ids| ==> SafeWeight(loads[ids[i]])
    requires Grams(loads, ids) <= MAX_CAPACITY_GRAMS
    ensures ManifestGrams(links + ManifestLinks(trip, ids), loads, trip) == Ok(Grams(loads, ids)) && Grams(loads, ids) >= 0
    ensures forall t: Id :: t != trip ==> ManifestGrams(links + ManifestLinks(trip, ids), loads, t) == ManifestGrams(links, loads, t)
  {
    if |ids| == 0 {
      assert links + ManifestLinks(trip, ids) == links;
      EmptyManifestWeighsNothing(links, loads, trip);
    } else {
      var n := |ids| - 1;
      var front := links + ManifestLinks(trip, ids[..n]);
      var last := Link(trip, ids[n], true);
      assert links + ManifestLinks(trip, ids) == front + [last];
      NewManifestGrams(links, loads, trip, ids[..n]);
      GramsOfAppend(front, loads, trip, last);
      forall t: Id ensures t != trip ==> ManifestGrams(front + [last], loads, t) == ManifestGrams(front, loads, t) {
        GramsOfAppend(front, loads, t, last);
      }
    }
  }

  lemma NewTripKeepsCapacity(db: Db, c: NewTrip)
    requires References(db) && CapacityOk(db.trips, db.vehicles, db.links, Loads(db.transfers, db.shipments)) && CreateTrip(db, c).1 == Done
    ensures var db' := CreateTrip(db, c).0; CapacityOk(db'.trips, db'.vehicles, db'.links, Loads(db'.transfers, db'.shipments))
  {
    var db' := CreateTrip(db, c).0;
    var loads := Loads(db.transfers, db.shipments);
    forall i | 0 <= i < |c.transfers| ensures SafeWeight(loads[c.transfers[i]]) {
      assert CandidateTransferError(db, c, c.transfers[i]) == None;
    }
    assert !HasManifest(db.links, |db.trips|);
    NewManifestGrams(db.links, loads, |db.trips|, c.transfers);
    assert Loads(db'.transfers, db'.shipments) == loads;
  }

  lemma NewTripKeepsVehicles(trips: seq<Trip>, vehicles: seq<Vehicle>, u: Trip)
    requires VehiclesOk(trips, vehicles) && u.status == Planned
    ensures VehiclesOk(trips + [u], vehicles)
  {
    forall v | 0 <= v < |vehicles| && vehicles[v].status == InUse
      ensures exists t :: 0 <= t < |trips + [u]| && (trips + [u])[t].vehicle == v && (trips + [u])[t].status == Underway
    {
      var t :| 0 <= t < |trips| && trips[t].vehicle == v && trips[t].status == Underway;
      assert (trips + [u])[t] == trips[t];
    }
  }

  lemma {:induction false} NoRoutesYet(routes: seq<Route>, trip: Id)
    requires forall r :: 0 <= r < |routes| ==> routes[r].trip != trip
    ensures CountRoutes(routes, trip) == 0
  {
    if |routes| > 0 { NoRoutesYet(routes[..|routes| - 1], trip); }
  }

  lemma NewTripKeepsRoutes(db: Db, u: Trip)
    requires References(db) && RoutesOk(db.trips, db.routes) && u.route == None
    ensures RoutesOk(db.trips + [u], db.routes)
  {
    NoRoutesYet(db.routes, |db.trips|);
  }

  lemma NewTripKeepsDrivers(drivers: seq<Driver>, trips: seq<Trip>, assignments: seq<Assignment>, u: Trip)
    requires DriversOk(drivers, trips, assignments) && u.status == Planned
    ensures DriversOk(drivers, trips + [u], assignments)
  {
  }

  // ----- vehicles -----

  lemma CreateVehicleKeeps(db: Db, capacity: int)
    requires Inv(db)
    ensures Inv(CreateVehicle(db, capacity).0)
  {
    hide TripsOk, SchedulesDisjoint, LinksOk, RoutesOk, TransfersOk, ShipmentsOk, DriversOk, TasksOk, AttemptsOk, LedgersOk;
  }

  lemma VehicleRowKeepsVehicles(trips: seq<Trip>, vehicles: seq<Vehicle>, v: Id, row: Vehicle)
    requires VehiclesOk(trips, vehicles) && v < |vehicles| && row.status == vehicles[v].status
    ensures VehiclesOk(trips, vehicles[v := row])
  {
  }

  lemma CarriesTrip(db: Db, vehicle: Id, capacity: int, t: Id)
    requires References(db) && t < |db.trips| && db.trips[t].vehicle == vehicle && ActiveTrip(db.trips[t].status)
    requires CarryingError(db.links, Loads(db.transfers, db.shipments), ActiveTrips(db.trips, vehicle), capacity) == None
    ensures var grams := ManifestGrams(db.links, Loads(db.transfers, db.shipments), t); grams.Ok? && grams.value <= capacity
  {
    hide References, ManifestGrams, CarryingError;
    assert t in ActiveTrips(db.trips, vehicle);
  }

  /** A vehicle whose capacity changes while all it carries still fits. */
  lemma NewCapacityKeeps(db: Db, vehicle: Id, capacity: int)
    requires References(db) && vehicle < |db.vehicles| && ValidCapacity(capacity)
    requires CapacityOk(db.trips, db.vehicles, db.links, Loads(db.transfers, db.shipments)) && VehiclesOk(db.trips, db.vehicles)
    requires CarryingError(db.links, Loads(db.transfers, db.shipments), ActiveTrips(db.trips, vehicle), capacity) == None
    ensures var v := db.vehicles[vehicle];
            var vehicles := db.vehicles[vehicle := v.(capacity := capacity, version := v.version + 1)];
            CapacityOk(db.trips, vehicles, db.links, Loads(db.transfers, db.shipments)) && VehiclesOk(db.trips, vehicles)
  {
    hide References, ManifestGrams, VehiclesOk, CarryingError, ActiveTrips;
    var row := db.vehicles[vehicle].(capacity := capacity, version := db.vehicles[vehicle].version + 1);
    VehicleRowKeepsVehicles(db.trips, db.vehicles, vehicle, row);
    forall t: Id | t < |db.trips| && db.trips[t].vehicle == vehicle && ActiveTrip(db.trips[t].status)
      ensures var grams := ManifestGrams(db.links, Loads(db.transfers, db.shipments), t); grams.Ok? && grams.value <= capacity
    {
      CarriesTrip(db, vehicle, capacity, t);
    }
  }

  lemma UpdateCapacityKeeps(db: Db, vehicle: Id, capacity: int, hints: seq<Id>)
    requires Inv(db)
    ensures Inv(UpdateCapacity(db, vehicle, capacity, hints).0)
  {
    hide TripsOk, SchedulesDisjoint, LinksOk, RoutesOk, TransfersOk, ShipmentsOk, DriversOk, TasksOk, AttemptsOk, LedgersOk,
         CapacityOk, VehiclesOk, CarryingError, ActiveTrips;
    if UpdateCapacity(db, vehicle, capacity, hints).1 == Done { NewCapacityKeeps(db, vehicle, capacity); }
  }

  lemma SetVehicleStatusKeeps(db: Db, vehicle: Id, status: VehicleStatus)
    requires Inv(db)
    ensures Inv(SetVehicleStatus(db, vehicle, status).0)
  {
    hide TripsOk, SchedulesDisjoint, LinksOk, RoutesOk, TransfersOk, ShipmentsOk, DriversOk, TasksOk, AttemptsOk, LedgersOk;
  }
}

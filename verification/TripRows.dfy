/** How rewriting, adding or removing rows of the line-haul tables affects each
    part of the invariant, one table at a time. */
module TripRows {
  import opened Rows
  import opened Policies
  import opened Tables
  import opened Invariants
  import opened TripCommands

  // ----- one trip row rewritten -----

  predicate SameLeg(t: Trip, u: Trip) {
    u.origin == t.origin && u.destination == t.destination && u.driver == t.driver && u.vehicle == t.vehicle
  }

  lemma TripRowKeepsTrips(trips: seq<Trip>, id: Id, u: Trip)
    requires TripsOk(trips) && id < |trips| && TripOk(u)
    ensures TripsOk(trips[id := u])
  {
  }

  lemma TripRowKeepsSchedules(trips: seq<Trip>, id: Id, u: Trip)
    requires SchedulesDisjoint(trips) && id < |trips|
    requires forall j :: 0 <= j < |trips| && j != id ==> Apart(u, trips[j])
    ensures SchedulesDisjoint(trips[id := u])
  {
  }

  /** Leaving the active set, or keeping the same window, needs no new check. */
  lemma SameWindowStaysApart(trips: seq<Trip>, id: Id, u: Trip)
    requires SchedulesDisjoint(trips) && id < |trips| && SameLeg(trips[id], u)
    requires u.schedule == trips[id].schedule || u.schedule == None
    requires ActiveTrip(u.status) ==> ActiveTrip(trips[id].status)
    ensures forall j :: 0 <= j < |trips| && j != id ==> Apart(u, trips[j])
  {
    forall j | 0 <= j < |trips| && j != id ensures Apart(u, trips[j]) {
      if j < id { assert Apart(trips[j], trips[id]); } else { assert Apart(trips[id], trips[j]); }
    }
  }

  lemma UnbookedWindowIsApart(trips: seq<Trip>, id: Option<Id>, u: Trip)
    requires u.schedule.Some? && BookingError(trips, u.driver, u.vehicle, u.schedule.value, id) == None
    ensures forall j :: 0 <= j < |trips| && Some(j) != id ==> Apart(u, trips[j])
  {
  }

  lemma TripRowKeepsLinks(trips: seq<Trip>, links: seq<Link>, transfers: seq<Transfer>, id: Id, u: Trip)
    requires LinksOk(trips, links, transfers) && id < |trips| && SameLeg(trips[id], u)
    requires forall x :: Coupled(trips[id].status, x) ==> Coupled(u.status, x)
    requires FrozenTrip(u.status) ==> HasManifest(links, id)
    ensures LinksOk(trips[id := u], links, transfers)
  {
    var trips' := trips[id := u];
    forall i | 0 <= i < |links| ensures LinkOk(trips', transfers, links[i]) {
      assert LinkOk(trips, transfers, links[i]);
    }
  }

  lemma TripRowKeepsCapacity(trips: seq<Trip>, vehicles: seq<Vehicle>, links: seq<Link>, loads: seq<int>, id: Id, u: Trip)
    requires CapacityOk(trips, vehicles, links, loads) && id < |trips|
    requires u.vehicle < |vehicles| ==> TripLoadOk(u, ManifestGrams(links, loads, id), vehicles[u.vehicle].capacity)
    ensures CapacityOk(trips[id := u], vehicles, links, loads)
  {
  }

  lemma TripRowKeepsVehicles(trips: seq<Trip>, vehicles: seq<Vehicle>, id: Id, u: Trip)
    requires VehiclesOk(trips, vehicles) && id < |trips| && SameLeg(trips[id], u)
    requires u.status == Underway <==> trips[id].status == Underway
    requires u.status == Ready && u.vehicle < |vehicles| ==> vehicles[u.vehicle].status in {Available, InUse}
    ensures VehiclesOk(trips[id := u], vehicles)
  {
    var trips' := trips[id := u];
    forall v | 0 <= v < |vehicles| && vehicles[v].status == InUse
      ensures exists t :: 0 <= t < |trips'| && trips'[t].vehicle == v && trips'[t].status == Underway
    {
      var t :| 0 <= t < |trips| && trips[t].vehicle == v && trips[t].status == Underway;
      assert trips'[t].vehicle == v && trips'[t].status == Underway;
    }
  }

  lemma TripRowKeepsDrivers(drivers: seq<Driver>, trips: seq<Trip>, assignments: seq<Assignment>, id: Id, u: Trip)
    requires DriversOk(drivers, trips, assignments) && id < |trips| && SameLeg(trips[id], u)
    requires ExecutingTrip(u.status) && !ExecutingTrip(trips[id].status) && u.driver < |drivers| ==>
               DriverError(drivers[u.driver]) == None && !DriverAssigned(assignments, u.driver)
    ensures DriversOk(drivers, trips[id := u], assignments)
  {
  }

  lemma TripRowKeepsRoutes(trips: seq<Trip>, routes: seq<Route>, id: Id, u: Trip)
    requires RoutesOk(trips, routes) && id < |trips| && u.route == trips[id].route
    requires u.status == Planned ==> trips[id].status == Planned
    ensures RoutesOk(trips[id := u], routes)
  {
  }

  /** A route appended for a trip becomes its current route and carries the next version. */
  lemma RouteAppended(trips: seq<Trip>, routes: seq<Route>, id: Id, u: Trip, version: nat)
    requires RoutesOk(trips, routes) && id < |trips| && u.route == Some(|routes|) && u.status != Planned
    requires version == CountRoutes(routes, id) + 1
    ensures RoutesOk(trips[id := u], routes + [Route(id, version)])
  {
    var routes' := routes + [Route(id, version)];
    assert routes'[..|routes|] == routes;
    forall r | 0 <= r < |routes'| ensures routes'[r].version == CountRoutes(routes'[..r], routes'[r].trip) + 1 {
      if r < |routes| { assert routes'[..r] == routes[..r]; }
    }
    forall t | 0 <= t < |trips| ensures CountRoutes(routes', t) == CountRoutes(routes, t) + if t == id then 1 else 0 {
    }
  }

  // ----- manifests -----

  /** A manifest weighs what its own active links weigh. */
  lemma {:induction false} GramsDependOnOwnLinks(links: seq<Link>, links': seq<Link>, loads: seq<int>, trip: Id)
    requires |links| == |links'|
    requires forall i :: 0 <= i < |links| ==>
               (links[i].active && links[i].trip == trip) == (links'[i].active && links'[i].trip == trip)
               && (links[i].active && links[i].trip == trip ==> links[i].transfer == links'[i].transfer)
    ensures ManifestGrams(links', loads, trip) == ManifestGrams(links, loads, trip)
  {
    if |links| > 0 {
      var n := |links| - 1;
      GramsDependOnOwnLinks(links[..n], links'[..n], loads, trip);
      assert links[n] == links[n] && links'[n] == links'[n];
    }
  }

  lemma {:induction false} GramsDependOnOwnLoads(links: seq<Link>, loads: seq<int>, loads': seq<int>, trip: Id)
    requires |loads| <= |loads'|
    requires forall i :: 0 <= i < |links| ==> links[i].transfer < |loads|
    requires forall i :: 0 <= i < |links| && links[i].active && links[i].trip == trip ==> loads'[links[i].transfer] == loads[links[i].transfer]
    ensures ManifestGrams(links, loads', trip) == ManifestGrams(links, loads, trip)
  {
    if |links| > 0 {
      GramsDependOnOwnLoads(links[..|links| - 1], loads, loads', trip);
    }
  }

  lemma GramsOfAppend(links: seq<Link>, loads: seq<int>, trip: Id, l: Link)
    ensures l.trip != trip ==> ManifestGrams(links + [l], loads, trip) == ManifestGrams(links, loads, trip)
    ensures var grams := ManifestGrams(links, loads, trip);
            l.trip == trip && l.active && l.transfer < |loads| && grams.Ok? && SafeWeight(loads[l.transfer]) && grams.value + loads[l.transfer] <= MAX_CAPACITY_GRAMS ==>
              ManifestGrams(links + [l], loads, trip) == Ok(grams.value + loads[l.transfer])
  {
    assert (links + [l])[..|links|] == links;
  }

  /** Taking a link off a manifest never makes the manifest heavier. */
  lemma {:induction false} GramsAfterRemoval(links: seq<Link>, loads: seq<int>, trip: Id, k: Id)
    requires k < |links| && ManifestGrams(links, loads, trip).Ok?
    ensures var r := ManifestGrams(links[k := links[k].(active := false)], loads, trip);
            r.Ok? && r.value <= ManifestGrams(links, loads, trip).value
  {
    var links' := links[k := links[k].(active := false)];
    var n := |links| - 1;
    if k == n {
      assert links'[..n] == links[..n];
    } else {
      GramsAfterRemoval(links[..n], loads, trip, k);
      assert links'[..n] == links[..n][k := links[k].(active := false)];
    }
  }

  lemma {:induction false} EmptyManifestWeighsNothing(links: seq<Link>, loads: seq<int>, trip: Id)
    requires !HasManifest(links, trip)
    ensures ManifestGrams(links, loads, trip) == Ok(0)
  {
    if |links| > 0 {
      var n := |links| - 1;
      assert forall i :: 0 <= i < n ==> links[..n][i] == links[i];
      EmptyManifestWeighsNothing(links[..n], loads, trip);
    }
  }

  lemma ManifestNonEmpty(links: seq<Link>, trip: Id)
    ensures HasManifest(links, trip) <==> |Manifest(links, trip)| > 0
  {
    if HasManifest(links, trip) {
      var i :| 0 <= i < |links| && links[i].active && links[i].trip == trip;
      assert links[i] == Link(trip, links[i].transfer, true);
      assert OnManifest(links, trip, links[i].transfer);
    }
    if |Manifest(links, trip)| > 0 {
      var t := Manifest(links, trip)[0];
      var i :| 0 <= i < |links| && links[i] == Link(trip, t, true);
      assert links[i].active && links[i].trip == trip;
    }
  }
}

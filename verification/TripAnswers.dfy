/** When a trip or vehicle command goes through in a reachable state, and what
    it then writes, told by the rows alone. */
module TripAnswers {
  import opened Rows
  import opened Ledgers
  import opened Policies
  import opened Tables
  import opened Invariants
  import opened TripCommands
  import opened TransferCommands
  import opened Facts
  import R = Reachability
  import KeepTrips
  import opened KeepTransfers
  import opened NetworkTheorems
  import opened ManifestTheorems

  // ----- creation -----

  /** Why a requested transfer cannot go on a new trip. */
  function TransferRefusal(db: Db, origin: Id, destination: Id, x: Id): Option<Error>
    requires References(db) && x < |db.transfers|
  {
    var t := db.transfers[x];
    if t.from != origin || t.to != destination then Some(RouteMismatch)
    else if t.status != Waiting then Some(TransferNotPending)
    else if OnSomeManifest(db, x) then Some(TransferOwned)
    else if !(0 < Weighs(db, x) <= MAX_SAFE_INTEGER) then Some(ShipmentWeightInvalid)
    else None
  }

  function FirstRefusal(db: Db, origin: Id, destination: Id, ids: seq<Id>): Option<Error>
    requires References(db) && Within(ids, |db.transfers|)
  {
    if |ids| == 0 then None
    else if TransferRefusal(db, origin, destination, ids[0]).Some? then TransferRefusal(db, origin, destination, ids[0])
    else FirstRefusal(db, origin, destination, ids[1..])
  }

  predicate AllDifferent(ids: seq<Id>) {
    forall i, j :: 0 <= i < j < |ids| ==> ids[i] != ids[j]
  }

  lemma CandidateRefusal(db: Db, c: NewTrip, x: Id)
    requires References(db) && LinksOk(db.trips, db.links, db.transfers) && TransfersOk(db.transfers, db.shipments) && x < |db.transfers|
    ensures CandidateTransferError(db, c, x) == TransferRefusal(db, c.origin, c.destination, x)
  {
    hide LinksOk, TransfersOk;
    OwnerIsOnly(db, x);
    WaitingIsAtOrigin(db.transfers, db.shipments, x);
  }

  lemma {:induction false} CandidatesRefusal(db: Db, c: NewTrip, ids: seq<Id>)
    requires References(db) && LinksOk(db.trips, db.links, db.transfers) && TransfersOk(db.transfers, db.shipments) && Within(ids, |db.transfers|)
    ensures CandidateTransfersError(db, c, ids) == FirstRefusal(db, c.origin, c.destination, ids)
  {
    hide LinksOk, TransfersOk, References, CandidateTransferError, TransferRefusal;
    if |ids| > 0 {
      var n := |ids| - 1;
      CandidatesRefusal(db, c, ids[..n]);
      CandidateRefusal(db, c, ids[n]);
      RefusalAppend(db, c.origin, c.destination, ids[..n], ids[n]);
      assert ids == ids[..n] + [ids[n]];
    }
  }

  lemma {:induction false} RefusalAppend(db: Db, origin: Id, destination: Id, ids: seq<Id>, x: Id)
    requires References(db) && Within(ids, |db.transfers|) && x < |db.transfers|
    ensures FirstRefusal(db, origin, destination, ids + [x]) ==
            if FirstRefusal(db, origin, destination, ids).Some? then FirstRefusal(db, origin, destination, ids)
            else TransferRefusal(db, origin, destination, x)
  {
    hide References, TransferRefusal;
    if |ids| == 0 {
      assert ids + [x] == [x];
      assert [x][1..] == [];
    } else {
      RefusalAppend(db, origin, destination, ids[1..], x);
      assert (ids + [x])[1..] == ids[1..] + [x];
    }
  }

  /** The table of answers to a creation with a key of its own, in the order in
      which the refusals take precedence. */
  ghost function CreateAnswer(db: Db, c: NewTrip): Reply
    requires References(db)
  {
    if !Open(db, c.origin) || !Open(db, c.destination) then Refused(WarehouseInactive)
    else if c.driver >= |db.drivers| then Refused(NotFound)
    else if !db.drivers[c.driver].userActive || db.drivers[c.driver].status == Suspended then Refused(DriverInactive)
    else if LineHaul !in db.drivers[c.driver].capabilities then Refused(CapabilityRequired)
    else if c.vehicle >= |db.vehicles| then Refused(NotFound)
    else if db.vehicles[c.vehicle].status != Available then Refused(VehicleNotAvailable)
    else if c.window.Some? && OnTask(db, c.driver) then Refused(DriverHasActiveAssignment)
    else if c.window.Some? && DriverTaken(db, c.driver, c.window.value, None) then Refused(DriverScheduleConflict)
    else if c.window.Some? && VehicleTaken(db, c.vehicle, c.window.value, None) then Refused(VehicleScheduleConflict)
    else if !AllDifferent(c.transfers) || exists i :: 0 <= i < |c.transfers| && c.transfers[i] >= |db.transfers| then Refused(NotFound)
    else if FirstRefusal(db, c.origin, c.destination, c.transfers).Some? then Refused(FirstRefusal(db, c.origin, c.destination, c.transfers).value)
    else if Total(db, c.transfers) > db.vehicles[c.vehicle].capacity then Refused(CapacityExceeded)
    else Done
  }

  lemma VehicleHasCapacity(db: Db, v: Id)
    requires CapacityOk(db.trips, db.vehicles, db.links, Loads(db.transfers, db.shipments)) && v < |db.vehicles|
    ensures 0 < db.vehicles[v].capacity <= 100_000_000
  {
  }

  lemma NewTripAnswer(db: Db, c: NewTrip)
    requires Inv(db) && (c.window.Some? ==> c.window.value.start < c.window.value.end)
    ensures (match NewTripError(db, c) case Some(e) => Refused(e) case None => Done) == CreateAnswer(db, c)
  {
    hide TripsOk, SchedulesDisjoint, LinksOk, CapacityOk, VehiclesOk, RoutesOk, TransfersOk, ShipmentsOk,
         DriversOk, TasksOk, AttemptsOk, LedgersOk,
         CandidateTransfersError, FirstRefusal, Grams, Total, OnTask, DriverAssigned, DriverTaken, VehicleTaken, DriverBooked, VehicleBooked;
    if c.vehicle < |db.vehicles| { VehicleHasCapacity(db, c.vehicle); }
    TasksAndTrips(db, c.driver, c.vehicle);
    if c.window.Some? { TakenIsBooked(db, c.driver, c.vehicle, c.window.value, None); }
    assert Distinct(c.transfers) <==> AllDifferent(c.transfers);
    if Within(c.transfers, |db.transfers|) {
      CandidatesRefusal(db, c, c.transfers);
      TotalIsGrams(db, c.transfers);
    }
  }

  /** The exact answer to creating a trip under an unused key, and the row a
      creation adds; its manifest is in `CreateEffect`. */
  lemma CreateExact(db: Db, c: NewTrip)
    requires R.Reachable(db) && c.origin != c.destination && (c.window.Some? ==> c.window.value.start < c.window.value.end)
    requires forall t: Id :: t < |db.trips| ==> db.trips[t].key != c.key
    ensures References(db) && CreateTrip(db, c).1 == CreateAnswer(db, c)
    ensures CreateTrip(db, c).1 == Done ==>
              CreateTrip(db, c).0.trips == db.trips + [Trip(c.key, c.origin, c.destination, c.driver, c.vehicle, Planned, c.window, None, None, None, 0)]
  {
    hide Inv, R.Reachable, NewTripError, CreateAnswer;
    R.ReachableInv(db);
    Resolves(db);
    NewTripAnswer(db, c);
  }

  /** The trip asked for: the same row, with exactly the same manifest. */
  predicate AskedFor(db: Db, t: Id, c: NewTrip)
    requires t < |db.trips|
  {
    var row := db.trips[t];
    && row.origin == c.origin && row.destination == c.destination && row.driver == c.driver && row.vehicle == c.vehicle
    && row.schedule == c.window && AllDifferent(c.transfers)
    && (forall x :: x in c.transfers ==> OnManifest(db.links, t, x)) && (forall x :: x in Manifest(db.links, t) ==> x in c.transfers)
  }

  lemma SameMembers(a: seq<Id>, b: seq<Id>)
    requires AllDifferent(a)
    ensures multiset(a) == multiset(b) <==> AllDifferent(b) && (forall x :: x in a <==> x in b)
  {
    if multiset(a) == multiset(b) {
      forall x ensures x in a <==> x in b { assert x in multiset(a) <==> x in multiset(b); }
      forall i, j | 0 <= i < j < |b| ensures b[i] != b[j] {
        OnceEach(a, b[i]);
        if b[i] == b[j] { Twice(b, i, j); }
      }
    }
    if AllDifferent(b) && (forall x :: x in a <==> x in b) {
      forall x ensures multiset(a)[x] == multiset(b)[x] {
        OnceEach(a, x);
        OnceEach(b, x);
      }
    }
  }

  lemma {:induction false} OnceEach(a: seq<Id>, x: Id)
    requires AllDifferent(a)
    ensures multiset(a)[x] == if x in a then 1 else 0
  {
    if |a| > 0 {
      var n := |a| - 1;
      assert a == a[..n] + [a[n]];
      OnceEach(a[..n], x);
    }
  }

  lemma Twice(b: seq<Id>, i: nat, j: nat)
    requires i < j < |b| && b[i] == b[j]
    ensures multiset(b)[b[i]] >= 2
  {
    assert b == b[..i] + [b[i]] + b[i + 1..j] + [b[j]] + b[j + 1..];
  }

  lemma NewestIsFound(trips: seq<Trip>, key: Id, t: Id)
    requires t < |trips| && trips[t].key == key && forall u: Id :: t < u < |trips| ==> trips[u].key != key
    ensures TripByKey(trips, key) == Some(t)
  {
    if t < |trips| - 1 { NewestIsFound(trips[..|trips| - 1], key, t); }
  }

  /** A key used before: the same request gets its trip back, any other request
      is refused, and nothing is written. */
  lemma CreateKnownExact(db: Db, c: NewTrip, t: Id)
    requires R.Reachable(db) && t < |db.trips| && db.trips[t].key == c.key
    requires forall u: Id :: t < u < |db.trips| ==> db.trips[u].key != c.key
    ensures References(db) && CreateTrip(db, c).0 == db
    ensures CreateTrip(db, c).1 ==
            if c.origin == c.destination then Refused(SameWarehouse)
            else if c.window.Some? && c.window.value.start >= c.window.value.end then Refused(ScheduleRangeInvalid)
            else if AskedFor(db, t, c) then Unchanged
            else Refused(KeyReused)
  {
    hide Inv, R.Reachable, NewTripError, Manifest;
    R.ReachableInv(db);
    Resolves(db);
    NewestIsFound(db.trips, c.key, t);
    LinkedOnce(db);
    ManifestIsDistinct(db.links, t);
    SameMembers(Manifest(db.links, t), c.transfers);
  }

  lemma LinkedOnce(db: Db)
    requires Inv(db)
    ensures forall i, j :: 0 <= i < j < |db.links| && db.links[i].active && db.links[j].active ==> db.links[i].transfer != db.links[j].transfer
  {
    hide TripsOk, SchedulesDisjoint, CapacityOk, VehiclesOk, RoutesOk, TransfersOk, ShipmentsOk,
         DriversOk, TasksOk, AttemptsOk, LedgersOk;
  }

  // ----- schedule -----

  predicate Eligible(db: Db, d: Id)
    requires d < |db.drivers|
  {
    db.drivers[d].userActive && db.drivers[d].status != Suspended && LineHaul in db.drivers[d].capabilities
  }

  /** A window is booked exactly on a PLANNED trip whose version is the one
      expected, for an eligible driver and an available vehicle both free then. */
  lemma ScheduleExact(db: Db, id: Id, w: Window, reschedule: bool, expected: int)
    requires R.Reachable(db) && id < |db.trips|
    ensures References(db)
    ensures var t := db.trips[id];
            var (db', r) := SetSchedule(db, id, w, reschedule, expected);
            && (r == Done <==>
                  && w.start < w.end && t.status == Planned && t.schedule != Some(w) && (reschedule <==> t.schedule.Some?) && t.version == expected
                  && Eligible(db, t.driver) && db.vehicles[t.vehicle].status == Available
                  && !DriverTaken(db, t.driver, w, Some(id)) && !VehicleTaken(db, t.vehicle, w, Some(id)))
            && (r == Unchanged <==> w.start < w.end && t.status == Planned && t.schedule == Some(w))
            && db' == if r == Done then db.(trips := db.trips[id := t.(schedule := Some(w), version := t.version + 1)]) else db
  {
    hide TripsOk, SchedulesDisjoint, LinksOk, CapacityOk, VehiclesOk, RoutesOk, TransfersOk, ShipmentsOk,
         DriversOk, TasksOk, AttemptsOk, LedgersOk, R.Reachable, DriverTaken, VehicleTaken, DriverBooked, VehicleBooked;
    R.ReachableInv(db);
    VehicleHasCapacity(db, db.trips[id].vehicle);
    if w.start < w.end { TakenIsBooked(db, db.trips[id].driver, db.trips[id].vehicle, w, Some(id)); }
  }

  lemma UnscheduleExact(db: Db, id: Id, expected: int)
    requires R.Reachable(db) && id < |db.trips|
    ensures References(db)
    ensures var t := db.trips[id];
            var (db', r) := Unschedule(db, id, expected);
            && (r == Done <==> t.status == Planned && t.schedule.Some? && t.version == expected)
            && (r == Unchanged <==> t.status == Planned && t.schedule == None)
            && db' == if r == Done then db.(trips := db.trips[id := t.(schedule := None, version := t.version + 1)]) else db
  {
    hide Inv, R.Reachable;
    R.ReachableInv(db);
    Resolves(db);
  }

  // ----- execution -----

  /** Preparing writes the trip as READY with the weight of its manifest and the
      capacity of its vehicle; a route is stored, as version 1, and made current
      exactly when one was found and both ends have a place. */
  lemma PrepareEffect(db: Db, id: Id, routed: bool)
    requires R.Reachable(db) && id < |db.trips| && db.trips[id].status == Planned && References(db) && PrepareTrip(db, id, routed).1 == Done
    ensures Within(Manifest(db.links, id), |db.transfers|)
    ensures var (t, db') := (db.trips[id], PrepareTrip(db, id, routed).0);
            var mapped := routed && db.warehouses[t.origin].place.Some? && db.warehouses[t.destination].place.Some?;
            && db' == db.(trips := db'.trips, routes := db'.routes)
            && db'.trips == db.trips[id := t.(status := Ready, version := t.version + 1,
                                              preparedGrams := Some(Total(db, Manifest(db.links, id))),
                                              preparedCapacity := Some(db.vehicles[t.vehicle].capacity),
                                              route := if mapped then Some(|db.routes|) else None)]
            && db'.routes == if mapped then db.routes + [Route(id, 1)] else db.routes
  {
    hide TripsOk, SchedulesDisjoint, LinksOk, CapacityOk, VehiclesOk, RoutesOk, TransfersOk, ShipmentsOk,
         DriversOk, TasksOk, AttemptsOk, LedgersOk, R.Reachable, ExecutionError, Manifest, ManifestGrams;
    R.ReachableInv(db);
    KeepTrips.PassedChecks(db, id);
    KeepTrips.PlannedHasNoRoute(db.trips, db.routes, id);
    ManifestTotal(db, db.links, id);
  }

  /** Arrival writes the trip as ARRIVED and its vehicle as AVAILABLE, and
      nothing else. */
  lemma ArriveEffect(db: Db, id: Id)
    requires R.Reachable(db) && id < |db.trips|
    ensures References(db)
    ensures var (t, db') := (db.trips[id], ArriveTrip(db, id).0);
            && (ArriveTrip(db, id).1 == Done <==> t.status == Underway)
            && (ArriveTrip(db, id).1 == Unchanged <==> t.status == Arrived)
            && db' == if t.status != Underway then db
                      else db.(trips := db.trips[id := t.(status := Arrived, version := t.version + 1)],
                               vehicles := db.vehicles[t.vehicle := db.vehicles[t.vehicle].(status := Available, version := db.vehicles[t.vehicle].version + 1)])
  {
    hide Inv, R.Reachable, Manifest;
    R.ReachableInv(db);
    Resolves(db);
    if db.trips[id].status == Underway { ArriveExact(db, id); }
  }

  /** A reroute adds the next route version, makes it current, and changes
      nothing else. */
  lemma RerouteEffect(db: Db, id: Id, seen: Preflight, now: int)
    requires R.Reachable(db) && References(db) && CommitReroute(db, id, seen, now).1 == Done
    ensures id < |db.trips| && db.trips[id].route.Some?
    ensures var (t, db') := (db.trips[id], CommitReroute(db, id, seen, now).0);
            && t.status == Underway && 0 <= now - seen.capturedAt < 20_000
            && db' == db.(trips := db.trips[id := t.(route := Some(|db.routes|), version := t.version + 1)],
                          routes := db.routes + [Route(id, db.routes[t.route.value].version + 1)])
  {
    hide Inv, R.Reachable;
  }

  /** A reroute can be asked for exactly while the trip is IN_TRANSIT on a stored
      route to a warehouse with a place, from a position less than twenty seconds
      old; if nothing changes meanwhile it commits until that position is. */
  lemma RerouteExact(db: Db, id: Id, gps: Option<int>, now: int, later: int)
    requires References(db) && id < |db.trips| && now <= later
    ensures var t := db.trips[id];
            var p := ReroutePreflight(db, id, gps, now);
            && (p.Ok? <==>
                  && t.status == Underway && t.route.Some? && db.warehouses[t.destination].place.Some?
                  && gps.Some? && 0 <= now - gps.value < 20_000)
            && (p.Ok? ==> (CommitReroute(db, id, p.value, later).1 == Done <==> later < gps.value + 20_000))
  {
  }

  /** A trip is cancelled exactly while PLANNED or READY; that frees its whole
      manifest and writes nothing else. */
  lemma CancelExact(db: Db, id: Id)
    requires R.Reachable(db) && id < |db.trips|
    ensures References(db)
    ensures var (t, db') := (db.trips[id], CancelTrip(db, id).0);
            && (CancelTrip(db, id).1 == Done <==> t.status == Planned || t.status == Ready)
            && (CancelTrip(db, id).1 == Unchanged <==> t.status == Withdrawn)
            && (CancelTrip(db, id).1 != Done ==> db' == db)
            && (CancelTrip(db, id).1 == Done ==>
                  && db' == db.(trips := db.trips[id := t.(status := Withdrawn, version := t.version + 1)], links := db'.links)
                  && |db'.links| == |db.links|
                  && forall i :: 0 <= i < |db.links| ==> db'.links[i] == db.links[i].(active := db.links[i].active && db.links[i].trip != id))
  {
    hide Inv, R.Reachable;
    R.ReachableInv(db);
    Resolves(db);
  }

  /** A transfer is taken off exactly a PLANNED trip that has it. */
  lemma RemoveExact(db: Db, id: Id, transfer: Id)
    requires R.Reachable(db) && id < |db.trips|
    ensures References(db)
    ensures var r := RemoveTransfer(db, id, transfer).1;
            && (r == Done <==> db.trips[id].status == Planned && OnManifest(db.links, id, transfer))
            && (r == Unchanged <==>
                  && db.trips[id].status == Planned && !OnManifest(db.links, id, transfer)
                  && exists i :: 0 <= i < |db.links| && db.links[i] == Link(id, transfer, false))
  {
    hide Inv, R.Reachable;
    R.ReachableInv(db);
    Resolves(db);
    if db.trips[id].status == Planned && LinkOf(db.links, id, transfer) == None {
      forall i | 0 <= i < |db.links| && db.links[i].trip == id && db.links[i].transfer == transfer ensures db.links[i] == Link(id, transfer, false) {
        assert db.links[i] != Link(id, transfer, true);
      }
    }
  }

  // ----- vehicles -----

  lemma {:induction false} ActiveTripsAscend(trips: seq<Trip>, v: Id)
    ensures Ascending(ActiveTrips(trips, v))
  {
    if |trips| > 0 {
      var n := |trips| - 1;
      ActiveTripsAscend(trips[..n], v);
      var rest := ActiveTrips(trips[..n], v);
      forall i | 0 <= i < |rest| ensures rest[i] < n {
        assert rest[i] in rest;
      }
    }
  }

  lemma AllButLast(a: seq<Id>)
    requires Ascending(a) && |a| > 0
    ensures forall x :: x in a[..|a| - 1] <==> x in a && x != a[|a| - 1]
    ensures forall x :: x in a ==> x <= a[|a| - 1]
  {
    assert a == a[..|a| - 1] + [a[|a| - 1]];
  }

  lemma {:induction false} AscendingUnique(a: seq<Id>, b: seq<Id>)
    requires Ascending(a) && Ascending(b) && forall x :: x in a <==> x in b
    ensures a == b
  {
    if |a| == 0 || |b| == 0 {
      if |b| > 0 { assert b[0] in b; }
      if |a| > 0 { assert a[0] in a; }
    } else {
      var n, m := |a| - 1, |b| - 1;
      AllButLast(a);
      AllButLast(b);
      assert a[n] in a && b[m] in b;
      assert a[n] == b[m];
      forall x: Id ensures x in a[..n] <==> x in b[..m] {
        assert x in a <==> x in b;
      }
      AscendingUnique(a[..n], b[..m]);
      assert a == a[..n] + [a[n]] && b == b[..m] + [b[m]];
    }
  }

  predicate ActiveOn(db: Db, v: Id, t: Id) {
    t < |db.trips| && db.trips[t].vehicle == v && db.trips[t].status in {Planned, Ready, Underway}
  }

  /** All that the vehicle's trips not yet over carry stays within `capacity`. */
  predicate AllFit(db: Db, v: Id, capacity: int)
    requires References(db)
  {
    forall t: Id :: t < |db.trips| && ActiveOn(db, v, t) && Within(Manifest(db.links, t), |db.transfers|) ==> Total(db, Manifest(db.links, t)) <= capacity
  }

  lemma {:induction false} CarryingFits(db: Db, ids: seq<Id>, capacity: int)
    requires References(db) && 0 < capacity <= 100_000_000
    requires forall t: Id :: t in ids ==> ManifestGrams(db.links, Loads(db.transfers, db.shipments), t).Ok?
    ensures CarryingError(db.links, Loads(db.transfers, db.shipments), ids, capacity) == None <==>
            forall t: Id :: t in ids ==> ManifestGrams(db.links, Loads(db.transfers, db.shipments), t).value <= capacity
  {
    hide References, ManifestGrams, Loads;
    if |ids| > 0 {
      var n := |ids| - 1;
      assert ids == ids[..n] + [ids[n]];
      CarryingFits(db, ids[..n], capacity);
    }
  }

  lemma CarriedWeight(db: Db, v: Id, t: Id)
    requires Inv(db) && ActiveOn(db, v, t)
    ensures var grams := ManifestGrams(db.links, Loads(db.transfers, db.shipments), t);
            Within(Manifest(db.links, t), |db.transfers|) && grams.Ok? && grams.value == Total(db, Manifest(db.links, t))
  {
    hide TripsOk, SchedulesDisjoint, LinksOk, CapacityOk, VehiclesOk, RoutesOk, TransfersOk, ShipmentsOk,
         DriversOk, TasksOk, AttemptsOk, LedgersOk, ManifestGrams, Total, Manifest, Loads;
    NeverOverweight(db, t);
    ManifestTotal(db, db.links, t);
  }

  /** A capacity changes exactly when the locked trips are still the active ones
      and all of them fit, on a vehicle that is not on the road. */
  lemma CapacityExact(db: Db, v: Id, capacity: int, hints: seq<Id>)
    requires R.Reachable(db) && v < |db.vehicles|
    ensures References(db)
    ensures var row := db.vehicles[v];
            var (db', r) := UpdateCapacity(db, v, capacity, hints);
            && (r == Done <==>
                  && 0 < capacity <= 100_000_000 && capacity != row.capacity && row.status != InUse
                  && Ascending(hints) && (forall t: Id :: t in hints <==> ActiveOn(db, v, t)) && AllFit(db, v, capacity))
            && (r == Unchanged <==> capacity == row.capacity)
            && db' == if r == Done then db.(vehicles := db.vehicles[v := row.(capacity := capacity, version := row.version + 1)]) else db
  {
    hide Inv, R.Reachable, CarryingError, ManifestGrams, Total, Manifest, Loads, References, ActiveTrips, AllFit;
    R.ReachableInv(db);
    Resolves(db);
    ValidCapacities(db, v);
    ActiveTripsAscend(db.trips, v);
    if Ascending(hints) && forall t: Id :: t in hints <==> ActiveOn(db, v, t) { AscendingUnique(hints, ActiveTrips(db.trips, v)); }
    if 0 < capacity <= 100_000_000 { FitsExactly(db, v, capacity); }
  }

  lemma ValidCapacities(db: Db, v: Id)
    requires Inv(db) && v < |db.vehicles|
    ensures 0 < db.vehicles[v].capacity <= 100_000_000
  {
    hide TripsOk, SchedulesDisjoint, LinksOk, VehiclesOk, RoutesOk, TransfersOk, ShipmentsOk,
         DriversOk, TasksOk, AttemptsOk, LedgersOk;
  }

  lemma FitsExactly(db: Db, v: Id, capacity: int)
    requires Inv(db) && 0 < capacity <= 100_000_000
    ensures References(db)
    ensures CarryingError(db.links, Loads(db.transfers, db.shipments), ActiveTrips(db.trips, v), capacity) == None <==> AllFit(db, v, capacity)
  {
    hide Inv, CarryingError, ManifestGrams, Total, Manifest, Loads, References, ActiveTrips;
    Resolves(db);
    forall t: Id | ActiveOn(db, v, t)
      ensures t in ActiveTrips(db.trips, v)
      ensures var grams := ManifestGrams(db.links, Loads(db.transfers, db.shipments), t);
              Within(Manifest(db.links, t), |db.transfers|) && grams.Ok? && grams.value == Total(db, Manifest(db.links, t))
    {
      CarriedWeight(db, v, t);
    }
    CarryingFits(db, ActiveTrips(db.trips, v), capacity);
  }

  /** A vehicle is taken into or out of service exactly while it is neither on
      the road nor reserved by a READY trip. */
  lemma VehicleStatusExact(db: Db, v: Id, status: VehicleStatus)
    requires R.Reachable(db) && v < |db.vehicles|
    ensures References(db)
    ensures var row := db.vehicles[v];
            var (db', r) := SetVehicleStatus(db, v, status);
            && (r == Done <==> status != InUse && status != row.status && row.status != InUse && !VehicleOnTheRoad(db, v))
            && (r == Unchanged <==> status != InUse && status == row.status)
            && db' == if r == Done then db.(vehicles := db.vehicles[v := row.(status := status, version := row.version + 1)]) else db
  {
    hide Inv, R.Reachable, VehicleOnTheRoad, VehicleExecuting;
    R.ReachableInv(db);
    Resolves(db);
    ValidCapacities(db, v);
    TasksAndTrips(db, 0, v);
  }
}

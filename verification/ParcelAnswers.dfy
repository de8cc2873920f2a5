/** When a parcel command goes through in a reachable state, what it then writes
    and what becomes of the driver, told by the rows alone. */
module ParcelAnswers {
  import opened Rows
  import opened Ledgers
  import opened LedgerLaws
  import opened Policies
  import opened Tables
  import opened Invariants
  import opened ParcelCommands
  import opened Facts
  import R = Reachability
  import opened KeepParcels
  import opened ParcelTheorems

  // ----- used keys -----

  /** A key used before: asked for a parcel it was used for, it is recognised,
      for any other it is refused, and nothing is written. Deliveries also ask
      for a delivery. */
  lemma AssignKnownExact(db: Db, key: Id, s: Id, driver: Id, located: bool, reassign: bool, a: Id)
    requires References(db) && a < |db.assignments| && db.assignments[a].key == key
    ensures var made := set x: Id | x < |db.assignments| && db.assignments[x].key == key && db.assignments[x].shipment == s;
            && AssignPickup(db, key, s, driver, located, reassign) == (db, if made != {} then Unchanged else Refused(KeyReused))
            && AssignDelivery(db, key, s, driver, located) ==
               (db, if exists x :: x in made && db.assignments[x].kind == Delivery then Unchanged else Refused(KeyReused))
  {
    hide References;
    var made := set x: Id | x < |db.assignments| && db.assignments[x].key == key && db.assignments[x].shipment == s;
    if x: Id :| x < |db.assignments| && db.assignments[x].key == key && db.assignments[x].shipment == s { assert x in made; }
    if made != {} { var x :| x in made; }
  }

  // ----- creation and cancellation -----

  /** A parcel is created exactly within the limits of weight, fee and COD, with
      a pending fee and no cash on delivery yet. */
  lemma CreateShipmentExact(db: Db, key: Id, terms: Terms, grams: int)
    requires forall s: Id :: s < |db.shipments| ==> db.shipments[s].key != key
    ensures var (db', r) := CreateShipment(db, key, terms, grams);
            && (r == Done <==> 1 <= grams <= 100_000 && 0 < terms.totalFee <= MAX_SAFE_INTEGER && 0 <= terms.codAmount <= 1_000_000_000)
            && (r == Done ==>
                  && db' == db.(shipments := db'.shipments, ledgers := db'.ledgers)
                  && db'.shipments == db.shipments + [Shipment(key, Pending, terms.customer, None, None, None, None, grams, None, 0)]
                  && |db'.ledgers| == |db.ledgers| + 1 && db'.ledgers[..|db.ledgers|] == db.ledgers
                  && var l := db'.ledgers[|db.ledgers|];
                     && l.terms == terms && l.disputes == [] && l.cod == None && l.remittances == [] && l.payout == None
                     && l.fee == Fee(terms.payer, terms.totalFee, FeePending, None, None, None, None, None, None, None, None, None, None))
            && (r != Done ==> db' == db)
  {
  }

  lemma ConfirmExact(db: Db, s: Id)
    requires s < |db.shipments|
    ensures var row := db.shipments[s];
            var (db', r) := ConfirmShipment(db, s);
            && (r == Done <==> row.status == Pending || row.status == Confirmed)
            && (r == Unchanged <==> row.status == AwaitingPickup)
            && db' == if r != Done then db
                      else db.(shipments := db.shipments[s := row.(status := AwaitingPickup, version := row.version + 1)])
  {
  }

  /** A customer cancels his parcel exactly before anybody is sent for it, and
      only while its fee is neither paid nor being paid; both go together. */
  lemma CancelShipmentExact(db: Db, s: Id, customer: Id)
    requires R.Reachable(db) && s < |db.shipments|
    ensures References(db)
    ensures var row := db.shipments[s];
            var l := db.ledgers[s];
            var (db', r) := CancelShipment(db, s, customer);
            && (r == Done <==> row.customer == customer && row.status in {Pending, Confirmed, AwaitingPickup} && l.fee.status == FeePending)
            && (r != Unchanged)
            && db' == if r != Done then db
                      else db.(shipments := db.shipments[s := row.(status := Cancelled, version := row.version + 1)],
                               ledgers := db.ledgers[s := l.(fee := l.fee.(status := FeeCancelled))])
  {
    hide TripsOk, SchedulesDisjoint, LinksOk, CapacityOk, VehiclesOk, RoutesOk, TransfersOk, ShipmentsOk,
         DriversOk, TasksOk, AttemptsOk, LedgersOk, R.Reachable;
    R.ReachableInv(db);
    LedgerOf(db.shipments, db.ledgers, s);
  }

  // ----- tasks given -----

  predicate TaskKeyed(db: Db, key: Id) {
    exists a: Id :: a < |db.assignments| && db.assignments[a].key == key
  }

  /** A driver who can be given a parcel task: free, online and present. */
  predicate CanTake(db: Db, d: Id, kind: Capability, located: bool)
    requires References(db) && d < |db.drivers|
  {
    var row := db.drivers[d];
    && GoodStanding(row) && row.status == Free && row.online && row.available && kind in row.capabilities
    && located && Open(db, row.home) && !OnTheRoad(db, d)
  }

  predicate Engaged(d: Driver, d': Driver) {
    d' == d.(status := Busy, online := true, available := false, version := d.version + 1)
  }

  lemma AssignPickupGuard(db: Db, key: Id, s: Id, driver: Id, located: bool, reassign: bool)
    requires Inv(db) && s < |db.shipments| && driver < |db.drivers| && !TaskKeyed(db, key)
    ensures AssignPickup(db, key, s, driver, located, reassign).1 == Done <==>
              db.shipments[s].status in (if reassign then {PickupAssigned, PickupInProgress} else {AwaitingPickup}) && CanTake(db, driver, Pickup, located)
    ensures AssignPickup(db, key, s, driver, located, reassign).1 != Unchanged
  {
    hide TripsOk, SchedulesDisjoint, LinksOk, CapacityOk, VehiclesOk, RoutesOk, TransfersOk, ShipmentsOk,
         DriversOk, TasksOk, AttemptsOk, LedgersOk, OnTheRoad, DriverExecuting;
    TasksAndTrips(db, driver, 0);
    PickupTaskThere(db.shipments, db.assignments, s);
    var k := CurrentAssignment(db.assignments, s, Pickup);
    if k.Some? { DriverAt(db, k.value); }
  }

  /** A pickup is given exactly to a driver who can take it, at first while the
      parcel awaits one, again while it is assigned or in progress. The new task
      is offered and its driver engaged; a task taken away is replaced and its
      driver freed. */
  lemma AssignPickupExact(db: Db, key: Id, s: Id, driver: Id, located: bool, reassign: bool)
    requires R.Reachable(db) && s < |db.shipments| && driver < |db.drivers| && !TaskKeyed(db, key)
    ensures References(db)
    ensures var row := db.shipments[s];
            var (db', r) := AssignPickup(db, key, s, driver, located, reassign);
            && (r == Done <==> row.status in (if reassign then {PickupAssigned, PickupInProgress} else {AwaitingPickup}) && CanTake(db, driver, Pickup, located))
            && (r != Unchanged) && (r != Done ==> db' == db)
            && (r == Done ==>
                  && db' == db.(assignments := db'.assignments, drivers := db'.drivers,
                                shipments := db.shipments[s := row.(status := PickupAssigned, version := row.version + 1)])
                  && |db'.drivers| == |db.drivers| && Engaged(db.drivers[driver], db'.drivers[driver])
                  && |db'.assignments| == |db.assignments| + 1
                  && db'.assignments[|db.assignments|] == Assignment(key, s, driver, Pickup, Offered, false)
                  && (forall a: Id :: a < |db.assignments| ==> TakenFrom(db, db', s, a))
                  && (forall d: Id :: d < |db.drivers| && d != driver && db'.drivers[d] != db.drivers[d] ==>
                        Freed(db.drivers[d], db'.drivers[d]) && !OnTask(db', d)))
  {
    hide TripsOk, SchedulesDisjoint, LinksOk, CapacityOk, VehiclesOk, RoutesOk, TransfersOk, ShipmentsOk,
         DriversOk, TasksOk, AttemptsOk, LedgersOk, CanTake, R.Reachable, OnTask, CurrentAssignment, DriverExecuting;
    R.ReachableInv(db);
    AssignPickupGuard(db, key, s, driver, located, reassign);
    if AssignPickup(db, key, s, driver, located, reassign).1 == Done {
      AssignPickupWrites(db, key, s, driver, located, reassign);
    }
  }

  /** What becomes of a task when its shipment's pickup goes to another driver. */
  predicate TakenFrom(db: Db, db': Db, s: Id, a: Id)
    requires a < |db.assignments| <= |db'.assignments| && |db'.drivers| == |db.drivers|
  {
    var was, now := db.assignments[a], db'.assignments[a];
    if was.shipment == s && was.status in {Offered, Accepted}
    then now == was.(status := Replaced) && was.driver < |db.drivers| && Freed(db.drivers[was.driver], db'.drivers[was.driver])
    else now == was
  }

  lemma AssignPickupWrites(db: Db, key: Id, s: Id, driver: Id, located: bool, reassign: bool)
    requires Inv(db) && s < |db.shipments| && driver < |db.drivers| && AssignPickup(db, key, s, driver, located, reassign).1 == Done && !TaskKeyed(db, key)
    ensures var db' := AssignPickup(db, key, s, driver, located, reassign).0;
            && |db'.drivers| == |db.drivers| && Engaged(db.drivers[driver], db'.drivers[driver]) && |db'.assignments| == |db.assignments| + 1
            && (forall a: Id :: a < |db.assignments| ==> TakenFrom(db, db', s, a))
            && (forall d: Id :: d < |db.drivers| && d != driver && db'.drivers[d] != db.drivers[d] ==> Freed(db.drivers[d], db'.drivers[d]) && !OnTask(db', d))
  {
    hide TripsOk, SchedulesDisjoint, LinksOk, CapacityOk, VehiclesOk, RoutesOk, TransfersOk, ShipmentsOk,
         AttemptsOk, LedgersOk, DriverExecuting;
    PickupTaskThere(db.shipments, db.assignments, s);
    var k := CurrentAssignment(db.assignments, s, Pickup);
    if k.Some? { DriverAt(db, k.value); }
    NoOtherTask(db, s);
  }

  lemma NoOtherTask(db: Db, s: Id)
    requires Inv(db) && s < |db.shipments|
    ensures forall a: Id, b: Id :: ActiveAt(db.assignments, a) && ActiveAt(db.assignments, b) && a != b ==>
              db.assignments[a].shipment != db.assignments[b].shipment && db.assignments[a].driver != db.assignments[b].driver
  {
    hide TripsOk, SchedulesDisjoint, LinksOk, CapacityOk, VehiclesOk, RoutesOk, TransfersOk, ShipmentsOk,
         AttemptsOk, LedgersOk, References;
  }

  /** A delivery is given exactly to a driver who can take it and works from the
      parcel's destination warehouse. */
  lemma AssignDeliveryExact(db: Db, key: Id, s: Id, driver: Id, located: bool)
    requires R.Reachable(db) && s < |db.shipments| && driver < |db.drivers| && !TaskKeyed(db, key)
    ensures References(db)
    ensures var row := db.shipments[s];
            var (db', r) := AssignDelivery(db, key, s, driver, located);
            && (r == Done <==> row.status == AwaitingDelivery && row.destination == Some(db.drivers[driver].home) && CanTake(db, driver, Delivery, located))
            && (r != Unchanged) && (r != Done ==> db' == db)
            && (r == Done ==>
                  && db' == db.(assignments := db.assignments + [Assignment(key, s, driver, Delivery, Offered, false)],
                                drivers := db.drivers[driver := db'.drivers[driver]],
                                shipments := db.shipments[s := row.(status := DeliveryAssigned, version := row.version + 1)])
                  && Engaged(db.drivers[driver], db'.drivers[driver]))
  {
    hide Inv, R.Reachable, OnTheRoad, DriverExecuting;
    R.ReachableInv(db);
    Resolves(db);
    TasksAndTrips(db, driver, 0);
  }

  // ----- tasks ended -----

  /** With the only task of a driver over, he has none. */
  lemma TaskWasOnly(db: Db, db': Db, id: Id)
    requires Inv(db) && id < |db.assignments| && ActiveAssignment(db.assignments[id].status)
    requires |db'.assignments| == |db.assignments| && !ActiveAssignment(db'.assignments[id].status)
    requires forall a: Id :: a < |db.assignments| && a != id ==> db'.assignments[a] == db.assignments[a]
    ensures !OnTask(db', db.assignments[id].driver) || db'.assignments[id].driver != db.assignments[id].driver
  {
    hide Inv;
    var d := db.assignments[id].driver;
    forall a: Id | a < |db'.assignments| && db'.assignments[a].status in {Offered, Accepted} ensures db'.assignments[a].driver != d {
      assert a != id;
      OneTaskPerDriver(db, a, id);
    }
  }

  lemma OneTaskPerDriver(db: Db, a: Id, b: Id)
    requires Inv(db) && ActiveAt(db.assignments, a) && ActiveAt(db.assignments, b) && a != b
    ensures db.assignments[a].driver != db.assignments[b].driver
  {
    hide TripsOk, SchedulesDisjoint, LinksOk, CapacityOk, VehiclesOk, RoutesOk, TransfersOk, ShipmentsOk,
         TasksOk, AttemptsOk, LedgersOk, References;
  }

  /** The driver's own row while he has a task. */
  lemma DriverHasTask(db: Db, id: Id)
    requires Inv(db) && id < |db.assignments| && ActiveAssignment(db.assignments[id].status)
    ensures References(db) && GoodStanding(db.drivers[db.assignments[id].driver])
  {
    hide TripsOk, SchedulesDisjoint, LinksOk, CapacityOk, VehiclesOk, RoutesOk, TransfersOk, ShipmentsOk,
         DriversOk, TasksOk, AttemptsOk, LedgersOk;
    DriverAt(db, id);
  }

  lemma AcceptExact(db: Db, id: Id, driver: Id)
    requires R.Reachable(db) && id < |db.assignments|
    ensures References(db)
    ensures var a := db.assignments[id];
            var row := db.shipments[a.shipment];
            var (db', r) := AcceptPickup(db, id, driver);
            && (r == Done <==> a.driver == driver && a.kind == Pickup && a.status == Offered)
            && db' == if r != Done then db
                      else db.(assignments := db.assignments[id := a.(status := Accepted)],
                               shipments := db.shipments[a.shipment := row.(status := PickupInProgress, version := row.version + 1)])
  {
    hide TripsOk, SchedulesDisjoint, LinksOk, CapacityOk, VehiclesOk, RoutesOk, TransfersOk, ShipmentsOk,
         DriversOk, TasksOk, AttemptsOk, LedgersOk, R.Reachable;
    R.ReachableInv(db);
    TaskAt(db.shipments, db.assignments, id);
  }

  /** A pickup offered or accepted can be rejected: the parcel awaits a driver
      again and this one is freed. */
  lemma RejectExact(db: Db, id: Id, driver: Id)
    requires R.Reachable(db) && id < |db.assignments|
    ensures References(db)
    ensures var a := db.assignments[id];
            var row := db.shipments[a.shipment];
            var (db', r) := RejectPickup(db, id, driver);
            && (r == Done <==> a.driver == driver && a.kind == Pickup && a.status in {Offered, Accepted})
            && (r != Done ==> db' == db)
            && (r == Done ==>
                  && db' == db.(assignments := db.assignments[id := a.(status := Rejected)], drivers := db'.drivers,
                                shipments := db.shipments[a.shipment := row.(status := AwaitingPickup, version := row.version + 1)])
                  && OnlyDriverFreed(db, db', driver))
  {
    hide TripsOk, SchedulesDisjoint, LinksOk, CapacityOk, VehiclesOk, RoutesOk, TransfersOk, ShipmentsOk,
         DriversOk, TasksOk, AttemptsOk, LedgersOk, R.Reachable, OnTask;
    R.ReachableInv(db);
    TaskAt(db.shipments, db.assignments, id);
    if RejectPickup(db, id, driver).1 == Done {
      DriverHasTask(db, id);
      TaskWasOnly(db, RejectPickup(db, id, driver).0, id);
    }
  }

  /** What a collection point asks for before the parcel may pass: the whole fee
      where it is due and not paid online, nothing elsewhere; and no delivery
      while the sender's fee is disputed. */
  predicate FeeMet(l: Ledger, point: Point, amount: Option<int>) {
    if (l.terms.payer == Sender) == (point == AtPickup)
    then (l.fee.status == Paid && amount == None) || (l.fee.status == FeePending && amount == Some(l.terms.totalFee))
    else amount == None && (point == AtDelivery ==> l.fee.status != Disputed)
  }

  /** The ledger afterwards: a pending fee that is due is collected by the
      driver, any other fee is left alone. */
  function WithFee(l: Ledger, point: Point, driver: Id, amount: Option<int>, now: int): Ledger {
    if (l.terms.payer == Sender) == (point == AtPickup) && l.fee.status == FeePending
    then l.(fee := l.fee.(status := Collected, collected := amount, collector := Some(driver), collectedAt := Some(now)))
    else l
  }

  lemma CollectionIs(s: ShipmentStatus, l: Ledger, point: Point, driver: Id, amount: Option<int>, now: int)
    requires LedgerOk(s, l) && s == if point == AtPickup then PickupInProgress else OutForDelivery
    ensures CollectAt(l, point, driver, amount, now).Ok? <==> FeeMet(l, point, amount)
    ensures FeeMet(l, point, amount) ==> CollectAt(l, point, driver, amount, now) == Ok(WithFee(l, point, driver, amount, now))
  {
    DueLedger(s, l, point, driver, amount, now);
  }

  /** Collecting again for a task that is over changes nothing. */
  lemma AlreadyCollected(db: Db, id: Id, point: Point, amount: Option<int>, now: int)
    requires Inv(db) && id < |db.assignments|
    requires if point == AtPickup then db.assignments[id].proof else db.shipments[db.assignments[id].shipment].status == Delivered
    ensures var l := db.ledgers[db.assignments[id].shipment];
            CollectAt(l, point, db.assignments[id].driver, amount, now).Ok? ==> CollectAt(l, point, db.assignments[id].driver, amount, now).value == l
  {
    hide TripsOk, SchedulesDisjoint, LinksOk, CapacityOk, VehiclesOk, RoutesOk, TransfersOk, ShipmentsOk,
         DriversOk, TasksOk, AttemptsOk, LedgersOk, CollectAt, LedgerOk;
    var a := db.assignments[id];
    TaskAt(db.shipments, db.assignments, id);
    LedgerOf(db.shipments, db.ledgers, a.shipment);
    if CollectAt(db.ledgers[a.shipment], point, a.driver, amount, now).Ok? {
      CollectedAlready(db.shipments[a.shipment].status, db.ledgers[a.shipment], point, a.driver, amount, now);
    }
  }

  /** A pickup is completed exactly by its driver with the fee met: the parcel is
      his warehouse's from then on, and he is free. */
  lemma PickUpExact(db: Db, id: Id, driver: Id, amount: Option<int>, now: int)
    requires R.Reachable(db) && id < |db.assignments|
    ensures References(db)
    ensures var a := db.assignments[id];
            var (row, l) := (db.shipments[a.shipment], db.ledgers[a.shipment]);
            var (db', r) := PickUp(db, id, driver, amount, now);
            && (r == Done <==> a.driver == driver && a.kind == Pickup && a.status == Accepted && FeeMet(l, AtPickup, amount))
            && (r != Done ==> db' == db)
            && (r == Done ==>
                  && db' == db.(assignments := db.assignments[id := a.(status := Finished, proof := true)], drivers := db'.drivers,
                                shipments := db.shipments[a.shipment := row.(status := PickedUp, origin := Some(db.drivers[driver].home), version := row.version + 1)],
                                ledgers := db.ledgers[a.shipment := WithFee(l, AtPickup, driver, amount, now)])
                  && OnlyDriverFreed(db, db', driver))
  {
    hide TripsOk, SchedulesDisjoint, LinksOk, CapacityOk, VehiclesOk, RoutesOk, TransfersOk, ShipmentsOk,
         DriversOk, TasksOk, AttemptsOk, LedgersOk, R.Reachable, OnTask, CollectAt, LedgerOk;
    R.ReachableInv(db);
    var a := db.assignments[id];
    TaskAt(db.shipments, db.assignments, id);
    ShipmentAt(db, a.shipment);
    LedgerOf(db.shipments, db.ledgers, a.shipment);
    if a.proof {
      AlreadyCollected(db, id, AtPickup, amount, now);
    } else if a.kind == Pickup && a.status == Accepted {
      CollectionIs(db.shipments[a.shipment].status, db.ledgers[a.shipment], AtPickup, a.driver, amount, now);
    }
    if PickUp(db, id, driver, amount, now).1 == Done { TaskWasOnly(db, PickUp(db, id, driver, amount, now).0, id); }
  }

  // ----- deliveries -----

  lemma StartDeliveryExact(db: Db, id: Id, driver: Id)
    requires R.Reachable(db) && id < |db.assignments|
    ensures References(db)
    ensures var a := db.assignments[id];
            var row := db.shipments[a.shipment];
            var (db', r) := StartDelivery(db, id, driver);
            && (r == Done <==> a.driver == driver && a.kind == Delivery && a.status == Offered)
            && (r == Unchanged <==> a.driver == driver && a.kind == Delivery && a.status == Accepted)
            && db' == if r != Done then db
                      else db.(assignments := db.assignments[id := a.(status := Accepted)],
                               attempts := db.attempts + [Attempt(a.shipment, id, CountAttempts(db.attempts, a.shipment) + 1, Outgoing)],
                               shipments := db.shipments[a.shipment := row.(status := OutForDelivery, version := row.version + 1)])
  {
    hide TripsOk, SchedulesDisjoint, LinksOk, CapacityOk, VehiclesOk, RoutesOk, TransfersOk, ShipmentsOk,
         DriversOk, TasksOk, AttemptsOk, LedgersOk, R.Reachable, CountAttempts;
    R.ReachableInv(db);
    TaskAt(db.shipments, db.assignments, id);
  }

  /** The cash a delivered parcel leaves with its driver. */
  function WithCash(l: Ledger, driver: Id): Ledger {
    if l.terms.codAmount > 0 then l.(cod := Some(Cod(l.terms.codAmount, Some(l.terms.codAmount), driver, CodCollected, None, 0))) else l
  }

  /** The one attempt under way for an accepted delivery. */
  predicate OpenAttempt(db: Db, id: Id, n: Id) {
    n < |db.attempts| && db.attempts[n].assignment == id && db.attempts[n].status == Outgoing
  }

  lemma OpenAttemptFound(db: Db, id: Id)
    requires Inv(db) && id < |db.assignments| && db.assignments[id].kind == Delivery && db.assignments[id].status == Accepted
    ensures var n := AttemptOf(db.attempts, id); n.Some? && OpenAttempt(db, id, n.value) && forall m: Id :: OpenAttempt(db, id, m) ==> m == n.value
  {
    hide TripsOk, SchedulesDisjoint, LinksOk, CapacityOk, VehiclesOk, RoutesOk, TransfersOk, ShipmentsOk,
         DriversOk, TasksOk, AttemptsOk, LedgersOk, AttemptOf;
    AcceptedHasOpenAttempt(db, id);
    var n := AttemptOf(db.attempts, id).value;
    forall m: Id | OpenAttempt(db, id, m) ensures m == n { OneOpenAttempt(db, m, n); }
  }

  lemma OneOpenAttempt(db: Db, m: Id, n: Id)
    requires References(db) && AttemptsOk(db.shipments, db.assignments, db.attempts)
    requires m < |db.attempts| && n < |db.attempts| && db.attempts[m].status == db.attempts[n].status == Outgoing
    requires db.attempts[m].assignment == db.attempts[n].assignment
    ensures m == n
  {
    AttemptAt(db, m);
    AttemptAt(db, n);
    assert db.attempts[m].shipment == db.attempts[n].shipment;
  }

  /** An accepted delivery is completed exactly by its driver with the fee met:
      parcel, attempt and task end, the cash is on record and he is free. */
  lemma CompleteExact(db: Db, id: Id, driver: Id, amount: Option<int>, now: int, n: Id)
    requires R.Reachable(db) && id < |db.assignments|
    requires db.assignments[id].status == Accepted && db.assignments[id].kind == Delivery ==> OpenAttempt(db, id, n)
    ensures References(db)
    ensures var a := db.assignments[id];
            var (row, l) := (db.shipments[a.shipment], db.ledgers[a.shipment]);
            var (db', r) := CompleteDelivery(db, id, driver, amount, now);
            && (r == Done <==> a.driver == driver && a.kind == Delivery && a.status == Accepted && FeeMet(l, AtDelivery, amount))
            && (r != Done ==> db' == db)
            && (r == Done ==>
                  && db' == db.(attempts := db.attempts[n := db.attempts[n].(status := Handed)],
                                assignments := db.assignments[id := a.(status := Finished)], drivers := db'.drivers,
                                shipments := db.shipments[a.shipment := row.(status := Delivered, version := row.version + 1)],
                                ledgers := db.ledgers[a.shipment := WithCash(WithFee(l, AtDelivery, driver, amount, now), driver)])
                  && OnlyDriverFreed(db, db', driver))
  {
    hide TripsOk, SchedulesDisjoint, LinksOk, CapacityOk, VehiclesOk, RoutesOk, TransfersOk, ShipmentsOk,
         DriversOk, TasksOk, AttemptsOk, LedgersOk, R.Reachable, OnTask, CollectAt, LedgerOk, AttemptOf;
    R.ReachableInv(db);
    var a := db.assignments[id];
    TaskAt(db.shipments, db.assignments, id);
    LedgerOf(db.shipments, db.ledgers, a.shipment);
    var k := AttemptOf(db.attempts, id);
    if k.Some? { AttemptAt(db, k.value); }
    if a.kind == Delivery && a.status == Accepted {
      OpenAttemptFound(db, id);
      CollectionIs(db.shipments[a.shipment].status, db.ledgers[a.shipment], AtDelivery, a.driver, amount, now);
    } else if k.Some? && db.attempts[k.value].status == Handed {
      AlreadyCollected(db, id, AtDelivery, amount, now);
    }
    if CompleteDelivery(db, id, driver, amount, now).1 == Done { TaskWasOnly(db, CompleteDelivery(db, id, driver, amount, now).0, id); }
  }

  /** An accepted delivery can always be reported failed by its driver. */
  lemma FailExact(db: Db, id: Id, driver: Id, n: Id)
    requires R.Reachable(db) && id < |db.assignments|
    requires db.assignments[id].status == Accepted && db.assignments[id].kind == Delivery ==> OpenAttempt(db, id, n)
    ensures References(db)
    ensures var a := db.assignments[id];
            var row := db.shipments[a.shipment];
            var (db', r) := FailDelivery(db, id, driver);
            && (r == Done <==> a.driver == driver && a.kind == Delivery && a.status == Accepted)
            && (r != Done ==> db' == db)
            && (r == Done ==>
                  && db' == db.(attempts := db.attempts[n := db.attempts[n].(status := Failed)],
                                assignments := db.assignments[id := a.(status := Finished)], drivers := db'.drivers,
                                shipments := db.shipments[a.shipment := row.(status := DeliveryFailed, version := row.version + 1)])
                  && OnlyDriverFreed(db, db', driver))
  {
    hide TripsOk, SchedulesDisjoint, LinksOk, CapacityOk, VehiclesOk, RoutesOk, TransfersOk, ShipmentsOk,
         DriversOk, TasksOk, AttemptsOk, LedgersOk, R.Reachable, OnTask, AttemptOf;
    R.ReachableInv(db);
    TaskAt(db.shipments, db.assignments, id);
    if db.assignments[id].kind == Delivery && db.assignments[id].status == Accepted { OpenAttemptFound(db, id); }
    if FailDelivery(db, id, driver).1 == Done { TaskWasOnly(db, FailDelivery(db, id, driver).0, id); }
  }

  lemma RedeliverExact(db: Db, s: Id)
    requires s < |db.shipments|
    ensures var row := db.shipments[s];
            var (db', r) := Redeliver(db, s);
            && (r == Done <==> row.status == DeliveryFailed)
            && (r == Unchanged <==> row.status == AwaitingDelivery)
            && db' == if r != Done then db
                      else db.(shipments := db.shipments[s := row.(status := AwaitingDelivery, version := row.version + 1)])
  {
  }

  /** A failed delivery goes back to the warehouse named, or else to its origin;
      every parcel that failed has one. */
  lemma RequestReturnExact(db: Db, s: Id, warehouse: Option<Id>)
    requires R.Reachable(db) && s < |db.shipments|
    ensures var row := db.shipments[s];
            var (db', r) := RequestReturn(db, s, warehouse);
            && (row.status == DeliveryFailed ==> row.origin.Some?)
            && (r == Done <==> row.status == DeliveryFailed && Open(db, if warehouse.Some? then warehouse.value else row.origin.value))
            && (r == Unchanged <==> row.status == ReturnRequested)
            && db' == if r != Done then db
                      else db.(shipments := db.shipments[s := row.(status := ReturnRequested, version := row.version + 1,
                                                                   returnTo := Some(if warehouse.Some? then warehouse.value else row.origin.value))])
  {
    hide TripsOk, SchedulesDisjoint, LinksOk, CapacityOk, VehiclesOk, RoutesOk, TransfersOk, ShipmentsOk,
         DriversOk, TasksOk, AttemptsOk, LedgersOk, R.Reachable, References;
    R.ReachableInv(db);
    ShipmentAt(db, s);
  }

  /** What a return that starts writes; when it starts is in `ReturnExact`. */
  lemma StartReturnEffect(db: Db, s: Id, driver: Id)
    requires R.Reachable(db) && s < |db.shipments|
    ensures References(db)
    ensures var row := db.shipments[s];
            var (db', r) := StartReturn(db, s, driver);
            && (r == Done ==> row.status == ReturnRequested)
            && db' == if r != Done then db
                      else db.(shipments := db.shipments[s := row.(status := ReturnInTransit, current := None, version := row.version + 1)])
  {
    hide Inv, R.Reachable, LatestAttempt;
    R.ReachableInv(db);
    Resolves(db);
  }
}

/** Parcel commands keep the joint invariant. */
module KeepParcels {
  import opened Rows
  import opened Ledgers
  import opened LedgerLaws
  import opened Policies
  import opened Tables
  import opened ParcelCommands
  import opened Invariants
  import opened KeepTransfers

  // ----- one shipment row rewritten -----

  lemma ShipmentRowKeepsTransfers(transfers: seq<Transfer>, shipments: seq<Shipment>, id: Id, s: Shipment)
    requires TransfersOk(transfers, shipments) && id < |shipments|
    requires shipments[id].status !in {AtOrigin, InTransit} && s.status != InTransit
    requires AfterTransfer(shipments[id].status) ==> AfterTransfer(s.status)
    ensures TransfersOk(transfers, shipments[id := s])
  {
    forall t | 0 <= t < |transfers| && transfers[t].shipment < |shipments| ensures TransferOk(transfers[t], shipments[id := s][transfers[t].shipment]) {
      assert TransferOk(transfers[t], shipments[transfers[t].shipment]);
    }
  }

  lemma ShipmentRowKeepsAttempts(shipments: seq<Shipment>, assignments: seq<Assignment>, attempts: seq<Attempt>, id: Id, s: Shipment)
    requires AttemptsOk(shipments, assignments, attempts) && id < |shipments|
    requires AfterAttempt(shipments[id].status) ==> AfterAttempt(s.status)
    requires shipments[id].status != Delivered && s.status != Delivered
    requires FailedOrReturning(s.status) ==> FailedOrReturning(shipments[id].status)
    ensures AttemptsOk(shipments[id := s], assignments, attempts)
  {
    var shipments' := shipments[id := s];
    forall k | 0 <= k < |attempts| ensures AttemptOk(attempts[k], assignments, shipments') {
      assert AttemptOk(attempts[k], assignments, shipments);
    }
    forall i | 0 <= i < |shipments'|
      ensures shipments'[i].status == Delivered ==> HasAttemptWith(attempts, i, Handed)
      ensures FailedOrReturning(shipments'[i].status) ==> HasAttemptWith(attempts, i, Failed)
    {
      assert FailedOrReturning(shipments[i].status) ==> HasAttemptWith(attempts, i, Failed);
    }
  }

  lemma ShipmentRowKeepsTasks(shipments: seq<Shipment>, assignments: seq<Assignment>, id: Id, s: Shipment)
    requires TasksOk(shipments, assignments) && id < |shipments|
    requires !Tasked(shipments[id].status) && !Tasked(s.status)
    requires CollectedFromSender(shipments[id].status) ==> CollectedFromSender(s.status)
    ensures TasksOk(shipments[id := s], assignments)
  {
    forall a | 0 <= a < |assignments| ensures TaskOk(assignments[a], shipments[id := s]) {
      assert TaskOk(assignments[a], shipments);
    }
    forall i | 0 <= i < |shipments| && Tasked(shipments[id := s][i].status) ensures HasTask(assignments, i) {
      assert Tasked(shipments[i].status);
    }
  }

  lemma LedgerRowKeepsLedgers(shipments: seq<Shipment>, ledgers: seq<Ledger>, id: Id, s: Shipment, l: Ledger)
    requires LedgersOk(shipments, ledgers) && id < |shipments| == |ledgers|
    requires LedgerOk(s.status, l) && l.terms.customer == s.customer
    ensures LedgersOk(shipments[id := s], ledgers[id := l])
  {
  }

  lemma LedgerOf(shipments: seq<Shipment>, ledgers: seq<Ledger>, id: Id)
    requires LedgersOk(shipments, ledgers) && id < |shipments| == |ledgers|
    ensures LedgerOk(shipments[id].status, ledgers[id]) && ledgers[id].terms.customer == shipments[id].customer
  {
  }

  /** A parcel row change the line-haul tables cannot see. */
  predicate Aside(prior: Shipment, s: Shipment) {
    && prior.status !in {AtOrigin, InTransit} && s.status != InTransit
    && (AfterTransfer(prior.status) ==> AfterTransfer(s.status))
    && (CollectedFromSender(prior.status) ==> CollectedFromSender(s.status))
    && LoadGrams(prior) == LoadGrams(s) && prior.customer == s.customer
    && ShipmentOk(s)
  }

  /** The part of the invariant that speaks of trips, transfers and shipments. */
  predicate NetworkInv(db: Db) {
    && References(db)
    && TripsOk(db.trips)
    && SchedulesDisjoint(db.trips)
    && LinksOk(db.trips, db.links, db.transfers)
    && CapacityOk(db.trips, db.vehicles, db.links, Loads(db.transfers, db.shipments))
    && VehiclesOk(db.trips, db.vehicles)
    && RoutesOk(db.trips, db.routes)
    && TransfersOk(db.transfers, db.shipments)
    && ShipmentsOk(db.shipments)
  }

  lemma AsideKeepsNetwork(db: Db, id: Id, s: Shipment, db': Db)
    requires Inv(db) && id < |db.shipments| && Aside(db.shipments[id], s) && References(db')
    requires db'.shipments == db.shipments[id := s]
    requires db'.trips == db.trips && db'.links == db.links && db'.transfers == db.transfers && db'.vehicles == db.vehicles && db'.routes == db.routes
    ensures NetworkInv(db')
  {
    hide TripsOk, SchedulesDisjoint, LinksOk, CapacityOk, VehiclesOk, RoutesOk, TransfersOk, DriversOk, TasksOk,
         AttemptsOk, LedgersOk;
    ShipmentRowKeepsTransfers(db.transfers, db.shipments, id, s);
    SameLoads(db.transfers, db.transfers, db.shipments, db'.shipments);
  }

  // ----- status changes without a task -----

  predicate SamePhase(a: ShipmentStatus, b: ShipmentStatus) {
    && !Tasked(a) && !Tasked(b)
    && (CollectedFromSender(a) <==> CollectedFromSender(b))
    && (AfterAttempt(a) ==> AfterAttempt(b))
    && a !in {Delivered, Cancelled} && b !in {Delivered, Cancelled}
    && (FailedOrReturning(b) ==> FailedOrReturning(a))
  }

  lemma StatusChangeKeeps(db: Db, id: Id, s: Shipment)
    requires Inv(db) && id < |db.shipments| && Aside(db.shipments[id], s) && SamePhase(db.shipments[id].status, s.status)
    ensures Inv(db.(shipments := db.shipments[id := s]))
  {
    hide TripsOk, SchedulesDisjoint, LinksOk, CapacityOk, VehiclesOk, RoutesOk, TransfersOk, ShipmentsOk,
         DriversOk, TasksOk, AttemptsOk, LedgersOk;
    var db' := db.(shipments := db.shipments[id := s]);
    AsideKeepsNetwork(db, id, s, db');
    ShipmentRowKeepsTasks(db.shipments, db.assignments, id, s);
    ShipmentRowKeepsAttempts(db.shipments, db.assignments, db.attempts, id, s);
    LedgerOf(db.shipments, db.ledgers, id);
    LedgerRowKeepsLedgers(db.shipments, db.ledgers, id, s, db.ledgers[id]);
    assert db.ledgers[id := db.ledgers[id]] == db.ledgers;
  }

  lemma ConfirmKeeps(db: Db, id: Id)
    requires Inv(db)
    ensures Inv(ConfirmShipment(db, id).0)
  {
    hide SchedulesDisjoint, LinksOk, CapacityOk, VehiclesOk, RoutesOk, TransfersOk, DriversOk, TasksOk, AttemptsOk, LedgersOk;
    if ConfirmShipment(db, id).1 == Done {
      assert ShipmentOk(db.shipments[id]);
      StatusChangeKeeps(db, id, ConfirmShipment(db, id).0.shipments[id]);
    }
  }

  lemma RedeliverKeeps(db: Db, id: Id)
    requires Inv(db)
    ensures Inv(Redeliver(db, id).0)
  {
    hide SchedulesDisjoint, LinksOk, CapacityOk, VehiclesOk, RoutesOk, TransfersOk, DriversOk, TasksOk, AttemptsOk, LedgersOk;
    if Redeliver(db, id).1 == Done {
      assert ShipmentOk(db.shipments[id]);
      StatusChangeKeeps(db, id, Redeliver(db, id).0.shipments[id]);
    }
  }

  lemma RequestReturnKeeps(db: Db, id: Id, warehouse: Option<Id>)
    requires Inv(db)
    ensures Inv(RequestReturn(db, id, warehouse).0)
  {
    hide SchedulesDisjoint, LinksOk, CapacityOk, VehiclesOk, RoutesOk, TransfersOk, DriversOk, TasksOk, AttemptsOk, LedgersOk;
    if RequestReturn(db, id, warehouse).1 == Done {
      assert ShipmentOk(db.shipments[id]);
      StatusChangeKeeps(db, id, RequestReturn(db, id, warehouse).0.shipments[id]);
    }
  }

  lemma StartReturnKeeps(db: Db, id: Id, driver: Id)
    requires Inv(db)
    ensures Inv(StartReturn(db, id, driver).0)
  {
    hide SchedulesDisjoint, LinksOk, CapacityOk, VehiclesOk, RoutesOk, TransfersOk, DriversOk, TasksOk, AttemptsOk, LedgersOk;
    if StartReturn(db, id, driver).1 == Done {
      assert ShipmentOk(db.shipments[id]);
      StatusChangeKeeps(db, id, StartReturn(db, id, driver).0.shipments[id]);
    }
  }

  lemma ReceiveReturnKeeps(db: Db, warehouse: Id, id: Id)
    requires Inv(db)
    ensures Inv(ReceiveReturn(db, warehouse, id).0)
  {
    hide SchedulesDisjoint, LinksOk, CapacityOk, VehiclesOk, RoutesOk, TransfersOk, DriversOk, TasksOk, AttemptsOk, LedgersOk;
    if ReceiveReturn(db, warehouse, id).1 == Done {
      assert ShipmentOk(db.shipments[id]);
      StatusChangeKeeps(db, id, ReceiveReturn(db, warehouse, id).0.shipments[id]);
    }
  }

  lemma CancelShipmentKeeps(db: Db, id: Id, customer: Id)
    requires Inv(db)
    ensures Inv(CancelShipment(db, id, customer).0)
  {
    hide SchedulesDisjoint, LinksOk, CapacityOk, VehiclesOk, RoutesOk, TransfersOk, DriversOk, TasksOk, AttemptsOk, LedgersOk;
    if CancelShipment(db, id, customer).1 == Done {
      var db' := CancelShipment(db, id, customer).0;
      var s := db'.shipments[id];
      assert ShipmentOk(db.shipments[id]);
      AsideKeepsNetwork(db, id, s, db');
      ShipmentRowKeepsTasks(db.shipments, db.assignments, id, s);
      ShipmentRowKeepsAttempts(db.shipments, db.assignments, db.attempts, id, s);
      LedgerOf(db.shipments, db.ledgers, id);
      CancelledLedger(db.shipments[id].status, db.ledgers[id]);
      LedgerRowKeepsLedgers(db.shipments, db.ledgers, id, s, db'.ledgers[id]);
    }
  }

  lemma CancelledLedger(status: ShipmentStatus, l: Ledger)
    requires LedgerOk(status, l) && status in {Pending, Confirmed, AwaitingPickup} && CancelFee(l).Ok?
    ensures LedgerOk(Cancelled, CancelFee(l).value) && CancelFee(l).value.terms == l.terms
  {
  }

  // ----- a new shipment -----

  lemma CreateShipmentKeeps(db: Db, key: Id, terms: Terms, grams: int)
    requires Inv(db)
    ensures Inv(CreateShipment(db, key, terms, grams).0)
  {
    hide TripsOk, SchedulesDisjoint, LinksOk, CapacityOk, VehiclesOk, RoutesOk, TransfersOk, DriversOk, TasksOk,
         AttemptsOk, LedgersOk;
    if CreateShipment(db, key, terms, grams).1 == Done {
      var db' := CreateShipment(db, key, terms, grams).0;
      var s := db'.shipments[|db.shipments|];
      NewShipmentKeepsTransfers(db.transfers, db.shipments, s);
      NewShipmentKeepsTasks(db, s);
      NewShipmentKeepsAttempts(db, s);
      NewShipmentKeepsLedgers(db.shipments, db.ledgers, s, db'.ledgers[|db.ledgers|]);
      assert Loads(db'.transfers, db'.shipments) == Loads(db.transfers, db.shipments);
    }
  }

  lemma NewShipmentKeepsTransfers(transfers: seq<Transfer>, shipments: seq<Shipment>, s: Shipment)
    requires TransfersOk(transfers, shipments) && s.status == Pending
    requires forall t :: 0 <= t < |transfers| ==> transfers[t].shipment < |shipments|
    ensures TransfersOk(transfers, shipments + [s])
  {
    forall t | 0 <= t < |transfers| ensures TransferOk(transfers[t], (shipments + [s])[transfers[t].shipment]) {
      assert TransferOk(transfers[t], shipments[transfers[t].shipment]);
    }
  }

  lemma NewShipmentKeepsTasks(db: Db, s: Shipment)
    requires References(db) && TasksOk(db.shipments, db.assignments) && s.status == Pending
    ensures TasksOk(db.shipments + [s], db.assignments)
  {
    forall a | 0 <= a < |db.assignments| ensures TaskOk(db.assignments[a], db.shipments + [s]) {
      assert TaskOk(db.assignments[a], db.shipments);
    }
  }

  lemma NewShipmentKeepsAttempts(db: Db, s: Shipment)
    requires References(db) && AttemptsOk(db.shipments, db.assignments, db.attempts) && s.status == Pending
    ensures AttemptsOk(db.shipments + [s], db.assignments, db.attempts)
  {
    forall k | 0 <= k < |db.attempts| ensures AttemptOk(db.attempts[k], db.assignments, db.shipments + [s]) {
      assert AttemptOk(db.attempts[k], db.assignments, db.shipments);
    }
  }

  lemma NewShipmentKeepsLedgers(shipments: seq<Shipment>, ledgers: seq<Ledger>, s: Shipment, l: Ledger)
    requires LedgersOk(shipments, ledgers) && |shipments| == |ledgers|
    requires LedgerOk(s.status, l) && l.terms.customer == s.customer
    ensures LedgersOk(shipments + [s], ledgers + [l])
  {
  }

  // ----- money commands -----

  lemma MoneyKeeps(db: Db, id: Id, c: MoneyCommand)
    requires Inv(db) && id < |db.ledgers|
    ensures Inv(db.(ledgers := db.ledgers[id := MoneyStep(db.ledgers[id], c).0]))
    ensures MoneyStep(db.ledgers[id], c).1 != Done ==> MoneyStep(db.ledgers[id], c).0 == db.ledgers[id]
  {
    hide TripsOk, SchedulesDisjoint, LinksOk, CapacityOk, VehiclesOk, RoutesOk, TransfersOk, ShipmentsOk,
         DriversOk, TasksOk, AttemptsOk, LedgersOk, MoneyStep, LedgerOk;
    LedgerOf(db.shipments, db.ledgers, id);
    MoneyStepKeeps(db.shipments[id].status, db.ledgers[id], c);
    MoneyKeepsTerms(db.ledgers[id], c);
    LedgerRowKeepsLedgers(db.shipments, db.ledgers, id, db.shipments[id], MoneyStep(db.ledgers[id], c).0);
    assert db.shipments[id := db.shipments[id]] == db.shipments;
  }

  lemma MoneyKeepsTerms(l: Ledger, c: MoneyCommand)
    ensures MoneyStep(l, c).0.terms == l.terms
  {
  }

  // ----- a task is offered -----

  lemma NewTaskKeepsTasks(shipments: seq<Shipment>, assignments: seq<Assignment>, id: Id, s: Shipment, a: Assignment)
    requires TasksOk(shipments, assignments) && id < |shipments| && a.shipment == id
    requires !Tasked(shipments[id].status) && a.kind in {Pickup, Delivery} && a.status == Offered && !a.proof && s.status == TaskStatus(a.kind, Offered)
    requires CollectedFromSender(shipments[id].status) ==> CollectedFromSender(s.status)
    ensures TasksOk(shipments[id := s], assignments + [a])
  {
    var shipments', assignments' := shipments[id := s], assignments + [a];
    forall i | 0 <= i < |assignments'| ensures TaskOk(assignments'[i], shipments') {
      if i < |assignments| { assert TaskOk(assignments[i], shipments); }
    }
    forall i, j | 0 <= i < j < |assignments'| && ActiveAssignment(assignments'[i].status) && ActiveAssignment(assignments'[j].status)
      ensures assignments'[i].shipment != assignments'[j].shipment
    {
      assert TaskOk(assignments[i], shipments);
    }
    forall i | 0 <= i < |shipments'| && Tasked(shipments'[i].status) ensures HasTask(assignments', i) {
      if i == id {
        assert assignments'[|assignments|] == a;
      } else {
        assert HasTask(assignments, i);
        var k :| 0 <= k < |assignments| && assignments[k].shipment == i && ActiveAssignment(assignments[k].status);
        assert assignments'[k] == assignments[k];
      }
    }
  }

  lemma NewTaskKeepsDrivers(drivers: seq<Driver>, trips: seq<Trip>, assignments: seq<Assignment>, a: Assignment)
    requires DriversOk(drivers, trips, assignments) && a.driver < |drivers| && a.status == Offered
    requires drivers[a.driver].available && drivers[a.driver].userActive && a.kind in drivers[a.driver].capabilities
    requires !DriverExecuting(trips, a.driver)
    ensures DriversOk(drivers[a.driver := Occupied(drivers[a.driver])], trips, assignments + [a])
  {
    var drivers', assignments' := drivers[a.driver := Occupied(drivers[a.driver])], assignments + [a];
    forall i | 0 <= i < |assignments| && ActiveAssignment(assignments[i].status) ensures assignments[i].driver != a.driver && Occupies(assignments[i], drivers') {
      assert Occupies(assignments[i], drivers);
    }
    forall t | 0 <= t < |trips| && ExecutingTrip(trips[t].status) && trips[t].driver < |drivers'|
      ensures DriverError(drivers'[trips[t].driver]) == None && !DriverAssigned(assignments', trips[t].driver)
    {
      assert trips[t].driver != a.driver;
      assert DriverError(drivers[trips[t].driver]) == None && !DriverAssigned(assignments, trips[t].driver);
    }
  }

  lemma NewTaskKeepsAttempts(shipments: seq<Shipment>, assignments: seq<Assignment>, attempts: seq<Attempt>, a: Assignment)
    requires AttemptsOk(shipments, assignments, attempts) && a.status == Offered
    requires forall k :: 0 <= k < |attempts| ==> attempts[k].assignment < |assignments|
    ensures AttemptsOk(shipments, assignments + [a], attempts)
  {
    var assignments' := assignments + [a];
    forall k | 0 <= k < |attempts| ensures AttemptOk(attempts[k], assignments', shipments) {
      assert AttemptOk(attempts[k], assignments, shipments);
    }
  }

  lemma OfferKeeps(db: Db, a: Assignment, s: Shipment)
    requires Inv(db) && a.shipment < |db.shipments| && a.driver < |db.drivers| && a.kind in {Pickup, Delivery} && a.status == Offered && !a.proof
    requires var prior := db.shipments[a.shipment]; prior.status == (if a.kind == Pickup then AwaitingPickup else AwaitingDelivery) && s == WithStatus(prior, TaskStatus(a.kind, Offered))
    requires var d := db.drivers[a.driver]; d.available && d.userActive && a.kind in d.capabilities && !DriverExecuting(db.trips, a.driver)
    ensures Inv(db.(assignments := db.assignments + [a], drivers := db.drivers[a.driver := Occupied(db.drivers[a.driver])],
                    shipments := db.shipments[a.shipment := s]))
  {
    hide SchedulesDisjoint, LinksOk, CapacityOk, VehiclesOk, RoutesOk, TransfersOk, DriversOk, TasksOk, AttemptsOk, LedgersOk;
    var db' := db.(assignments := db.assignments + [a], drivers := db.drivers[a.driver := Occupied(db.drivers[a.driver])],
                   shipments := db.shipments[a.shipment := s]);
    assert ShipmentOk(db.shipments[a.shipment]);
    AsideKeepsNetwork(db, a.shipment, s, db');
    NewTaskKeepsTasks(db.shipments, db.assignments, a.shipment, s, a);
    NewTaskKeepsDrivers(db.drivers, db.trips, db.assignments, a);
    ShipmentRowKeepsAttempts(db.shipments, db.assignments, db.attempts, a.shipment, s);
    NewTaskKeepsAttempts(db'.shipments, db.assignments, db.attempts, a);
    LedgerOf(db.shipments, db.ledgers, a.shipment);
    LedgerRowKeepsLedgers(db.shipments, db.ledgers, a.shipment, s, db.ledgers[a.shipment]);
    assert db.ledgers[a.shipment := db.ledgers[a.shipment]] == db.ledgers;
  }

  lemma AssignDeliveryKeeps(db: Db, key: Id, shipment: Id, driver: Id, located: bool)
    requires Inv(db)
    ensures Inv(AssignDelivery(db, key, shipment, driver, located).0)
  {
    hide SchedulesDisjoint, LinksOk, CapacityOk, VehiclesOk, RoutesOk, TransfersOk, ShipmentsOk, DriversOk,
         TasksOk, AttemptsOk, LedgersOk;
    if AssignDelivery(db, key, shipment, driver, located).1 == Done {
      var db' := AssignDelivery(db, key, shipment, driver, located).0;
      OfferKeeps(db, db'.assignments[|db.assignments|], db'.shipments[shipment]);
    }
  }

  // ----- a task moves on or ends -----

  lemma TaskRowKeepsTasks(shipments: seq<Shipment>, assignments: seq<Assignment>, k: Id, a: Assignment, s: Shipment)
    requires TasksOk(shipments, assignments) && k < |assignments| && ActiveAssignment(assignments[k].status)
    requires a.shipment == assignments[k].shipment < |shipments| && a.kind == assignments[k].kind
    requires if ActiveAssignment(a.status) then s.status == TaskStatus(a.kind, a.status) else !Tasked(s.status)
    requires a.proof <==> a.kind == Pickup && a.status == Finished
    requires (a.proof || CollectedFromSender(shipments[a.shipment].status)) ==> CollectedFromSender(s.status)
    ensures TasksOk(shipments[a.shipment := s], assignments[k := a])
  {
    var shipments', assignments' := shipments[a.shipment := s], assignments[k := a];
    forall i | 0 <= i < |assignments'| ensures TaskOk(assignments'[i], shipments') {
      assert TaskOk(assignments[i], shipments);
    }
    forall i | 0 <= i < |shipments'| && Tasked(shipments'[i].status) ensures HasTask(assignments', i) {
      if i == a.shipment {
        assert assignments'[k] == a;
      } else {
        assert HasTask(assignments, i);
        var j :| 0 <= j < |assignments| && assignments[j].shipment == i && ActiveAssignment(assignments[j].status);
        assert assignments'[j] == assignments[j];
      }
    }
  }

  lemma TaskRowKeepsDrivers(drivers: seq<Driver>, trips: seq<Trip>, assignments: seq<Assignment>, k: Id, a: Assignment)
    requires DriversOk(drivers, trips, assignments) && k < |assignments| && a.driver == assignments[k].driver && a.kind == assignments[k].kind
    requires ActiveAssignment(assignments[k].status)
    ensures DriversOk(drivers, trips, assignments[k := a])
  {
    var assignments' := assignments[k := a];
    forall i | 0 <= i < |assignments'| ensures Occupies(assignments'[i], drivers) {
      assert Occupies(assignments[i], drivers);
    }
    forall t | 0 <= t < |trips| && ExecutingTrip(trips[t].status) && trips[t].driver < |drivers|
      ensures !DriverAssigned(assignments', trips[t].driver)
    {
      assert !DriverAssigned(assignments, trips[t].driver);
    }
  }

  /** When a task ends its driver may be released. */
  lemma EndedTaskKeepsDrivers(drivers: seq<Driver>, trips: seq<Trip>, assignments: seq<Assignment>, k: Id, a: Assignment, d: Driver)
    requires DriversOk(drivers, trips, assignments) && k < |assignments| && a.driver == assignments[k].driver < |drivers|
    requires ActiveAssignment(assignments[k].status) && !ActiveAssignment(a.status) && a.kind == assignments[k].kind
    requires d.userActive == drivers[a.driver].userActive && d.status != Suspended && (d.available ==> d.status == Free && d.online)
    ensures DriversOk(drivers[a.driver := d], trips, assignments[k := a])
  {
    var drivers', assignments' := drivers[a.driver := d], assignments[k := a];
    assert Occupies(assignments[k], drivers) && DriverOk(drivers[a.driver]);
    forall i | 0 <= i < |assignments'| ensures Occupies(assignments'[i], drivers') {
      assert Occupies(assignments[i], drivers);
    }
    forall t | 0 <= t < |trips| && ExecutingTrip(trips[t].status) && trips[t].driver < |drivers|
      ensures DriverError(drivers'[trips[t].driver]) == None && !DriverAssigned(assignments', trips[t].driver)
    {
      assert DriverError(drivers[trips[t].driver]) == None && !DriverAssigned(assignments, trips[t].driver);
      assert trips[t].driver != a.driver;
    }
  }

  lemma PickupRowKeepsAttempts(shipments: seq<Shipment>, assignments: seq<Assignment>, attempts: seq<Attempt>, k: Id, a: Assignment)
    requires AttemptsOk(shipments, assignments, attempts) && k < |assignments| && assignments[k].kind == Pickup && a.kind == Pickup
    requires forall i :: 0 <= i < |attempts| ==> attempts[i].shipment < |shipments|
    ensures AttemptsOk(shipments, assignments[k := a], attempts)
  {
    forall i | 0 <= i < |attempts| ensures AttemptOk(attempts[i], assignments[k := a], shipments) {
      assert AttemptOk(attempts[i], assignments, shipments);
    }
  }

  lemma TaskAt(shipments: seq<Shipment>, assignments: seq<Assignment>, k: Id)
    requires TasksOk(shipments, assignments) && k < |assignments|
    ensures TaskOk(assignments[k], shipments)
  {
  }

  /** A pickup task row changes together with its shipment, driver and ledger. */
  lemma PickupRowKeeps(db: Db, k: Id, a: Assignment, s: Shipment, d: Driver, l: Ledger)
    requires Inv(db) && k < |db.assignments| && db.assignments[k].kind == Pickup && ActiveAssignment(db.assignments[k].status)
    requires a == db.assignments[k].(status := a.status, proof := a.proof) && (a.proof <==> a.status == Finished)
    requires Aside(db.shipments[a.shipment], s)
    requires if ActiveAssignment(a.status) then s.status == TaskStatus(Pickup, a.status) else s.status == (if a.proof then PickedUp else AwaitingPickup)
    requires if ActiveAssignment(a.status) then d == db.drivers[a.driver]
             else d.userActive == db.drivers[a.driver].userActive && d.status != Suspended && (d.available ==> d.status == Free && d.online)
    requires d.home < |db.warehouses|
    requires LedgerOk(s.status, l) && l.terms.customer == s.customer
    ensures Inv(db.(assignments := db.assignments[k := a], drivers := db.drivers[a.driver := d],
                    shipments := db.shipments[a.shipment := s], ledgers := db.ledgers[a.shipment := l]))
  {
    hide TripsOk, SchedulesDisjoint, LinksOk, CapacityOk, VehiclesOk, RoutesOk, TransfersOk, ShipmentsOk,
         DriversOk, TasksOk, AttemptsOk, LedgersOk, LedgerOk;
    var db' := db.(assignments := db.assignments[k := a], drivers := db.drivers[a.driver := d],
                   shipments := db.shipments[a.shipment := s], ledgers := db.ledgers[a.shipment := l]);
    TaskAt(db.shipments, db.assignments, k);
    AsideKeepsNetwork(db, a.shipment, s, db');
    TaskRowKeepsTasks(db.shipments, db.assignments, k, a, s);
    if ActiveAssignment(a.status) {
      assert db'.drivers == db.drivers;
      TaskRowKeepsDrivers(db.drivers, db.trips, db.assignments, k, a);
    } else {
      EndedTaskKeepsDrivers(db.drivers, db.trips, db.assignments, k, a, d);
    }
    ShipmentRowKeepsAttempts(db.shipments, db.assignments, db.attempts, a.shipment, s);
    PickupRowKeepsAttempts(db'.shipments, db.assignments, db.attempts, k, a);
    LedgerRowKeepsLedgers(db.shipments, db.ledgers, a.shipment, s, l);
  }

  /** Reassigning is replacing the old task and then offering a new one. */
  lemma ReassignKeeps(db: Db, k: Id, a: Assignment, s: Shipment)
    requires Inv(db) && k < |db.assignments| && db.assignments[k].kind == Pickup && ActiveAssignment(db.assignments[k].status)
    requires a.shipment == db.assignments[k].shipment && a.driver < |db.drivers| && a.driver != db.assignments[k].driver
    requires a.kind == Pickup && a.status == Offered && !a.proof
    requires s == WithStatus(db.shipments[a.shipment], PickupAssigned)
    requires var d := db.drivers[a.driver]; d.available && d.userActive && Pickup in d.capabilities && !DriverExecuting(db.trips, a.driver)
    ensures var p := db.assignments[k].(status := Replaced);
            Inv(db.(assignments := db.assignments[k := p] + [a],
                    drivers := db.drivers[p.driver := Relieved(db.drivers[p.driver])][a.driver := Occupied(db.drivers[a.driver])],
                    shipments := db.shipments[a.shipment := s]))
  {
    hide TripsOk, SchedulesDisjoint, LinksOk, CapacityOk, VehiclesOk, RoutesOk, TransfersOk, ShipmentsOk,
         DriversOk, TasksOk, AttemptsOk, LedgersOk, LedgerOk;
    var p := db.assignments[k].(status := Replaced);
    var s1 := db.shipments[a.shipment].(status := AwaitingPickup);
    TaskAt(db.shipments, db.assignments, k);
    ShipmentAt(db, a.shipment);
    LedgerOf(db.shipments, db.ledgers, a.shipment);
    LedgerInPickup(db.shipments[a.shipment].status, s1.status, db.ledgers[a.shipment]);
    PickupRowKeeps(db, k, p, s1, Relieved(db.drivers[p.driver]), db.ledgers[a.shipment]);
    var db1 := db.(assignments := db.assignments[k := p], drivers := db.drivers[p.driver := Relieved(db.drivers[p.driver])],
                   shipments := db.shipments[a.shipment := s1], ledgers := db.ledgers[a.shipment := db.ledgers[a.shipment]]);
    assert db1.ledgers == db.ledgers;
    OfferKeeps(db1, a, s.(version := s1.version + 1));
    assert db1.shipments[a.shipment := s] == db.shipments[a.shipment := s];
  }

  predicate InPickup(s: ShipmentStatus) {
    s in {AwaitingPickup, PickupAssigned, PickupInProgress}
  }

  lemma LedgerInPickup(a: ShipmentStatus, b: ShipmentStatus, l: Ledger)
    requires LedgerOk(a, l) && InPickup(a) && InPickup(b)
    ensures LedgerOk(b, l)
  {
  }

  lemma AssignPickupKeeps(db: Db, key: Id, shipment: Id, driver: Id, located: bool, reassign: bool)
    requires Inv(db)
    ensures Inv(AssignPickup(db, key, shipment, driver, located, reassign).0)
  {
    hide TripsOk, SchedulesDisjoint, LinksOk, CapacityOk, VehiclesOk, RoutesOk, TransfersOk, ShipmentsOk,
         DriversOk, TasksOk, AttemptsOk, LedgersOk, LedgerOk;
    if AssignPickup(db, key, shipment, driver, located, reassign).1 == Done {
      var a := Assignment(key, shipment, driver, Pickup, Offered, false);
      var s := WithStatus(db.shipments[shipment], PickupAssigned);
      var previous := CurrentAssignment(db.assignments, shipment, Pickup);
      if previous == None {
        OfferKeeps(db, a, s);
      } else {
        ReassignKeeps(db, previous.value, a, s);
      }
    }
  }

  lemma ShipmentAt(db: Db, id: Id)
    requires ShipmentsOk(db.shipments) && id < |db.shipments|
    ensures ShipmentOk(db.shipments[id])
  {
  }

  lemma AcceptKeeps(db: Db, id: Id, driver: Id)
    requires Inv(db)
    ensures Inv(AcceptPickup(db, id, driver).0)
  {
    hide TripsOk, SchedulesDisjoint, LinksOk, CapacityOk, VehiclesOk, RoutesOk, TransfersOk, ShipmentsOk,
         DriversOk, TasksOk, AttemptsOk, LedgersOk, LedgerOk;
    if AcceptPickup(db, id, driver).1 == Done {
      var a := db.assignments[id].(status := Accepted);
      var s := WithStatus(db.shipments[a.shipment], PickupInProgress);
      TaskAt(db.shipments, db.assignments, id);
      ShipmentAt(db, a.shipment);
      LedgerOf(db.shipments, db.ledgers, a.shipment);
      LedgerInPickup(PickupAssigned, PickupInProgress, db.ledgers[a.shipment]);
      PickupRowKeeps(db, id, a, s, db.drivers[a.driver], db.ledgers[a.shipment]);
      assert db.ledgers[a.shipment := db.ledgers[a.shipment]] == db.ledgers;
      assert db.drivers[a.driver := db.drivers[a.driver]] == db.drivers;
    }
  }

  lemma DriverAt(db: Db, k: Id)
    requires References(db) && DriversOk(db.drivers, db.trips, db.assignments) && k < |db.assignments|
    ensures Occupies(db.assignments[k], db.drivers) && DriverOk(db.drivers[db.assignments[k].driver])
  {
  }

  lemma RejectKeeps(db: Db, id: Id, driver: Id)
    requires Inv(db)
    ensures Inv(RejectPickup(db, id, driver).0)
  {
    hide TripsOk, SchedulesDisjoint, LinksOk, CapacityOk, VehiclesOk, RoutesOk, TransfersOk, ShipmentsOk,
         DriversOk, TasksOk, AttemptsOk, LedgersOk, LedgerOk;
    if RejectPickup(db, id, driver).1 == Done {
      var db' := RejectPickup(db, id, driver).0;
      var a := db.assignments[id].(status := Rejected);
      TaskAt(db.shipments, db.assignments, id);
      ShipmentAt(db, a.shipment);
      DriverAt(db, id);
      LedgerOf(db.shipments, db.ledgers, a.shipment);
      LedgerInPickup(db.shipments[a.shipment].status, AwaitingPickup, db.ledgers[a.shipment]);
      PickupRowKeeps(db, id, a, db'.shipments[a.shipment], db'.drivers[a.driver], db.ledgers[a.shipment]);
      assert db.ledgers[a.shipment := db.ledgers[a.shipment]] == db.ledgers;
    }
  }

  lemma PickUpLedger(l: Ledger, driver: Id, amount: Option<int>, now: int)
    requires LedgerOk(PickupInProgress, l) && CollectAt(l, AtPickup, driver, amount, now).Ok?
    ensures LedgerOk(PickedUp, CollectAt(l, AtPickup, driver, amount, now).value) && CollectAt(l, AtPickup, driver, amount, now).value.terms == l.terms
  {
    CollectedOnce(PickupInProgress, l, AtPickup, driver, amount, now);
  }

  /** Retrying a pickup or a delivery never collects again. */
  lemma CollectedAlready(status: ShipmentStatus, l: Ledger, point: Point, driver: Id, amount: Option<int>, now: int)
    requires LedgerOk(status, l) && CollectAt(l, point, driver, amount, now).Ok?
    requires if point == AtPickup then CollectedFromSender(status) else status == Delivered
    ensures CollectAt(l, point, driver, amount, now).value == l
  {
    CollectedOnce(status, l, point, driver, amount, now);
  }

  lemma PickUpKeeps(db: Db, id: Id, driver: Id, amount: Option<int>, now: int)
    requires Inv(db)
    ensures Inv(PickUp(db, id, driver, amount, now).0)
  {
    hide TripsOk, SchedulesDisjoint, LinksOk, CapacityOk, VehiclesOk, RoutesOk, TransfersOk, ShipmentsOk,
         DriversOk, TasksOk, AttemptsOk, LedgersOk, LedgerOk, CollectAt;
    if id < |db.assignments| && !PickUp(db, id, driver, amount, now).1.Refused? {
      var db' := PickUp(db, id, driver, amount, now).0;
      var a := db.assignments[id];
      TaskAt(db.shipments, db.assignments, id);
      ShipmentAt(db, a.shipment);
      DriverAt(db, id);
      LedgerOf(db.shipments, db.ledgers, a.shipment);
      if a.proof {
        CollectedAlready(db.shipments[a.shipment].status, db.ledgers[a.shipment], AtPickup, a.driver, amount, now);
        assert db'.ledgers == db.ledgers;
      } else {
        PickUpLedger(db.ledgers[a.shipment], a.driver, amount, now);
        PickupRowKeeps(db, id, a.(status := Finished, proof := true), db'.shipments[a.shipment], db'.drivers[a.driver], db'.ledgers[a.shipment]);
      }
    }
  }

  // ----- delivery tasks -----

  /** While a delivery is only offered, no attempt is under it and none of its
      shipment's earlier attempts is still open. */
  lemma OfferedHasNoAttempt(shipments: seq<Shipment>, assignments: seq<Assignment>, attempts: seq<Attempt>, k: Id)
    requires forall i :: 0 <= i < |attempts| ==> AttemptOk(attempts[i], assignments, shipments)
    requires forall i :: 0 <= i < |attempts| ==> attempts[i].shipment < |shipments| && attempts[i].assignment < |assignments|
    requires k < |assignments| && assignments[k].status == Offered
    requires forall i :: 0 <= i < |assignments| && i != k && ActiveAssignment(assignments[i].status) ==> assignments[i].shipment != assignments[k].shipment
    requires assignments[k].shipment < |shipments| && shipments[assignments[k].shipment].status == DeliveryAssigned
    ensures forall i :: 0 <= i < |attempts| ==>
              attempts[i].assignment != k && (attempts[i].shipment == assignments[k].shipment ==> attempts[i].status == Failed)
  {
    forall i | 0 <= i < |attempts|
      ensures attempts[i].assignment != k && (attempts[i].shipment == assignments[k].shipment ==> attempts[i].status == Failed)
    {
      assert AttemptOk(attempts[i], assignments, shipments);
    }
  }

  lemma StartKeepsRows(shipments: seq<Shipment>, assignments: seq<Assignment>, attempts: seq<Attempt>, k: Id, s: Shipment, n: Attempt)
    requires forall i :: 0 <= i < |attempts| ==> AttemptOk(attempts[i], assignments, shipments) && attempts[i].assignment != k
    requires k < |assignments| && assignments[k].kind == Delivery && assignments[k].shipment == n.shipment < |shipments| && n.assignment == k && n.status == Outgoing
    requires shipments[n.shipment].status == DeliveryAssigned && s.status == OutForDelivery
    ensures var shipments', assignments', attempts' := shipments[n.shipment := s], assignments[k := assignments[k].(status := Accepted)], attempts + [n];
            forall i :: 0 <= i < |attempts'| ==> AttemptOk(attempts'[i], assignments', shipments')
  {
    forall i | 0 <= i < |attempts|
      ensures AttemptOk(attempts[i], assignments[k := assignments[k].(status := Accepted)], shipments[n.shipment := s])
    {
      assert AttemptOk(attempts[i], assignments, shipments);
    }
  }

  lemma AppendKeepsNumbers(attempts: seq<Attempt>, n: Attempt)
    requires AttemptsNumbered(attempts) && n.number == CountAttempts(attempts, n.shipment) + 1
    ensures AttemptsNumbered(attempts + [n])
  {
    var attempts' := attempts + [n];
    forall i | 0 <= i < |attempts'| ensures attempts'[i].number == CountAttempts(attempts'[..i], attempts'[i].shipment) + 1 {
      assert attempts'[..i] == attempts[..i];
      assert attempts[..|attempts|] == attempts;
    }
  }

  lemma AppendKeepsAccepted(assignments: seq<Assignment>, attempts: seq<Attempt>, k: Id, n: Attempt)
    requires AcceptedAttempted(assignments, attempts) && k < |assignments| && n.assignment == k
    ensures AcceptedAttempted(assignments[k := assignments[k].(status := Accepted)], attempts + [n])
  {
    var assignments', attempts' := assignments[k := assignments[k].(status := Accepted)], attempts + [n];
    assert attempts'[|attempts|].assignment == k;
    forall a | 0 <= a < |assignments| && a != k && HasAttempt(attempts, a) ensures HasAttempt(attempts', a) {
      var i :| 0 <= i < |attempts| && attempts[i].assignment == a;
      assert attempts'[i] == attempts[i];
    }
  }

  lemma AppendKeepsOutcomes(shipments: seq<Shipment>, attempts: seq<Attempt>, n: Attempt, s: Shipment)
    requires OutcomesAttempted(shipments, attempts) && n.shipment < |shipments| && s.status == OutForDelivery
    ensures OutcomesAttempted(shipments[n.shipment := s], attempts + [n])
  {
    forall i: Id, x: AttemptStatus | HasAttemptWith(attempts, i, x) ensures HasAttemptWith(attempts + [n], i, x) {
      AppendedAttemptsHave(attempts, attempts + [n], i, x);
    }
  }

  lemma StartKeepsAttempts(shipments: seq<Shipment>, assignments: seq<Assignment>, attempts: seq<Attempt>, k: Id, s: Shipment)
    requires AttemptsOk(shipments, assignments, attempts) && k < |assignments| && assignments[k].kind == Delivery && assignments[k].status == Offered
    requires forall i :: 0 <= i < |attempts| ==> attempts[i].shipment < |shipments| && attempts[i].assignment < |assignments|
    requires forall i :: 0 <= i < |assignments| && i != k && ActiveAssignment(assignments[i].status) ==> assignments[i].shipment != assignments[k].shipment
    requires assignments[k].shipment < |shipments| && shipments[assignments[k].shipment].status == DeliveryAssigned && s.status == OutForDelivery
    ensures var id := assignments[k].shipment;
            AttemptsOk(shipments[id := s], assignments[k := assignments[k].(status := Accepted)],
                       attempts + [Attempt(id, k, CountAttempts(attempts, id) + 1, Outgoing)])
  {
    hide AttemptsNumbered, AcceptedAttempted, OutcomesAttempted, AttemptOk;
    var id := assignments[k].shipment;
    var n := Attempt(id, k, CountAttempts(attempts, id) + 1, Outgoing);
    OfferedHasNoAttempt(shipments, assignments, attempts, k);
    StartKeepsRows(shipments, assignments, attempts, k, s, n);
    AppendKeepsNumbers(attempts, n);
    AppendKeepsAccepted(assignments, attempts, k, n);
    AppendKeepsOutcomes(shipments, attempts, n, s);
  }

  lemma AppendedAttemptsHave(attempts: seq<Attempt>, attempts': seq<Attempt>, shipment: Id, status: AttemptStatus)
    requires attempts <= attempts'
    ensures HasAttemptWith(attempts, shipment, status) ==> HasAttemptWith(attempts', shipment, status)
  {
    if HasAttemptWith(attempts, shipment, status) {
      var k :| 0 <= k < |attempts| && attempts[k].shipment == shipment && attempts[k].status == status;
      assert attempts'[k] == attempts[k];
    }
  }

  lemma OneTaskPerShipment(shipments: seq<Shipment>, assignments: seq<Assignment>, k: Id)
    requires TasksOk(shipments, assignments) && k < |assignments| && ActiveAssignment(assignments[k].status)
    ensures forall i :: 0 <= i < |assignments| && i != k && ActiveAssignment(assignments[i].status) ==> assignments[i].shipment != assignments[k].shipment
  {
  }

  lemma StartDeliveryKeeps(db: Db, id: Id, driver: Id)
    requires Inv(db)
    ensures Inv(StartDelivery(db, id, driver).0)
  {
    hide TripsOk, SchedulesDisjoint, LinksOk, CapacityOk, VehiclesOk, RoutesOk, TransfersOk, ShipmentsOk,
         DriversOk, TasksOk, AttemptsOk, LedgersOk, LedgerOk;
    if StartDelivery(db, id, driver).1 == Done {
      var db' := StartDelivery(db, id, driver).0;
      var a := db.assignments[id].(status := Accepted);
      var s := db'.shipments[a.shipment];
      TaskAt(db.shipments, db.assignments, id);
      ShipmentAt(db, a.shipment);
      AsideKeepsNetwork(db, a.shipment, s, db');
      TaskRowKeepsTasks(db.shipments, db.assignments, id, a, s);
      TaskRowKeepsDrivers(db.drivers, db.trips, db.assignments, id, a);
      OneTaskPerShipment(db.shipments, db.assignments, id);
      StartKeepsAttempts(db.shipments, db.assignments, db.attempts, id, s);
      LedgerOf(db.shipments, db.ledgers, a.shipment);
      LedgerOutForDelivery(db.shipments[a.shipment].status, s.status, db.ledgers[a.shipment]);
      LedgerRowKeepsLedgers(db.shipments, db.ledgers, a.shipment, s, db.ledgers[a.shipment]);
      assert db.ledgers[a.shipment := db.ledgers[a.shipment]] == db.ledgers;
    }
  }

  lemma LedgerOutForDelivery(a: ShipmentStatus, b: ShipmentStatus, l: Ledger)
    requires LedgerOk(a, l) && a in {DeliveryAssigned, OutForDelivery} && b in {OutForDelivery, DeliveryFailed}
    ensures LedgerOk(b, l)
  {
  }

  /** The attempt of an accepted delivery is the newest of its shipment. */
  lemma OpenAttemptIsNewest(shipments: seq<Shipment>, assignments: seq<Assignment>, attempts: seq<Attempt>, n: Id)
    requires forall i :: 0 <= i < |attempts| ==> AttemptOk(attempts[i], assignments, shipments)
    requires AttemptsInTurn(attempts) && n < |attempts| && attempts[n].assignment < |assignments| && attempts[n].shipment < |shipments|
    requires assignments[attempts[n].assignment].status == Accepted
    ensures attempts[n].status == Outgoing && assignments[attempts[n].assignment].shipment == attempts[n].shipment
    ensures forall i :: 0 <= i < |attempts| && i != n && attempts[i].shipment == attempts[n].shipment ==> attempts[i].status == Failed
  {
    assert AttemptOk(attempts[n], assignments, shipments);
  }

  lemma EndKeepsRows(shipments: seq<Shipment>, assignments: seq<Assignment>, attempts: seq<Attempt>, k: Id, n: Id, s: Shipment, end: AttemptStatus)
    requires forall i :: 0 <= i < |attempts| ==> AttemptOk(attempts[i], assignments, shipments)
    requires AttemptsInTurn(attempts) && n < |attempts| && attempts[n].assignment == k < |assignments| && attempts[n].shipment < |shipments|
    requires assignments[k].status == Accepted
    requires end in {Handed, Failed} && s.status == if end == Handed then Delivered else DeliveryFailed
    ensures var shipments', assignments', attempts' := shipments[attempts[n].shipment := s], assignments[k := assignments[k].(status := Finished)], attempts[n := attempts[n].(status := end)];
            forall i :: 0 <= i < |attempts'| ==> AttemptOk(attempts'[i], assignments', shipments')
  {
    OpenAttemptIsNewest(shipments, assignments, attempts, n);
    assert AttemptOk(attempts[n], assignments, shipments);
    forall i | 0 <= i < |attempts| && i != n
      ensures AttemptOk(attempts[i], assignments[k := assignments[k].(status := Finished)], shipments[attempts[n].shipment := s])
    {
      assert AttemptOk(attempts[i], assignments, shipments);
    }
  }

  lemma EndKeepsNumbers(attempts: seq<Attempt>, n: Id, end: AttemptStatus)
    requires AttemptsNumbered(attempts) && n < |attempts|
    ensures AttemptsNumbered(attempts[n := attempts[n].(status := end)])
  {
    var attempts' := attempts[n := attempts[n].(status := end)];
    forall i | 0 <= i < |attempts'| ensures attempts'[i].number == CountAttempts(attempts'[..i], attempts'[i].shipment) + 1 {
      SameCount(attempts[..i], attempts'[..i], attempts[i].shipment);
    }
  }

  lemma EndKeepsAccepted(assignments: seq<Assignment>, attempts: seq<Attempt>, k: Id, n: Id, end: AttemptStatus)
    requires AcceptedAttempted(assignments, attempts) && k < |assignments| && n < |attempts|
    ensures AcceptedAttempted(assignments[k := assignments[k].(status := Finished)], attempts[n := attempts[n].(status := end)])
  {
    var attempts' := attempts[n := attempts[n].(status := end)];
    forall a: Id | HasAttempt(attempts, a) ensures HasAttempt(attempts', a) {
      var i :| 0 <= i < |attempts| && attempts[i].assignment == a;
      assert attempts'[i].assignment == a;
    }
  }

  lemma EndedAttemptKeepsAttempts(shipments: seq<Shipment>, assignments: seq<Assignment>, attempts: seq<Attempt>, k: Id, n: Id, s: Shipment, handed: bool)
    requires AttemptsOk(shipments, assignments, attempts) && k < |assignments| && assignments[k].kind == Delivery && assignments[k].status == Accepted
    requires n < |attempts| && attempts[n].assignment == k && attempts[n].shipment < |shipments|
    requires shipments[attempts[n].shipment].status == OutForDelivery && s.status == (if handed then Delivered else DeliveryFailed)
    ensures var id := attempts[n].shipment;
            AttemptsOk(shipments[id := s], assignments[k := assignments[k].(status := Finished)],
                       attempts[n := attempts[n].(status := if handed then Handed else Failed)])
  {
    hide AttemptsNumbered, AcceptedAttempted, OutcomesAttempted, AttemptOk;
    var end := if handed then Handed else Failed;
    OpenAttemptIsNewest(shipments, assignments, attempts, n);
    EndKeepsRows(shipments, assignments, attempts, k, n, s, end);
    EndKeepsNumbers(attempts, n, end);
    EndKeepsAccepted(assignments, attempts, k, n, end);
    EndKeepsOutcomes(shipments, attempts, n, s, end);
  }

  lemma {:induction false} SameCount(attempts: seq<Attempt>, attempts': seq<Attempt>, shipment: Id)
    requires |attempts| == |attempts'| && forall i :: 0 <= i < |attempts| ==> attempts'[i].shipment == attempts[i].shipment
    ensures CountAttempts(attempts', shipment) == CountAttempts(attempts, shipment)
  {
    if |attempts| > 0 {
      var n := |attempts| - 1;
      SameCount(attempts[..n], attempts'[..n], shipment);
      assert attempts'[n].shipment == attempts[n].shipment;
    }
  }

  lemma EndKeepsOutcomes(shipments: seq<Shipment>, attempts: seq<Attempt>, n: Id, s: Shipment, end: AttemptStatus)
    requires OutcomesAttempted(shipments, attempts) && n < |attempts| && attempts[n].shipment < |shipments|
    requires attempts[n].status == Outgoing && end in {Handed, Failed} && s.status == if end == Handed then Delivered else DeliveryFailed
    ensures OutcomesAttempted(shipments[attempts[n].shipment := s], attempts[n := attempts[n].(status := end)])
  {
    var attempts' := attempts[n := attempts[n].(status := end)];
    assert attempts'[n].shipment == attempts[n].shipment && attempts'[n].status == end;
    forall i: Id, x: AttemptStatus | x != Outgoing && HasAttemptWith(attempts, i, x) ensures HasAttemptWith(attempts', i, x) {
      var k :| 0 <= k < |attempts| && attempts[k].shipment == i && attempts[k].status == x;
      assert attempts'[k] == attempts[k];
    }
  }

  /** Opening the COD row of a ledger whose fee has just been satisfied. */
  lemma OpenCodKeeps(l: Ledger, driver: Id)
    requires SnapshotMatches(l) && FeeShape(l.fee) && DisputesOk(l) && CodOk(l) && l.cod == None && Satisfied(l.fee)
    requires 0 <= l.terms.codAmount <= MAX_SAFE_INTEGER
    ensures LedgerOk(Delivered, OpenCod(l, driver)) && OpenCod(l, driver).terms == l.terms
  {
  }

  lemma DeliverLedger(l: Ledger, driver: Id, amount: Option<int>, now: int)
    requires LedgerOk(OutForDelivery, l) && CollectAt(l, AtDelivery, driver, amount, now).Ok?
    ensures var l' := OpenCod(CollectAt(l, AtDelivery, driver, amount, now).value, driver);
            LedgerOk(Delivered, l') && l'.terms == l.terms
  {
    hide CollectAt, CodOk, OpenCod, FeeShape, SnapshotMatches, Satisfied, DisputesOk;
    CollectedOnce(OutForDelivery, l, AtDelivery, driver, amount, now);
    var l1 := CollectAt(l, AtDelivery, driver, amount, now).value;
    assert l.(fee := l1.fee) == l1;
    CodIgnoresFee(l, l1);
    OpenCodKeeps(l1, driver);
  }

  lemma AttemptAt(db: Db, n: Id)
    requires References(db) && AttemptsOk(db.shipments, db.assignments, db.attempts) && n < |db.attempts|
    ensures AttemptOk(db.attempts[n], db.assignments, db.shipments)
  {
  }

  lemma EndedDeliveryKeeps(db: Db, k: Id, n: Id, s: Shipment, l: Ledger, handed: bool)
    requires Inv(db) && k < |db.assignments| && db.assignments[k].kind == Delivery && db.assignments[k].status == Accepted
    requires n < |db.attempts| && db.attempts[n].assignment == k
    requires Aside(db.shipments[db.assignments[k].shipment], s) && s.status == (if handed then Delivered else DeliveryFailed)
    requires LedgerOk(s.status, l) && l.terms.customer == s.customer
    ensures var a := db.assignments[k].(status := Finished);
            Inv(db.(attempts := db.attempts[n := db.attempts[n].(status := if handed then Handed else Failed)],
                    assignments := db.assignments[k := a], drivers := db.drivers[a.driver := Released(db.drivers[a.driver])],
                    shipments := db.shipments[a.shipment := s], ledgers := db.ledgers[a.shipment := l]))
  {
    hide TripsOk, SchedulesDisjoint, LinksOk, CapacityOk, VehiclesOk, RoutesOk, TransfersOk, ShipmentsOk,
         DriversOk, TasksOk, AttemptsOk, LedgersOk, LedgerOk;
    var a := db.assignments[k].(status := Finished);
    var db' := db.(attempts := db.attempts[n := db.attempts[n].(status := if handed then Handed else Failed)],
                   assignments := db.assignments[k := a], drivers := db.drivers[a.driver := Released(db.drivers[a.driver])],
                   shipments := db.shipments[a.shipment := s], ledgers := db.ledgers[a.shipment := l]);
    TaskAt(db.shipments, db.assignments, k);
    DriverAt(db, k);
    AttemptAt(db, n);
    AsideKeepsNetwork(db, a.shipment, s, db');
    TaskRowKeepsTasks(db.shipments, db.assignments, k, a, s);
    EndedTaskKeepsDrivers(db.drivers, db.trips, db.assignments, k, a, db'.drivers[a.driver]);
    EndedAttemptKeepsAttempts(db.shipments, db.assignments, db.attempts, k, n, s, handed);
    LedgerRowKeepsLedgers(db.shipments, db.ledgers, a.shipment, s, l);
  }

  lemma CompleteKeeps(db: Db, id: Id, driver: Id, amount: Option<int>, now: int)
    requires Inv(db)
    ensures Inv(CompleteDelivery(db, id, driver, amount, now).0)
  {
    hide TripsOk, SchedulesDisjoint, LinksOk, CapacityOk, VehiclesOk, RoutesOk, TransfersOk, ShipmentsOk,
         DriversOk, TasksOk, AttemptsOk, LedgersOk, LedgerOk, CollectAt, OpenCod;
    if OwnsDelivery(db, id, driver) && !CompleteDelivery(db, id, driver, amount, now).1.Refused? {
      var db' := CompleteDelivery(db, id, driver, amount, now).0;
      var a := db.assignments[id];
      var n := AttemptOf(db.attempts, id).value;
      ShipmentAt(db, a.shipment);
      AttemptAt(db, n);
      LedgerOf(db.shipments, db.ledgers, a.shipment);
      if db.attempts[n].status == Handed {
        CollectedAlready(db.shipments[a.shipment].status, db.ledgers[a.shipment], AtDelivery, a.driver, amount, now);
        assert db'.ledgers == db.ledgers;
      } else {
        DeliverLedger(db.ledgers[a.shipment], a.driver, amount, now);
        EndedDeliveryKeeps(db, id, n, db'.shipments[a.shipment], db'.ledgers[a.shipment], true);
      }
    }
  }

  lemma FailKeeps(db: Db, id: Id, driver: Id)
    requires Inv(db)
    ensures Inv(FailDelivery(db, id, driver).0)
  {
    hide TripsOk, SchedulesDisjoint, LinksOk, CapacityOk, VehiclesOk, RoutesOk, TransfersOk, ShipmentsOk,
         DriversOk, TasksOk, AttemptsOk, LedgersOk, LedgerOk;
    if FailDelivery(db, id, driver).1 == Done {
      var db' := FailDelivery(db, id, driver).0;
      var a := db.assignments[id];
      var n := AttemptOf(db.attempts, id).value;
      ShipmentAt(db, a.shipment);
      LedgerOf(db.shipments, db.ledgers, a.shipment);
      LedgerOutForDelivery(OutForDelivery, DeliveryFailed, db.ledgers[a.shipment]);
      EndedDeliveryKeeps(db, id, n, db'.shipments[a.shipment], db.ledgers[a.shipment], false);
      assert db.ledgers[a.shipment := db.ledgers[a.shipment]] == db.ledgers;
    }
  }
}

/** Shipment, assignment and delivery services as they run: assignment,
    shipment, driver, attempt and ledger rows rewritten one after another. */
module ParcelService {
  import opened Rows
  import opened Ledgers
  import opened Policies
  import opened Tables
  import opened Invariants
  import opened Storage
  import Spec = ParcelCommands
  import KeepParcels
  import LedgerService

  method CreateShipment(s: Store, key: Id, terms: Terms, grams: int) returns (r: Reply)
    requires s.Valid()
    modifies s
    ensures s.Valid() && (s.Db(), r) == Spec.CreateShipment(old(s.Db()), key, terms, grams)
  {
    hide Inv;
    Resolves(s.Db());
    KeepParcels.CreateShipmentKeeps(s.Db(), key, terms, grams);
    if exists i :: 0 <= i < |s.shipments| && s.shipments[i].key == key { return Unchanged; }
    if !(1 <= grams <= Spec.MAX_PACKAGE_GRAMS) || !PositiveInteger(terms.totalFee) || !(0 <= terms.codAmount <= Spec.MAX_COD_AMOUNT) {
      return Refused(InvalidInput);
    }
    s.shipments := s.shipments + [Shipment(key, Pending, terms.customer, None, None, None, None, grams, None, 0)];
    s.ledgers := s.ledgers + [OpenLedger(terms)];
    return Done;
  }

  method ConfirmShipment(s: Store, id: Id) returns (r: Reply)
    requires s.Valid()
    modifies s
    ensures s.Valid() && (s.Db(), r) == Spec.ConfirmShipment(old(s.Db()), id)
  {
    hide Inv;
    Resolves(s.Db());
    KeepParcels.ConfirmKeeps(s.Db(), id);
    if id >= |s.shipments| { return Refused(NotFound); }
    var row := s.shipments[id];
    if row.status == AwaitingPickup { return Unchanged; }
    if row.status !in {Pending, Confirmed} { return Refused(TransitionInvalid); }
    s.shipments := s.shipments[id := row.(status := AwaitingPickup, version := row.version + 1)];
    return Done;
  }

  method CancelShipment(s: Store, id: Id, customer: Id) returns (r: Reply)
    requires s.Valid()
    modifies s
    ensures s.Valid() && (s.Db(), r) == Spec.CancelShipment(old(s.Db()), id, customer)
  {
    hide Inv;
    Resolves(s.Db());
    KeepParcels.CancelShipmentKeeps(s.Db(), id, customer);
    if id >= |s.shipments| || s.shipments[id].customer != customer { return Refused(NotFound); }
    var row := s.shipments[id];
    if row.status !in {Pending, Confirmed, AwaitingPickup} { return Refused(TransitionInvalid); }
    var l := s.ledgers[id];
    if !SnapshotMatches(l) { return Refused(FeeStateInvalid); }
    if l.fee.status !in {FeeCancelled, FeePending} { return Refused(FeeStateInvalid); }
    s.shipments := s.shipments[id := row.(status := Cancelled, version := row.version + 1)];
    s.ledgers := s.ledgers[id := l.(fee := l.fee.(status := FeeCancelled))];
    return Done;
  }

  /** Replaces the previous assignment, if any, and then offers the task. */
  method AssignPickup(s: Store, key: Id, shipment: Id, driver: Id, located: bool, reassign: bool) returns (r: Reply)
    requires s.Valid()
    modifies s
    ensures s.Valid() && (s.Db(), r) == Spec.AssignPickup(old(s.Db()), key, shipment, driver, located, reassign)
  {
    hide Inv;
    Resolves(s.Db());
    KeepParcels.AssignPickupKeeps(s.Db(), key, shipment, driver, located, reassign);
    if Spec.KeyUsed(s.assignments, key) {
      return if Spec.KeyUsedFor(s.assignments, key, shipment, None) then Unchanged else Refused(KeyReused);
    }
    if shipment >= |s.shipments| { return Refused(NotFound); }
    var row := s.shipments[shipment];
    var previous := CurrentAssignment(s.assignments, shipment, Pickup);
    if row.status !in (if reassign then {PickupAssigned, PickupInProgress} else {AwaitingPickup}) { return Refused(TransitionInvalid); }
    if reassign && previous == None { return Refused(ActiveAssignmentNotFound); }
    if !reassign && previous.Some? { return Refused(ActiveAssignmentExists); }
    if previous.Some? && s.assignments[previous.value].driver == driver { return Refused(DriverAlreadyAssigned); }
    if driver >= |s.drivers| { return Refused(NotFound); }
    if DriverExecuting(s.trips, driver) { return Refused(DriverHasActiveTrip); }
    var e := CandidateError(s.drivers[driver], Pickup, located && s.warehouses[s.drivers[driver].home].active);
    if e.Some? { return Refused(e.value); }
    if previous.Some? {
      var p := s.assignments[previous.value];
      s.assignments := s.assignments[previous.value := p.(status := Replaced)];
      s.drivers := s.drivers[p.driver := Spec.Relieved(s.drivers[p.driver])];
    }
    s.assignments := s.assignments + [Assignment(key, shipment, driver, Pickup, Offered, false)];
    s.drivers := s.drivers[driver := Spec.Occupied(s.drivers[driver])];
    s.shipments := s.shipments[shipment := row.(status := PickupAssigned, version := row.version + 1)];
    return Done;
  }

  method AcceptPickup(s: Store, id: Id, driver: Id) returns (r: Reply)
    requires s.Valid()
    modifies s
    ensures s.Valid() && (s.Db(), r) == Spec.AcceptPickup(old(s.Db()), id, driver)
  {
    hide Inv;
    Resolves(s.Db());
    KeepParcels.AcceptKeeps(s.Db(), id, driver);
    if id >= |s.assignments| || s.assignments[id].driver != driver { return Refused(NotFound); }
    var a := s.assignments[id];
    var row := s.shipments[a.shipment];
    if (a.status == Accepted && row.status == PickupInProgress) || (a.status == Finished && row.status == PickedUp) { return Unchanged; }
    if a.status != Offered { return Refused(AssignmentStateInvalid); }
    if row.status != PickupAssigned { return Refused(TransitionInvalid); }
    s.assignments := s.assignments[id := a.(status := Accepted)];
    s.shipments := s.shipments[a.shipment := row.(status := PickupInProgress, version := row.version + 1)];
    return Done;
  }

  method RejectPickup(s: Store, id: Id, driver: Id) returns (r: Reply)
    requires s.Valid()
    modifies s
    ensures s.Valid() && (s.Db(), r) == Spec.RejectPickup(old(s.Db()), id, driver)
  {
    hide Inv;
    Resolves(s.Db());
    KeepParcels.RejectKeeps(s.Db(), id, driver);
    if id >= |s.assignments| || s.assignments[id].driver != driver { return Refused(NotFound); }
    var a := s.assignments[id];
    var row := s.shipments[a.shipment];
    if a.status == Rejected && row.status == AwaitingPickup { return Unchanged; }
    if !ActiveAssignment(a.status) { return Refused(AssignmentStateInvalid); }
    if row.status !in {PickupAssigned, PickupInProgress} { return Refused(TransitionInvalid); }
    s.assignments := s.assignments[id := a.(status := Rejected)];
    s.shipments := s.shipments[a.shipment := row.(status := AwaitingPickup, version := row.version + 1)];
    var d := s.drivers[a.driver];
    if d.userActive && d.status != Suspended && d.online {
      d := d.(status := Free, available := true, version := d.version + 1);
    } else {
      d := d.(status := if d.status == Suspended then Suspended else Offline, online := false, available := false, version := d.version + 1);
    }
    s.drivers := s.drivers[a.driver := d];
    return Done;
  }

  /** Collects what is due, then completes the pickup. */
  method TakeIn(s: Store, id: Id, amount: Option<int>, now: int) returns (e: Option<Error>)
    requires References(s.Db()) && id < |s.assignments|
    modifies s
    ensures var a := old(s.assignments[id]);
            var home := old(s.drivers)[a.driver].home;
            var row := old(s.shipments)[a.shipment];
            match CollectAt(old(s.ledgers)[a.shipment], AtPickup, a.driver, amount, now)
            case Err(refusal) => e == Some(refusal) && s.Db() == old(s.Db())
            case Ok(l) =>
              && e == None
              && s.Db() == old(s.Db()).(assignments := old(s.assignments)[id := a.(status := Finished, proof := true)],
                                        shipments := old(s.shipments)[a.shipment := Spec.WithStatus(row, PickedUp).(origin := if row.origin.Some? then row.origin else Some(home))],
                                        drivers := old(s.drivers)[a.driver := Spec.Released(old(s.drivers)[a.driver])],
                                        ledgers := old(s.ledgers)[a.shipment := l])
  {
    hide CollectAt, Spec.Released;
    var a := s.assignments[id];
    var row := s.shipments[a.shipment];
    var d := s.drivers[a.driver];
    e := LedgerService.Collect(s, a.shipment, AtPickup, a.driver, amount, now);
    if e.Some? { return; }
    s.assignments := s.assignments[id := a.(status := Finished, proof := true)];
    row := row.(status := PickedUp, version := row.version + 1);
    if row.origin == None { row := row.(origin := Some(d.home)); }
    s.shipments := s.shipments[a.shipment := row];
    s.drivers := s.drivers[a.driver := Spec.Released(d)];
  }

  method PickUp(s: Store, id: Id, driver: Id, amount: Option<int>, now: int) returns (r: Reply)
    requires s.Valid()
    modifies s
    ensures s.Valid() && (s.Db(), r) == Spec.PickUp(old(s.Db()), id, driver, amount, now)
  {
    hide Inv, CollectAt, Spec.Released;
    Resolves(s.Db());
    KeepParcels.PickUpKeeps(s.Db(), id, driver, amount, now);
    if id >= |s.assignments| || s.assignments[id].driver != driver { return Refused(NotFound); }
    var a := s.assignments[id];
    var row := s.shipments[a.shipment];
    var d := s.drivers[a.driver];
    if a.proof {
      r := LedgerService.Recollect(s, a.shipment, AtPickup, a.driver, amount, now);
      return;
    }
    if a.status != Accepted { return Refused(AssignmentStateInvalid); }
    if row.status != PickupInProgress { return Refused(TransitionInvalid); }
    if row.origin.Some? && row.origin != Some(d.home) { return Refused(OriginWarehouseMismatch); }
    var e := TakeIn(s, id, amount, now);
    return if e.Some? then Refused(e.value) else Done;
  }

  method AssignDelivery(s: Store, key: Id, shipment: Id, driver: Id, located: bool) returns (r: Reply)
    requires s.Valid()
    modifies s
    ensures s.Valid() && (s.Db(), r) == Spec.AssignDelivery(old(s.Db()), key, shipment, driver, located)
  {
    hide Inv;
    Resolves(s.Db());
    KeepParcels.AssignDeliveryKeeps(s.Db(), key, shipment, driver, located);
    if Spec.KeyUsed(s.assignments, key) {
      return if Spec.KeyUsedFor(s.assignments, key, shipment, Some(Delivery)) then Unchanged else Refused(KeyReused);
    }
    if shipment >= |s.shipments| { return Refused(NotFound); }
    var row := s.shipments[shipment];
    if row.status != AwaitingDelivery { return Refused(TransitionInvalid); }
    if driver >= |s.drivers| { return Refused(NotFound); }
    if DriverExecuting(s.trips, driver) { return Refused(DriverHasActiveTrip); }
    var d := s.drivers[driver];
    if row.destination == None { return Refused(DestinationRequired); }
    var e := CandidateError(d, Delivery, located && s.warehouses[d.home].active && row.destination == Some(d.home));
    if e.Some? { return Refused(e.value); }
    s.assignments := s.assignments + [Assignment(key, shipment, driver, Delivery, Offered, false)];
    s.drivers := s.drivers[driver := Spec.Occupied(d)];
    s.shipments := s.shipments[shipment := row.(status := DeliveryAssigned, version := row.version + 1)];
    return Done;
  }

  method StartDelivery(s: Store, id: Id, driver: Id) returns (r: Reply)
    requires s.Valid()
    modifies s
    ensures s.Valid() && (s.Db(), r) == Spec.StartDelivery(old(s.Db()), id, driver)
  {
    hide Inv;
    Resolves(s.Db());
    KeepParcels.StartDeliveryKeeps(s.Db(), id, driver);
    if !Spec.OwnsDelivery(s.Db(), id, driver) { return Refused(NotFound); }
    var a := s.assignments[id];
    var row := s.shipments[a.shipment];
    if a.status == Accepted && row.status == OutForDelivery { return Unchanged; }
    if a.status != Offered { return Refused(AssignmentStateInvalid); }
    if row.status != DeliveryAssigned { return Refused(TransitionInvalid); }
    var number := CountAttempts(s.attempts, a.shipment) + 1;
    s.assignments := s.assignments[id := a.(status := Accepted)];
    s.attempts := s.attempts + [Attempt(a.shipment, id, number, Outgoing)];
    s.shipments := s.shipments[a.shipment := row.(status := OutForDelivery, version := row.version + 1)];
    return Done;
  }

  /** A delivery task ends: attempt, assignment, driver and shipment rows. */
  method EndDelivery(s: Store, id: Id, attempt: Id, end: AttemptStatus, status: ShipmentStatus)
    requires References(s.Db()) && id < |s.assignments| && attempt < |s.attempts|
    modifies s
    ensures var a := old(s.assignments[id]);
            s.Db() == old(s.Db()).(attempts := old(s.attempts)[attempt := old(s.attempts[attempt]).(status := end)],
                                   assignments := old(s.assignments)[id := a.(status := Finished)],
                                   drivers := old(s.drivers)[a.driver := Spec.Released(old(s.drivers)[a.driver])],
                                   shipments := old(s.shipments)[a.shipment := Spec.WithStatus(old(s.shipments)[a.shipment], status)])
  {
    var a := s.assignments[id];
    var row := s.shipments[a.shipment];
    s.attempts := s.attempts[attempt := s.attempts[attempt].(status := end)];
    s.assignments := s.assignments[id := a.(status := Finished)];
    s.drivers := s.drivers[a.driver := Spec.Released(s.drivers[a.driver])];
    s.shipments := s.shipments[a.shipment := row.(status := status, version := row.version + 1)];
  }

  /** Collects what is due, then ends the delivery and opens its COD row. */
  method HandOver(s: Store, id: Id, attempt: Id, amount: Option<int>, now: int) returns (e: Option<Error>)
    requires References(s.Db()) && id < |s.assignments| && attempt < |s.attempts|
    modifies s
    ensures var a := old(s.assignments[id]);
            match CollectAt(old(s.ledgers)[a.shipment], AtDelivery, a.driver, amount, now)
            case Err(refusal) => e == Some(refusal) && s.Db() == old(s.Db())
            case Ok(l) =>
              && e == None
              && s.Db() == old(s.Db()).(attempts := old(s.attempts)[attempt := old(s.attempts[attempt]).(status := Handed)],
                                        assignments := old(s.assignments)[id := a.(status := Finished)],
                                        drivers := old(s.drivers)[a.driver := Spec.Released(old(s.drivers)[a.driver])],
                                        shipments := old(s.shipments)[a.shipment := Spec.WithStatus(old(s.shipments)[a.shipment], Delivered)],
                                        ledgers := old(s.ledgers)[a.shipment := OpenCod(l, a.driver)])
  {
    hide CollectAt, OpenCod, Spec.Released, Spec.WithStatus;
    var a := s.assignments[id];
    e := LedgerService.Collect(s, a.shipment, AtDelivery, a.driver, amount, now);
    if e.Some? { return; }
    EndDelivery(s, id, attempt, Handed, Delivered);
    LedgerService.RecordCod(s, a.shipment, a.driver);
  }

  method CompleteDelivery(s: Store, id: Id, driver: Id, amount: Option<int>, now: int) returns (r: Reply)
    requires s.Valid()
    modifies s
    ensures s.Valid() && (s.Db(), r) == Spec.CompleteDelivery(old(s.Db()), id, driver, amount, now)
  {
    hide Inv, CollectAt, OpenCod, AttemptOf, Spec.Released, Spec.WithStatus;
    Resolves(s.Db());
    KeepParcels.CompleteKeeps(s.Db(), id, driver, amount, now);
    if !Spec.OwnsDelivery(s.Db(), id, driver) { return Refused(NotFound); }
    var a := s.assignments[id];
    var row := s.shipments[a.shipment];
    var attempt := AttemptOf(s.attempts, id);
    if attempt.Some? && s.attempts[attempt.value].status == Handed {
      r := LedgerService.Recollect(s, a.shipment, AtDelivery, a.driver, amount, now);
      return;
    }
    if attempt == None || a.status != Accepted { return Refused(AttemptInvalid); }
    if row.status != OutForDelivery { return Refused(TransitionInvalid); }
    var e := HandOver(s, id, attempt.value, amount, now);
    return if e.Some? then Refused(e.value) else Done;
  }

  method FailDelivery(s: Store, id: Id, driver: Id) returns (r: Reply)
    requires s.Valid()
    modifies s
    ensures s.Valid() && (s.Db(), r) == Spec.FailDelivery(old(s.Db()), id, driver)
  {
    hide Inv;
    Resolves(s.Db());
    KeepParcels.FailKeeps(s.Db(), id, driver);
    if !Spec.OwnsDelivery(s.Db(), id, driver) { return Refused(NotFound); }
    var a := s.assignments[id];
    var row := s.shipments[a.shipment];
    var attempt := AttemptOf(s.attempts, id);
    if attempt.Some? && s.attempts[attempt.value].status == Failed && row.status == DeliveryFailed { return Unchanged; }
    if attempt == None || a.status != Accepted { return Refused(AttemptInvalid); }
    if row.status != OutForDelivery { return Refused(TransitionInvalid); }
    EndDelivery(s, id, attempt.value, Failed, DeliveryFailed);
    return Done;
  }

  method Redeliver(s: Store, id: Id) returns (r: Reply)
    requires s.Valid()
    modifies s
    ensures s.Valid() && (s.Db(), r) == Spec.Redeliver(old(s.Db()), id)
  {
    hide Inv;
    Resolves(s.Db());
    KeepParcels.RedeliverKeeps(s.Db(), id);
    if id >= |s.shipments| { return Refused(NotFound); }
    var row := s.shipments[id];
    if row.status == AwaitingDelivery { return Unchanged; }
    if row.status != DeliveryFailed { return Refused(TransitionInvalid); }
    s.shipments := s.shipments[id := row.(status := AwaitingDelivery, version := row.version + 1)];
    return Done;
  }

  method RequestReturn(s: Store, id: Id, warehouse: Option<Id>) returns (r: Reply)
    requires s.Valid()
    modifies s
    ensures s.Valid() && (s.Db(), r) == Spec.RequestReturn(old(s.Db()), id, warehouse)
  {
    hide Inv;
    Resolves(s.Db());
    KeepParcels.RequestReturnKeeps(s.Db(), id, warehouse);
    if id >= |s.shipments| { return Refused(NotFound); }
    var row := s.shipments[id];
    if row.status == ReturnRequested { return Unchanged; }
    if row.status != DeliveryFailed { return Refused(TransitionInvalid); }
    var to := warehouse;
    if to == None { to := row.origin; }
    if to == None || !WarehouseOpen(s.warehouses, to.value) { return Refused(ReturnWarehouseInvalid); }
    s.shipments := s.shipments[id := row.(status := ReturnRequested, returnTo := to, version := row.version + 1)];
    return Done;
  }

  method StartReturn(s: Store, id: Id, driver: Id) returns (r: Reply)
    requires s.Valid()
    modifies s
    ensures s.Valid() && (s.Db(), r) == Spec.StartReturn(old(s.Db()), id, driver)
  {
    hide Inv;
    Resolves(s.Db());
    KeepParcels.StartReturnKeeps(s.Db(), id, driver);
    if id >= |s.shipments| { return Refused(NotFound); }
    var row := s.shipments[id];
    var latest := LatestAttempt(s.attempts, id);
    if latest == None || s.attempts[latest.value].status != Failed { return Refused(ReturnAttemptNotFound); }
    var last := s.attempts[latest.value].assignment;
    var d := s.drivers[s.assignments[last].driver];
    if s.assignments[last].driver != driver || !d.userActive || d.status == Suspended { return Refused(ReturnAttemptNotFound); }
    if exists i :: last < i < |s.assignments| && s.assignments[i].shipment == id && ActiveAssignment(s.assignments[i].status) {
      return Refused(ReturnOwnershipSuperseded);
    }
    if row.status == ReturnInTransit { return Unchanged; }
    if row.status != ReturnRequested { return Refused(TransitionInvalid); }
    s.shipments := s.shipments[id := row.(status := ReturnInTransit, current := None, version := row.version + 1)];
    return Done;
  }
}

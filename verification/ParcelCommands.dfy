/** The life of a shipment: creation, pickup, warehouse handling, delivery,
    return. Each command also moves the assignment, attempt, driver and ledger
    rows it touches. */
module ParcelCommands {
  import opened Rows
  import opened Ledgers
  import opened Policies
  import opened Tables

  const MAX_PACKAGE_GRAMS := 100_000
  const MAX_COD_AMOUNT := 1_000_000_000

  function WithStatus(s: Shipment, status: ShipmentStatus): Shipment {
    s.(status := status, version := s.version + 1)
  }

  /** A driver whose task ended goes back to free while online, else offline. */
  function Released(d: Driver): Driver {
    if d.online then d.(status := Free, available := true, version := d.version + 1)
    else d.(status := Offline, available := false, version := d.version + 1)
  }

  // ----- customer and dispatcher -----

  function CreateShipment(db: Db, key: Id, terms: Terms, grams: int): (Db, Reply) {
    if exists i :: 0 <= i < |db.shipments| && db.shipments[i].key == key then (db, Unchanged)
    else if !(1 <= grams <= MAX_PACKAGE_GRAMS) || !PositiveInteger(terms.totalFee) || !(0 <= terms.codAmount <= MAX_COD_AMOUNT) then
      (db, Refused(InvalidInput))
    else
      (db.(shipments := db.shipments + [Shipment(key, Pending, terms.customer, None, None, None, None, grams, None, 0)],
           ledgers := db.ledgers + [OpenLedger(terms)]),
       Done)
  }

  function ConfirmShipment(db: Db, id: Id): (Db, Reply) {
    if id >= |db.shipments| then (db, Refused(NotFound))
    else if db.shipments[id].status == AwaitingPickup then (db, Unchanged)
    else if db.shipments[id].status !in {Pending, Confirmed} then (db, Refused(TransitionInvalid))
    else (db.(shipments := db.shipments[id := WithStatus(db.shipments[id], AwaitingPickup)]), Done)
  }

  function CancelShipment(db: Db, id: Id, customer: Id): (Db, Reply)
    requires References(db)
  {
    if id >= |db.shipments| || db.shipments[id].customer != customer then (db, Refused(NotFound))
    else if db.shipments[id].status !in {Pending, Confirmed, AwaitingPickup} then (db, Refused(TransitionInvalid))
    else match CancelFee(db.ledgers[id])
      case Err(e) => (db, Refused(e))
      case Ok(l) =>
        (db.(shipments := db.shipments[id := WithStatus(db.shipments[id], Cancelled)], ledgers := db.ledgers[id := l]), Done)
  }

  // ----- pickup -----

  predicate KeyUsed(assignments: seq<Assignment>, key: Id) {
    exists i :: 0 <= i < |assignments| && assignments[i].key == key
  }

  predicate KeyUsedFor(assignments: seq<Assignment>, key: Id, shipment: Id, kind: Option<Capability>) {
    exists i :: 0 <= i < |assignments| && assignments[i].key == key && assignments[i].shipment == shipment && (kind == None || kind == Some(assignments[i].kind))
  }

  /** What a reassignment does to the driver it takes the task from. */
  function Relieved(d: Driver): Driver {
    if d.userActive && d.status != Suspended && d.online then d.(status := Free, available := true, version := d.version + 1)
    else d.(status := Offline, online := false, available := false, version := d.version + 1)
  }

  function Occupied(d: Driver): Driver {
    d.(status := Busy, online := true, available := false, version := d.version + 1)
  }

  function AssignPickup(db: Db, key: Id, shipment: Id, driver: Id, located: bool, reassign: bool): (Db, Reply)
    requires References(db)
  {
    if KeyUsed(db.assignments, key) then
      if KeyUsedFor(db.assignments, key, shipment, None) then (db, Unchanged) else (db, Refused(KeyReused))
    else if shipment >= |db.shipments| then (db, Refused(NotFound))
    else
      var s := db.shipments[shipment];
      var previous := CurrentAssignment(db.assignments, shipment, Pickup);
      if s.status !in (if reassign then {PickupAssigned, PickupInProgress} else {AwaitingPickup}) then (db, Refused(TransitionInvalid))
      else if reassign && previous == None then (db, Refused(ActiveAssignmentNotFound))
      else if !reassign && previous.Some? then (db, Refused(ActiveAssignmentExists))
      else if previous.Some? && db.assignments[previous.value].driver == driver then (db, Refused(DriverAlreadyAssigned))
      else if driver >= |db.drivers| then (db, Refused(NotFound))
      else if DriverExecuting(db.trips, driver) then (db, Refused(DriverHasActiveTrip))
      else match CandidateError(db.drivers[driver], Pickup, located && db.warehouses[db.drivers[driver].home].active)
        case Some(e) => (db, Refused(e))
        case None =>
          var db1 := if previous == None then db else
            var p := db.assignments[previous.value];
            db.(assignments := db.assignments[previous.value := p.(status := Replaced)],
                drivers := db.drivers[p.driver := Relieved(db.drivers[p.driver])]);
          (db1.(assignments := db1.assignments + [Assignment(key, shipment, driver, Pickup, Offered, false)],
                drivers := db1.drivers[driver := Occupied(db1.drivers[driver])],
                shipments := db1.shipments[shipment := WithStatus(s, PickupAssigned)]),
           Done)
  }

  function AcceptPickup(db: Db, id: Id, driver: Id): (Db, Reply)
    requires References(db)
  {
    if id >= |db.assignments| || db.assignments[id].driver != driver then (db, Refused(NotFound))
    else
      var a := db.assignments[id];
      var s := db.shipments[a.shipment];
      if (a.status == Accepted && s.status == PickupInProgress) || (a.status == Finished && s.status == PickedUp) then (db, Unchanged)
      else if a.status != Offered then (db, Refused(AssignmentStateInvalid))
      else if s.status != PickupAssigned then (db, Refused(TransitionInvalid))
      else
        (db.(assignments := db.assignments[id := a.(status := Accepted)],
             shipments := db.shipments[a.shipment := WithStatus(s, PickupInProgress)]),
         Done)
  }

  function RejectPickup(db: Db, id: Id, driver: Id): (Db, Reply)
    requires References(db)
  {
    if id >= |db.assignments| || db.assignments[id].driver != driver then (db, Refused(NotFound))
    else
      var a := db.assignments[id];
      var s := db.shipments[a.shipment];
      var d := db.drivers[a.driver];
      if a.status == Rejected && s.status == AwaitingPickup then (db, Unchanged)
      else if !ActiveAssignment(a.status) then (db, Refused(AssignmentStateInvalid))
      else if s.status !in {PickupAssigned, PickupInProgress} then (db, Refused(TransitionInvalid))
      else
        var d' := if d.userActive && d.status != Suspended && d.online then d.(status := Free, available := true, version := d.version + 1)
                  else d.(status := if d.status == Suspended then Suspended else Offline, online := false, available := false, version := d.version + 1);
        (db.(assignments := db.assignments[id := a.(status := Rejected)],
             shipments := db.shipments[a.shipment := WithStatus(s, AwaitingPickup)],
             drivers := db.drivers[a.driver := d']),
         Done)
  }

  function PickUp(db: Db, id: Id, driver: Id, amount: Option<int>, now: int): (Db, Reply)
    requires References(db)
  {
    if id >= |db.assignments| || db.assignments[id].driver != driver then (db, Refused(NotFound))
    else
      var a := db.assignments[id];
      var s := db.shipments[a.shipment];
      var d := db.drivers[a.driver];
      var fee := CollectAt(db.ledgers[a.shipment], AtPickup, a.driver, amount, now);
      if a.proof then
        match fee
        case Err(e) => (db, Refused(e))
        case Ok(l) => (db.(ledgers := db.ledgers[a.shipment := l]), if l == db.ledgers[a.shipment] then Unchanged else Done)
      else if a.status != Accepted then (db, Refused(AssignmentStateInvalid))
      else if s.status != PickupInProgress then (db, Refused(TransitionInvalid))
      else if s.origin.Some? && s.origin != Some(d.home) then (db, Refused(OriginWarehouseMismatch))
      else match fee
        case Err(e) => (db, Refused(e))
        case Ok(l) =>
          (db.(assignments := db.assignments[id := a.(status := Finished, proof := true)],
               shipments := db.shipments[a.shipment := WithStatus(s, PickedUp).(origin := if s.origin.Some? then s.origin else Some(d.home))],
               drivers := db.drivers[a.driver := Released(d)],
               ledgers := db.ledgers[a.shipment := l]),
           Done)
  }

  // ----- warehouse -----

  /** Where a shipment must be checked in: its origin, or else the warehouse of
      the driver who completed its pickup. */
  function ExpectedOrigin(db: Db, shipment: Id): Option<Id>
    requires References(db) && shipment < |db.shipments|
  {
    var pickup := FinishedPickup(db.assignments, shipment);
    if db.shipments[shipment].origin.Some? then db.shipments[shipment].origin
    else if pickup.Some? then Some(db.drivers[db.assignments[pickup.value].driver].home)
    else None
  }

  function CheckIn(db: Db, warehouse: Id, shipment: Id, grams: int, verified: bool): (Db, Reply)
    requires References(db)
  {
    if grams < 1 then (db, Refused(InvalidInput))
    else if !WarehouseOpen(db.warehouses, warehouse) || shipment >= |db.shipments| then (db, Refused(NotFound))
    else
      var s := db.shipments[shipment];
      var expected := ExpectedOrigin(db, shipment);
      if expected == None then (db, Refused(OriginWarehouseRequired))
      else if expected != Some(warehouse) then (db, Refused(OriginWarehouseMismatch))
      else if !verified then (db, Refused(PackageVerificationRequired))
      else if s.current == Some(warehouse) && s.status == AtOrigin then (db, Unchanged)
      else if s.status != PickedUp then (db, Refused(TransitionInvalid))
      else
        (db.(shipments := db.shipments[shipment := WithStatus(s, AtOrigin).(origin := expected, current := Some(warehouse), verifiedGrams := Some(grams))]),
         Done)
  }

  function RouteDestination(db: Db, warehouse: Id, shipment: Id, to: Id): (Db, Reply) {
    if shipment >= |db.shipments| then (db, Refused(NotFound))
    else
      var s := db.shipments[shipment];
      if s.current != Some(warehouse) then (db, Refused(ShipmentNotAtWarehouse))
      else if s.destination == Some(to) && s.status in {AtOrigin, AwaitingDelivery} then (db, Unchanged)
      else if s.status != AtOrigin then (db, Refused(TransitionInvalid))
      else if TransferUnderway(db.transfers, shipment) then (db, Refused(ActiveTransferExists))
      else if !WarehouseOpen(db.warehouses, to) then (db, Refused(NotFound))
      else
        (db.(shipments := db.shipments[shipment := WithStatus(s, if to == warehouse then AwaitingDelivery else AtOrigin).(destination := Some(to))]),
         Done)
  }

  function MarkReady(db: Db, warehouse: Id, shipment: Id): (Db, Reply) {
    if warehouse >= |db.warehouses| || shipment >= |db.shipments| then (db, Refused(NotFound))
    else
      var s := db.shipments[shipment];
      if s.current != Some(warehouse) then (db, Refused(ShipmentNotAtWarehouse))
      else if s.status == AwaitingDelivery then (db, Unchanged)
      else if s.status == AtOrigin && s.destination != Some(warehouse) then
        (db, Refused(if s.destination.Some? then TransferRequired else DestinationRequired))
      else if s.status !in {AtOrigin, AtDestination} then (db, Refused(TransitionInvalid))
      else (db.(shipments := db.shipments[shipment := WithStatus(s, AwaitingDelivery)]), Done)
  }

  function ReceiveReturn(db: Db, warehouse: Id, shipment: Id): (Db, Reply) {
    if shipment >= |db.shipments| then (db, Refused(NotFound))
    else
      var s := db.shipments[shipment];
      if s.returnTo != Some(warehouse) then (db, Refused(TransferDestinationMismatch))
      else if s.status == Returned then (db, Unchanged)
      else if s.status != ReturnInTransit then (db, Refused(TransitionInvalid))
      else if !WarehouseOpen(db.warehouses, warehouse) then (db, Refused(NotFound))
      else (db.(shipments := db.shipments[shipment := WithStatus(s, Returned).(current := Some(warehouse))]), Done)
  }

  // ----- delivery -----

  function AssignDelivery(db: Db, key: Id, shipment: Id, driver: Id, located: bool): (Db, Reply)
    requires References(db)
  {
    if KeyUsed(db.assignments, key) then
      if KeyUsedFor(db.assignments, key, shipment, Some(Delivery)) then (db, Unchanged) else (db, Refused(KeyReused))
    else if shipment >= |db.shipments| then (db, Refused(NotFound))
    else if db.shipments[shipment].status != AwaitingDelivery then (db, Refused(TransitionInvalid))
    else if driver >= |db.drivers| then (db, Refused(NotFound))
    else if DriverExecuting(db.trips, driver) then (db, Refused(DriverHasActiveTrip))
    else
      var s := db.shipments[shipment];
      var d := db.drivers[driver];
      if s.destination == None then (db, Refused(DestinationRequired))
      else match CandidateError(d, Delivery, located && db.warehouses[d.home].active && s.destination == Some(d.home))
        case Some(e) => (db, Refused(e))
        case None =>
          (db.(assignments := db.assignments + [Assignment(key, shipment, driver, Delivery, Offered, false)],
               drivers := db.drivers[driver := Occupied(d)],
               shipments := db.shipments[shipment := WithStatus(s, DeliveryAssigned)]),
           Done)
  }

  predicate OwnsDelivery(db: Db, id: Id, driver: Id) {
    id < |db.assignments| && db.assignments[id].kind == Delivery && db.assignments[id].driver == driver
  }

  function StartDelivery(db: Db, id: Id, driver: Id): (Db, Reply)
    requires References(db)
  {
    if !OwnsDelivery(db, id, driver) then (db, Refused(NotFound))
    else
      var a := db.assignments[id];
      var s := db.shipments[a.shipment];
      if a.status == Accepted && s.status == OutForDelivery then (db, Unchanged)
      else if a.status != Offered then (db, Refused(AssignmentStateInvalid))
      else if s.status != DeliveryAssigned then (db, Refused(TransitionInvalid))
      else
        (db.(assignments := db.assignments[id := a.(status := Accepted)],
             attempts := db.attempts + [Attempt(a.shipment, id, CountAttempts(db.attempts, a.shipment) + 1, Outgoing)],
             shipments := db.shipments[a.shipment := WithStatus(s, OutForDelivery)]),
         Done)
  }

  function CompleteDelivery(db: Db, id: Id, driver: Id, amount: Option<int>, now: int): (Db, Reply)
    requires References(db)
  {
    if !OwnsDelivery(db, id, driver) then (db, Refused(NotFound))
    else
      var a := db.assignments[id];
      var s := db.shipments[a.shipment];
      var attempt := AttemptOf(db.attempts, id);
      var fee := CollectAt(db.ledgers[a.shipment], AtDelivery, a.driver, amount, now);
      if attempt.Some? && db.attempts[attempt.value].status == Handed then
        match fee
        case Err(e) => (db, Refused(e))
        case Ok(l) => (db.(ledgers := db.ledgers[a.shipment := l]), if l == db.ledgers[a.shipment] then Unchanged else Done)
      else if attempt == None || a.status != Accepted then (db, Refused(AttemptInvalid))
      else if s.status != OutForDelivery then (db, Refused(TransitionInvalid))
      else match fee
        case Err(e) => (db, Refused(e))
        case Ok(l) =>
          (db.(attempts := db.attempts[attempt.value := db.attempts[attempt.value].(status := Handed)],
               assignments := db.assignments[id := a.(status := Finished)],
               drivers := db.drivers[a.driver := Released(db.drivers[a.driver])],
               shipments := db.shipments[a.shipment := WithStatus(s, Delivered)],
               ledgers := db.ledgers[a.shipment := OpenCod(l, a.driver)]),
           Done)
  }

  function FailDelivery(db: Db, id: Id, driver: Id): (Db, Reply)
    requires References(db)
  {
    if !OwnsDelivery(db, id, driver) then (db, Refused(NotFound))
    else
      var a := db.assignments[id];
      var s := db.shipments[a.shipment];
      var attempt := AttemptOf(db.attempts, id);
      if attempt.Some? && db.attempts[attempt.value].status == Failed && s.status == DeliveryFailed then (db, Unchanged)
      else if attempt == None || a.status != Accepted then (db, Refused(AttemptInvalid))
      else if s.status != OutForDelivery then (db, Refused(TransitionInvalid))
      else
        (db.(attempts := db.attempts[attempt.value := db.attempts[attempt.value].(status := Failed)],
             assignments := db.assignments[id := a.(status := Finished)],
             drivers := db.drivers[a.driver := Released(db.drivers[a.driver])],
             shipments := db.shipments[a.shipment := WithStatus(s, DeliveryFailed)]),
         Done)
  }

  function Redeliver(db: Db, id: Id): (Db, Reply) {
    if id >= |db.shipments| then (db, Refused(NotFound))
    else if db.shipments[id].status == AwaitingDelivery then (db, Unchanged)
    else if db.shipments[id].status != DeliveryFailed then (db, Refused(TransitionInvalid))
    else (db.(shipments := db.shipments[id := WithStatus(db.shipments[id], AwaitingDelivery)]), Done)
  }

  function RequestReturn(db: Db, id: Id, warehouse: Option<Id>): (Db, Reply) {
    if id >= |db.shipments| then (db, Refused(NotFound))
    else
      var s := db.shipments[id];
      var to := if warehouse.Some? then warehouse else s.origin;
      if s.status == ReturnRequested then (db, Unchanged)
      else if s.status != DeliveryFailed then (db, Refused(TransitionInvalid))
      else if to == None || !WarehouseOpen(db.warehouses, to.value) then (db, Refused(ReturnWarehouseInvalid))
      else (db.(shipments := db.shipments[id := WithStatus(s, ReturnRequested).(returnTo := to)]), Done)
  }

  function StartReturn(db: Db, id: Id, driver: Id): (Db, Reply)
    requires References(db)
  {
    if id >= |db.shipments| then (db, Refused(NotFound))
    else
      var s := db.shipments[id];
      var latest := LatestAttempt(db.attempts, id);
      if latest == None || db.attempts[latest.value].status != Failed then (db, Refused(ReturnAttemptNotFound))
      else
        var last := db.attempts[latest.value].assignment;
        var d := db.drivers[db.assignments[last].driver];
        if db.assignments[last].driver != driver || !d.userActive || d.status == Suspended then (db, Refused(ReturnAttemptNotFound))
        else if exists i :: last < i < |db.assignments| && db.assignments[i].shipment == id && ActiveAssignment(db.assignments[i].status) then
          (db, Refused(ReturnOwnershipSuperseded))
        else if s.status == ReturnInTransit then (db, Unchanged)
        else if s.status != ReturnRequested then (db, Refused(TransitionInvalid))
        else (db.(shipments := db.shipments[id := WithStatus(s, ReturnInTransit).(current := None)]), Done)
  }
}

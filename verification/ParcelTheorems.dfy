/** What the joint invariant says about parcels, drivers and money in every
    reachable state, and over every run. */
module ParcelTheorems {
  import opened Rows
  import opened Ledgers
  import opened LedgerLaws
  import opened Policies
  import opened Tables
  import opened Invariants
  import opened ParcelCommands
  import R = Reachability
  import opened Histories
  import opened KeepTransfers
  import opened KeepParcels

  // ----- drivers -----

  predicate ActiveAt(assignments: seq<Assignment>, a: Id) {
    a < |assignments| && ActiveAssignment(assignments[a].status)
  }

  /** A driver has at most one active task, is not available while having it,
      and never has one together with a READY or IN_TRANSIT trip. */
  lemma DriverExclusive(db: Db, d: Id)
    requires R.Reachable(db) && d < |db.drivers|
    ensures !(DriverAssigned(db.assignments, d) && DriverExecuting(db.trips, d))
    ensures forall a: Id, b: Id :: ActiveAt(db.assignments, a) && ActiveAt(db.assignments, b) && a != b ==> db.assignments[a].driver != db.assignments[b].driver
    ensures DriverAssigned(db.assignments, d) ==> !db.drivers[d].available && db.drivers[d].userActive && db.drivers[d].status != Suspended
    ensures DriverExecuting(db.trips, d) ==> DriverError(db.drivers[d]) == None
  {
    hide TripsOk, SchedulesDisjoint, LinksOk, CapacityOk, VehiclesOk, RoutesOk, TransfersOk, ShipmentsOk, TasksOk,
         AttemptsOk, LedgersOk, R.Reachable;
    R.ReachableInv(db);
    forall a | 0 <= a < |db.assignments| ensures Occupies(db.assignments[a], db.drivers) {
    }
    assert DriverOk(db.drivers[d]);
  }

  // ----- tasks -----

  predicate HasTaskIn(assignments: seq<Assignment>, shipment: Id, kind: Capability, status: AssignmentStatus) {
    exists a :: 0 <= a < |assignments| && assignments[a].shipment == shipment && assignments[a].kind == kind && assignments[a].status == status
  }

  /** A shipment's status and its task say the same thing: each of the four
      task statuses holds exactly when there is an active assignment of that
      kind and state, and there are never two active ones. */
  lemma StatusIsTask(db: Db, s: Id, kind: Capability, status: AssignmentStatus)
    requires R.Reachable(db) && s < |db.shipments| && kind in {Pickup, Delivery} && ActiveAssignment(status)
    ensures db.shipments[s].status == TaskStatus(kind, status) <==> HasTaskIn(db.assignments, s, kind, status)
    ensures forall a: Id, b: Id :: ActiveAt(db.assignments, a) && ActiveAt(db.assignments, b) && a != b ==> db.assignments[a].shipment != db.assignments[b].shipment
  {
    hide TripsOk, SchedulesDisjoint, LinksOk, CapacityOk, VehiclesOk, RoutesOk, TransfersOk, ShipmentsOk,
         DriversOk, AttemptsOk, LedgersOk, References, R.Reachable;
    R.ReachableInv(db);
    forall a | 0 <= a < |db.assignments| ensures TaskOk(db.assignments[a], db.shipments) {
    }
    if db.shipments[s].status == TaskStatus(kind, status) {
      assert HasTask(db.assignments, s);
      var a :| 0 <= a < |db.assignments| && db.assignments[a].shipment == s && ActiveAssignment(db.assignments[a].status);
      assert TaskOk(db.assignments[a], db.shipments);
    }
  }

  /** Accept, reject and pickup look an assignment up without its kind; they
      still only ever change pickups. */
  lemma UntypedCommandsChangePickupsOnly(db: Db, id: Id, driver: Id, amount: Option<int>, now: int)
    requires R.Reachable(db) && id < |db.assignments| && db.assignments[id].kind != Pickup
    ensures References(db)
    ensures AcceptPickup(db, id, driver).0 == db && RejectPickup(db, id, driver).0 == db && PickUp(db, id, driver, amount, now).0 == db
  {
    hide TripsOk, SchedulesDisjoint, LinksOk, CapacityOk, VehiclesOk, RoutesOk, TransfersOk, ShipmentsOk,
         DriversOk, TasksOk, AttemptsOk, LedgersOk, CollectAt, R.Reachable;
    R.ReachableInv(db);
    TaskAt(db.shipments, db.assignments, id);
  }

  /** A task in hand can always be taken further: the assignment, shipment,
      warehouse and attempt guards never fail, only the fee can refuse. */
  lemma TasksCanProceed(db: Db, id: Id, amount: Option<int>, now: int)
    requires R.Reachable(db) && id < |db.assignments| && ActiveAssignment(db.assignments[id].status)
    ensures References(db)
    ensures var a := db.assignments[id];
            var l := db.ledgers[a.shipment];
            if a.kind == Pickup then
              && RejectPickup(db, id, a.driver).1 == Done
              && (a.status == Offered ==> AcceptPickup(db, id, a.driver).1 == Done)
              && (a.status == Accepted ==>
                    PickUp(db, id, a.driver, amount, now).1 ==
                    match CollectAt(l, AtPickup, a.driver, amount, now) case Ok(_) => Done case Err(e) => Refused(e))
            else
              && (a.status == Offered ==> StartDelivery(db, id, a.driver).1 == Done)
              && (a.status == Accepted ==>
                    && FailDelivery(db, id, a.driver).1 == Done
                    && CompleteDelivery(db, id, a.driver, amount, now).1 ==
                       match CollectAt(l, AtDelivery, a.driver, amount, now) case Ok(_) => Done case Err(e) => Refused(e))
  {
    hide TripsOk, SchedulesDisjoint, LinksOk, CapacityOk, VehiclesOk, RoutesOk, TransfersOk, ShipmentsOk,
         DriversOk, TasksOk, AttemptsOk, LedgersOk, CollectAt, R.Reachable;
    R.ReachableInv(db);
    TaskAt(db.shipments, db.assignments, id);
    ShipmentAt(db, db.assignments[id].shipment);
    if db.assignments[id].kind == Delivery && db.assignments[id].status == Accepted { AcceptedHasOpenAttempt(db, id); }
  }

  lemma AcceptedHasOpenAttempt(db: Db, id: Id)
    requires References(db) && AttemptsOk(db.shipments, db.assignments, db.attempts)
    requires id < |db.assignments| && db.assignments[id].kind == Delivery && db.assignments[id].status == Accepted
    ensures AttemptOf(db.attempts, id).Some? && db.attempts[AttemptOf(db.attempts, id).value].status == Outgoing
  {
    assert HasAttempt(db.attempts, id);
    assert AttemptOk(db.attempts[AttemptOf(db.attempts, id).value], db.assignments, db.shipments);
  }

  /** When the collection point is due, exactly this much money must change
      hands. A delivery whose sender's fee is under dispute cannot complete. */
  lemma DueExact(db: Db, id: Id, amount: Option<int>, now: int)
    requires R.Reachable(db) && id < |db.assignments| && db.assignments[id].status == Accepted
    ensures References(db)
    ensures var a := db.assignments[id];
            var l := db.ledgers[a.shipment];
            var point := if a.kind == Pickup then AtPickup else AtDelivery;
            CollectAt(l, point, a.driver, amount, now).Ok? <==>
              if point == DuePoint(l.terms.payer) then
                (l.fee.status == Paid && amount == None) || (l.fee.status == FeePending && amount == Some(l.terms.totalFee))
              else amount == None && (point == AtDelivery ==> l.fee.status != Disputed)
  {
    hide TripsOk, SchedulesDisjoint, LinksOk, CapacityOk, VehiclesOk, RoutesOk, TransfersOk, ShipmentsOk,
         DriversOk, TasksOk, AttemptsOk, LedgersOk, CodOk, R.Reachable;
    R.ReachableInv(db);
    var a := db.assignments[id];
    TaskAt(db.shipments, db.assignments, id);
    LedgerOf(db.shipments, db.ledgers, a.shipment);
    DueLedger(db.shipments[a.shipment].status, db.ledgers[a.shipment], if a.kind == Pickup then AtPickup else AtDelivery, a.driver, amount, now);
  }

  lemma DueLedger(s: ShipmentStatus, l: Ledger, point: Point, driver: Id, amount: Option<int>, now: int)
    requires LedgerOk(s, l) && s == if point == AtPickup then PickupInProgress else OutForDelivery
    ensures CollectAt(l, point, driver, amount, now).Ok? <==>
              if point == DuePoint(l.terms.payer) then
                (l.fee.status == Paid && amount == None) || (l.fee.status == FeePending && amount == Some(l.terms.totalFee))
              else amount == None && (point == AtDelivery ==> l.fee.status != Disputed)
  {
  }

  /** Reassignment always finds the assignment it replaces and a first
      assignment never finds one, so both of those guards are dead. */
  lemma AssignmentGuards(db: Db, key: Id, shipment: Id, driver: Id, located: bool, reassign: bool)
    requires R.Reachable(db)
    ensures References(db)
    ensures AssignPickup(db, key, shipment, driver, located, reassign).1 !in {Refused(ActiveAssignmentNotFound), Refused(ActiveAssignmentExists)}
  {
    hide TripsOk, SchedulesDisjoint, LinksOk, CapacityOk, VehiclesOk, RoutesOk, TransfersOk, ShipmentsOk,
         DriversOk, TasksOk, AttemptsOk, LedgersOk, R.Reachable;
    R.ReachableInv(db);
    if shipment < |db.shipments| { PickupTaskThere(db.shipments, db.assignments, shipment); }
    CandidateErrors(db, driver, located);
  }

  lemma CandidateErrors(db: Db, driver: Id, located: bool)
    requires References(db)
    ensures driver < |db.drivers| ==> CandidateError(db.drivers[driver], Pickup, located) !in {Some(ActiveAssignmentNotFound), Some(ActiveAssignmentExists)}
  {
  }

  lemma PickupTaskThere(shipments: seq<Shipment>, assignments: seq<Assignment>, s: Id)
    requires TasksOk(shipments, assignments) && s < |shipments|
    ensures CurrentAssignment(assignments, s, Pickup).Some? <==> shipments[s].status in {PickupAssigned, PickupInProgress}
  {
    if shipments[s].status in {PickupAssigned, PickupInProgress} {
      assert HasTask(assignments, s);
      var a :| 0 <= a < |assignments| && assignments[a].shipment == s && ActiveAssignment(assignments[a].status);
      assert TaskOk(assignments[a], shipments);
    }
    var k := CurrentAssignment(assignments, s, Pickup);
    if k.Some? { assert TaskOk(assignments[k.value], shipments); }
  }

  // ----- attempts and returns -----

  lemma {:induction false} AttemptCountGrows(attempts: seq<Attempt>, shipment: Id, i: nat, j: nat)
    requires i <= j <= |attempts|
    ensures CountAttempts(attempts[..i], shipment) <= CountAttempts(attempts[..j], shipment)
    ensures i < j && attempts[i].shipment == shipment ==> CountAttempts(attempts[..i], shipment) < CountAttempts(attempts[..j], shipment)
    decreases j - i
  {
    if i < j {
      assert attempts[..j][..j - 1] == attempts[..j - 1];
      AttemptCountGrows(attempts, shipment, i, j - 1);
    }
  }

  lemma {:induction false} AttemptNumberExists(attempts: seq<Attempt>, shipment: Id, n: nat) returns (k: nat)
    requires AttemptsNumbered(attempts) && 1 <= n <= CountAttempts(attempts, shipment)
    ensures k < |attempts| && attempts[k].shipment == shipment && attempts[k].number == n
    decreases |attempts|
  {
    var m := |attempts| - 1;
    if attempts[m].shipment == shipment && CountAttempts(attempts, shipment) == n {
      k := m;
    } else {
      forall i | 0 <= i < m ensures attempts[..m][i].number == CountAttempts(attempts[..m][..i], attempts[..m][i].shipment) + 1 {
        assert attempts[..m][..i] == attempts[..i];
      }
      k := AttemptNumberExists(attempts[..m], shipment, n);
    }
  }

  predicate HasAttemptNumber(attempts: seq<Attempt>, shipment: Id, n: nat) {
    exists k :: 0 <= k < |attempts| && attempts[k].shipment == shipment && attempts[k].number == n
  }

  lemma NumbersInOrder(attempts: seq<Attempt>, s: Id)
    requires AttemptsNumbered(attempts)
    ensures forall n: nat :: HasAttemptNumber(attempts, s, n) <==> 1 <= n <= CountAttempts(attempts, s)
    ensures forall i: Id, j: Id :: i < j < |attempts| && attempts[i].shipment == s && attempts[j].shipment == s ==> attempts[i].number < attempts[j].number
  {
    forall n: nat ensures HasAttemptNumber(attempts, s, n) <==> 1 <= n <= CountAttempts(attempts, s) {
      if 1 <= n <= CountAttempts(attempts, s) {
        var k := AttemptNumberExists(attempts, s, n);
      }
      if HasAttemptNumber(attempts, s, n) {
        var k :| 0 <= k < |attempts| && attempts[k].shipment == s && attempts[k].number == n;
        AttemptCountGrows(attempts, s, k, |attempts|);
        assert attempts[..|attempts|] == attempts;
      }
    }
    forall i: Id, j: Id | i < j < |attempts| && attempts[i].shipment == s && attempts[j].shipment == s ensures attempts[i].number < attempts[j].number {
      AttemptCountGrows(attempts, s, i, j);
    }
  }

  /** A shipment's attempts carry the numbers 1..n, each once and in order; all
      before the newest failed, and the newest is open exactly while the
      shipment is out, and handed over exactly when it was delivered. */
  lemma AttemptNumbers(db: Db, s: Id)
    requires R.Reachable(db) && s < |db.shipments|
    ensures forall n: nat :: HasAttemptNumber(db.attempts, s, n) <==> 1 <= n <= CountAttempts(db.attempts, s)
    ensures forall i: Id, j: Id :: i < j < |db.attempts| && db.attempts[i].shipment == s && db.attempts[j].shipment == s ==>
              db.attempts[i].number < db.attempts[j].number && db.attempts[i].status == Failed
    ensures var latest := LatestAttempt(db.attempts, s);
            && (db.shipments[s].status == OutForDelivery <==> latest.Some? && db.attempts[latest.value].status == Outgoing)
            && (db.shipments[s].status == Delivered <==> latest.Some? && db.attempts[latest.value].status == Handed)
  {
    hide TripsOk, SchedulesDisjoint, LinksOk, CapacityOk, VehiclesOk, RoutesOk, TransfersOk, ShipmentsOk,
         DriversOk, TasksOk, LedgersOk, AttemptsNumbered, R.Reachable;
    R.ReachableInv(db);
    NumbersInOrder(db.attempts, s);
    LatestTellsStatus(db, s);
  }

  /** All attempts but the newest failed, so one that did not fail is the newest. */
  lemma NewestIfNotFailed(attempts: seq<Attempt>, s: Id, x: AttemptStatus)
    requires AttemptsInTurn(attempts) && HasAttemptWith(attempts, s, x)
    ensures LatestAttempt(attempts, s).Some?
    ensures x != Failed ==> attempts[LatestAttempt(attempts, s).value].status == x
  {
    var k :| 0 <= k < |attempts| && attempts[k].shipment == s && attempts[k].status == x;
    var latest := LatestAttempt(attempts, s);
    assert latest.Some? && k <= latest.value;
  }

  lemma OpenOrHandedTellsStatus(db: Db, k: Id)
    requires References(db) && TasksOk(db.shipments, db.assignments) && AttemptsOk(db.shipments, db.assignments, db.attempts) && k < |db.attempts|
    ensures db.attempts[k].status == Outgoing ==> db.shipments[db.attempts[k].shipment].status == OutForDelivery
    ensures db.attempts[k].status == Handed ==> db.shipments[db.attempts[k].shipment].status == Delivered
  {
    hide TasksOk, AttemptsOk;
    AttemptAt(db, k);
    TaskAt(db.shipments, db.assignments, db.attempts[k].assignment);
  }

  lemma LatestTellsStatus(db: Db, s: Id)
    requires References(db) && TasksOk(db.shipments, db.assignments) && AttemptsOk(db.shipments, db.assignments, db.attempts) && s < |db.shipments|
    ensures var latest := LatestAttempt(db.attempts, s);
            && (db.shipments[s].status == OutForDelivery <==> latest.Some? && db.attempts[latest.value].status == Outgoing)
            && (db.shipments[s].status == Delivered <==> latest.Some? && db.attempts[latest.value].status == Handed)
            && (FailedOrReturning(db.shipments[s].status) ==> latest.Some? && db.attempts[latest.value].status == Failed)
  {
    hide AttemptsNumbered, AttemptOk, TaskOk, AcceptedAttempted, AttemptsInTurn, HasAttemptWith;
    var latest := LatestAttempt(db.attempts, s);
    if latest.Some? { OpenOrHandedTellsStatus(db, latest.value); }
    if db.shipments[s].status == OutForDelivery { OutHasOpenAttempt(db, s); NewestIfNotFailed(db.attempts, s, Outgoing); }
    if db.shipments[s].status == Delivered { NewestIfNotFailed(db.attempts, s, Handed); }
    if FailedOrReturning(db.shipments[s].status) { NewestIfNotFailed(db.attempts, s, Failed); }
  }

  lemma OutHasOpenAttempt(db: Db, s: Id)
    requires References(db) && TasksOk(db.shipments, db.assignments) && AttemptsOk(db.shipments, db.assignments, db.attempts)
    requires s < |db.shipments| && db.shipments[s].status == OutForDelivery
    ensures HasAttemptWith(db.attempts, s, Outgoing)
  {
    hide AttemptsNumbered, AttemptsInTurn, OutcomesAttempted;
    assert HasTask(db.assignments, s);
    var a: Id :| a < |db.assignments| && db.assignments[a].shipment == s && ActiveAssignment(db.assignments[a].status);
    TaskAt(db.shipments, db.assignments, a);
    assert HasAttempt(db.attempts, a);
    var k :| 0 <= k < |db.attempts| && db.attempts[k].assignment == a;
    assert AttemptOk(db.attempts[k], db.assignments, db.shipments);
  }

  predicate HasActiveAfter(assignments: seq<Assignment>, s: Id, last: Id) {
    exists i :: last < i < |assignments| && assignments[i].shipment == s && ActiveAssignment(assignments[i].status)
  }

  /** Only the driver of the newest attempt can start a return, and while that
      driver is in good standing the superseded-ownership guard never fires. */
  lemma ReturnExact(db: Db, s: Id, driver: Id)
    requires R.Reachable(db) && s < |db.shipments| && db.shipments[s].status == ReturnRequested
    ensures References(db)
    ensures var latest := LatestAttempt(db.attempts, s);
            latest.Some? &&
            var owner := db.assignments[db.attempts[latest.value].assignment].driver;
            StartReturn(db, s, driver).1 ==
            if owner == driver && db.drivers[driver].userActive && db.drivers[driver].status != Suspended then Done else Refused(ReturnAttemptNotFound)
  {
    hide TripsOk, SchedulesDisjoint, LinksOk, CapacityOk, VehiclesOk, RoutesOk, TransfersOk, ShipmentsOk,
         DriversOk, TasksOk, AttemptsOk, LedgersOk, AttemptOk, Occupies, R.Reachable;
    R.ReachableInv(db);
    LatestTellsStatus(db, s);
    NoTask(db.shipments, db.assignments, s);
    assert !HasActiveAfter(db.assignments, s, db.attempts[LatestAttempt(db.attempts, s).value].assignment);
  }

  lemma NoTask(shipments: seq<Shipment>, assignments: seq<Assignment>, s: Id)
    requires TasksOk(shipments, assignments) && s < |shipments| && !Tasked(shipments[s].status)
    ensures forall i :: 0 <= i < |assignments| && assignments[i].shipment == s ==> !ActiveAssignment(assignments[i].status)
  {
    forall i | 0 <= i < |assignments| && assignments[i].shipment == s ensures !ActiveAssignment(assignments[i].status) {
      assert TaskOk(assignments[i], shipments);
    }
  }

  // ----- money over whole runs -----

  lemma ShipmentRowLater(db: Db, later: Db, s: Id)
    requires Inv(db) && R.LeadsTo(db, later) && s < |db.shipments|
    ensures Inv(later) && s < |db.ledgers| && s < |later.shipments| && s < |later.ledgers|
    ensures ShipmentLater(db.shipments[s], later.shipments[s]) && LedgerStep(db.ledgers[s], later.ledgers[s])
  {
    hide R.LeadsTo, LedgerStep, ManifestStep, TripLater, ShipmentLater, TransferLater, VehicleLater, DriverLater,
      TripsOk, SchedulesDisjoint, LinksOk, CapacityOk, VehiclesOk, RoutesOk, TransfersOk, ShipmentsOk, DriversOk, TasksOk, AttemptsOk, LedgersOk;
    RunFollows(db, later);
  }

  /** Delivered, returned and cancelled are final: the row never changes again. */
  lemma FinishedIsFinal(db: Db, later: Db, s: Id)
    requires R.Reachable(db) && R.LeadsTo(db, later) && s < |db.shipments| && db.shipments[s].status in {Delivered, Returned, Cancelled}
    ensures s < |later.shipments| && later.shipments[s] == db.shipments[s]
  {
    hide Inv, R.LeadsTo, R.Reachable, LedgerStep;
    R.ReachableInv(db);
    ShipmentRowLater(db, later, s);
  }

  /** The fee of a shipment is cancelled exactly when the shipment is; a
      delivered shipment's fee was satisfied in the exact amount, by one online
      payment or one driver; and what satisfied it never changes again. */
  lemma FeeFollowsShipment(db: Db, later: Db, s: Id)
    requires R.Reachable(db) && R.LeadsTo(db, later) && s < |db.shipments|
    ensures s < |db.ledgers| && s < |later.ledgers|
    ensures db.ledgers[s].fee.status == FeeCancelled <==> db.shipments[s].status == Cancelled
    ensures db.shipments[s].status == Delivered ==> Satisfied(db.ledgers[s].fee) && db.ledgers[s].fee.expected == db.ledgers[s].terms.totalFee
    ensures Satisfied(db.ledgers[s].fee) ==> SameEvidence(db.ledgers[s].fee, later.ledgers[s].fee) && Satisfied(later.ledgers[s].fee)
  {
    hide TripsOk, SchedulesDisjoint, LinksOk, CapacityOk, VehiclesOk, RoutesOk, TransfersOk, ShipmentsOk,
         DriversOk, TasksOk, AttemptsOk, LedgersOk, R.Reachable, R.LeadsTo,
      SameEvidence, Satisfied, Recorded, CodOk, FeeShape, DisputesOk;
    R.ReachableInv(db);
    LedgerOf(db.shipments, db.ledgers, s);
    ShipmentRowLater(db, later, s);
  }

  /** COD money exists exactly for delivered shipments that carry it, and at
      every moment it is with the driver, with the company or paid out. */
  lemma CodFollowsDelivery(db: Db, s: Id)
    requires R.Reachable(db) && s < |db.shipments|
    ensures s < |db.ledgers|
    ensures var l := db.ledgers[s];
            && (l.cod.Some? <==> db.shipments[s].status == Delivered && l.terms.codAmount > 0)
            && (l.cod.Some? ==>
                  && l.cod.value.collected == Some(l.terms.codAmount)
                  && VerifiedTotal(l.remittances) == (if l.cod.value.status == CodCollected then 0 else l.terms.codAmount))
            && (l.payout.Some? ==> l.cod.Some? && l.cod.value.status == CodSettled && l.payout.value.request.amount == l.terms.codAmount)
  {
    hide TripsOk, SchedulesDisjoint, LinksOk, CapacityOk, VehiclesOk, RoutesOk, TransfersOk, ShipmentsOk,
         DriversOk, TasksOk, AttemptsOk, LedgersOk, R.Reachable;
    R.ReachableInv(db);
    LedgerOf(db.shipments, db.ledgers, s);
    CodIsConserved(db.shipments[s].status, db.ledgers[s]);
  }

  /** Replaying a committed handover, review, settlement or payout command after
      anything else the whole back end did writes nothing. */
  lemma MoneyReplay(db: Db, s: Id, c: MoneyCommand, later: Db)
    requires R.Reachable(db) && s < |db.shipments| && Replayable(c)
    requires R.Settle(db, s, c).1 == Done && R.LeadsTo(R.Settle(db, s, c).0, later)
    ensures R.Settle(later, s, c) == (later, Unchanged)
  {
    hide TripsOk, SchedulesDisjoint, LinksOk, CapacityOk, VehiclesOk, RoutesOk, TransfersOk, ShipmentsOk,
         DriversOk, TasksOk, AttemptsOk, LedgersOk, R.Reachable, R.LeadsTo,
      LedgerOk, Recorded, MoneyStep, Replayable, Satisfied, SameEvidence;
    R.ReachableInv(db);
    LedgerOf(db.shipments, db.ledgers, s);
    MoneyKeeps(db, s, c);
    var db1 := R.Settle(db, s, c).0;
    SuccessIsRecorded(db.shipments[s].status, db.ledgers[s], c);
    ShipmentRowLater(db1, later, s);
    LedgerOf(later.shipments, later.ledgers, s);
    RecordedIsUnchanged(later.shipments[s].status, later.ledgers[s], c);
    assert later.ledgers[s := later.ledgers[s]] == later.ledgers;
  }

  // ----- what a command settles for good -----

  /** The weight verified at check-in is the weight every later manifest counts. */
  lemma VerifiedWeightIsFinal(db: Db, warehouse: Id, s: Id, grams: int, verified: bool, later: Db)
    requires R.Reachable(db) && References(db) && CheckIn(db, warehouse, s, grams, verified).1 == Done && R.LeadsTo(CheckIn(db, warehouse, s, grams, verified).0, later)
    ensures s < |later.shipments| && LoadGrams(later.shipments[s]) == grams
  {
    hide Inv, R.LeadsTo, R.Reachable, LedgerStep;
    R.ReachableInv(db);
    CheckInKeeps(db, warehouse, s, grams, verified);
    ShipmentRowLater(CheckIn(db, warehouse, s, grams, verified).0, later, s);
  }

  /** Check-in's fallback to the pickup driver's warehouse is never taken: a
      shipment has its origin from the moment its pickup completes. */
  lemma CheckInOrigin(db: Db, s: Id)
    requires R.Reachable(db) && s < |db.shipments|
    ensures References(db) && ExpectedOrigin(db, s) == db.shipments[s].origin
    ensures db.shipments[s].status == PickedUp ==> db.shipments[s].origin.Some?
  {
    hide TripsOk, SchedulesDisjoint, LinksOk, CapacityOk, VehiclesOk, RoutesOk, TransfersOk, ShipmentsOk,
         DriversOk, TasksOk, AttemptsOk, LedgersOk, R.Reachable;
    R.ReachableInv(db);
    ShipmentAt(db, s);
    if k :| FinishedPickup(db.assignments, s) == Some(k) { TaskAt(db.shipments, db.assignments, k); }
  }

  /** The origin of a shipment is, for good, the home warehouse of the driver
      who picked it up. */
  lemma OriginIsFinal(db: Db, id: Id, driver: Id, amount: Option<int>, now: int, later: Db)
    requires R.Reachable(db) && id < |db.assignments| && db.assignments[id].status == Accepted && References(db)
    requires PickUp(db, id, driver, amount, now).1 == Done && R.LeadsTo(PickUp(db, id, driver, amount, now).0, later)
    ensures var s := db.assignments[id].shipment;
            s < |later.shipments| && later.shipments[s].origin == Some(db.drivers[driver].home)
  {
    hide TripsOk, SchedulesDisjoint, LinksOk, CapacityOk, VehiclesOk, RoutesOk, TransfersOk, ShipmentsOk,
         DriversOk, TasksOk, AttemptsOk, LedgersOk,
      R.LeadsTo, R.Reachable, LedgerStep, CollectAt, LedgerOk;
    R.ReachableInv(db);
    TaskAt(db.shipments, db.assignments, id);
    PickUpKeeps(db, id, driver, amount, now);
    ShipmentRowLater(PickUp(db, id, driver, amount, now).0, later, db.assignments[id].shipment);
  }

  /** The cash of a delivery is, for good, the shipment's COD amount in the
      hands of the driver who delivered it. */
  lemma CashIsFinal(db: Db, id: Id, driver: Id, amount: Option<int>, now: int, later: Db)
    requires R.Reachable(db) && id < |db.assignments| && db.assignments[id].status == Accepted && References(db)
    requires db.ledgers[db.assignments[id].shipment].terms.codAmount > 0
    requires CompleteDelivery(db, id, driver, amount, now).1 == Done && R.LeadsTo(CompleteDelivery(db, id, driver, amount, now).0, later)
    ensures var s := db.assignments[id].shipment;
            && s < |later.ledgers| && later.ledgers[s].cod.Some?
            && later.ledgers[s].cod.value.collector == driver
            && later.ledgers[s].cod.value.collected == Some(db.ledgers[s].terms.codAmount)
  {
    hide TripsOk, SchedulesDisjoint, LinksOk, CapacityOk, VehiclesOk, RoutesOk, TransfersOk, ShipmentsOk,
         DriversOk, TasksOk, AttemptsOk, LedgersOk,
      R.LeadsTo, R.Reachable, CollectAt, LedgerOk, Recorded, Satisfied, SameEvidence;
    R.ReachableInv(db);
    var s := db.assignments[id].shipment;
    var db1 := CompleteDelivery(db, id, driver, amount, now).0;
    CompleteKeeps(db, id, driver, amount, now);
    AcceptedAttemptIsOpen(db, id);
    CollectKeepsTerms(db.ledgers[s], AtDelivery, driver, amount, now);
    ShipmentRowLater(db1, later, s);
  }

  lemma AcceptedAttemptIsOpen(db: Db, id: Id)
    requires References(db) && AttemptsOk(db.shipments, db.assignments, db.attempts) && id < |db.assignments| && db.assignments[id].status == Accepted
    ensures AttemptOf(db.attempts, id).Some? ==> db.attempts[AttemptOf(db.attempts, id).value].status == Outgoing
  {
    if AttemptOf(db.attempts, id).Some? { AttemptAt(db, AttemptOf(db.attempts, id).value); }
  }

  lemma CollectKeepsTerms(l: Ledger, point: Point, driver: Id, amount: Option<int>, now: int)
    ensures CollectAt(l, point, driver, amount, now).Ok? ==> CollectAt(l, point, driver, amount, now).value.terms == l.terms
  {
  }
}

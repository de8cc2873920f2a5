/** Warehouse handling, transfers and trip dispatch keep the joint invariant. */
module KeepTransfers {
  import opened Rows
  import opened Ledgers
  import opened LedgerLaws
  import opened Policies
  import opened Tables
  import opened TransferCommands
  import opened TripCommands
  import opened ParcelCommands
  import opened Invariants
  import opened TripRows

  // ----- shipments moving through the network -----

  /** Statuses between pickup and delivery readiness carry no task, no attempt
      and no money movement. */
  predicate InNetwork(s: ShipmentStatus) {
    s in {PickedUp, AtOrigin, InTransit, AtDestination}
  }

  predicate Moved(s: Shipment, s': Shipment) {
    s' == s || (InNetwork(s.status) && (InNetwork(s'.status) || s'.status == AwaitingDelivery) && s'.customer == s.customer)
  }

  predicate AllMoved(shipments: seq<Shipment>, shipments': seq<Shipment>) {
    |shipments'| == |shipments| && forall i :: 0 <= i < |shipments| ==> Moved(shipments[i], shipments'[i])
  }

  lemma MoveKeepsTasks(shipments: seq<Shipment>, shipments': seq<Shipment>, assignments: seq<Assignment>)
    requires TasksOk(shipments, assignments) && AllMoved(shipments, shipments')
    ensures TasksOk(shipments', assignments)
  {
    forall a | 0 <= a < |assignments| ensures TaskOk(assignments[a], shipments') {
      assert TaskOk(assignments[a], shipments);
      if assignments[a].shipment < |shipments| { assert Moved(shipments[assignments[a].shipment], shipments'[assignments[a].shipment]); }
    }
    forall s | 0 <= s < |shipments'| && Tasked(shipments'[s].status) ensures HasTask(assignments, s) {
      assert Moved(shipments[s], shipments'[s]);
    }
  }

  lemma MoveKeepsAttempts(shipments: seq<Shipment>, shipments': seq<Shipment>, assignments: seq<Assignment>, attempts: seq<Attempt>)
    requires AttemptsOk(shipments, assignments, attempts) && AllMoved(shipments, shipments')
    ensures AttemptsOk(shipments', assignments, attempts)
  {
    forall k | 0 <= k < |attempts| ensures AttemptOk(attempts[k], assignments, shipments') {
      assert AttemptOk(attempts[k], assignments, shipments);
      if attempts[k].shipment < |shipments| { assert Moved(shipments[attempts[k].shipment], shipments'[attempts[k].shipment]); }
    }
    forall s | 0 <= s < |shipments'|
      ensures shipments'[s].status == Delivered ==> HasAttemptWith(attempts, s, Handed)
      ensures FailedOrReturning(shipments'[s].status) ==> HasAttemptWith(attempts, s, Failed)
    {
      assert Moved(shipments[s], shipments'[s]);
    }
  }

  lemma MoveKeepsLedgers(shipments: seq<Shipment>, shipments': seq<Shipment>, ledgers: seq<Ledger>)
    requires LedgersOk(shipments, ledgers) && AllMoved(shipments, shipments')
    ensures LedgersOk(shipments', ledgers)
  {
    forall i | 0 <= i < |shipments'| && i < |ledgers|
      ensures LedgerOk(shipments'[i].status, ledgers[i]) && ledgers[i].terms.customer == shipments'[i].customer
    {
      assert Moved(shipments[i], shipments'[i]);
    }
  }

  lemma MoveKeepsParcels(db: Db, shipments': seq<Shipment>)
    requires TasksOk(db.shipments, db.assignments) && AttemptsOk(db.shipments, db.assignments, db.attempts) && LedgersOk(db.shipments, db.ledgers)
    requires AllMoved(db.shipments, shipments')
    ensures TasksOk(shipments', db.assignments) && AttemptsOk(shipments', db.assignments, db.attempts) && LedgersOk(shipments', db.ledgers)
  {
    hide TasksOk, AttemptsOk, LedgersOk;
    MoveKeepsTasks(db.shipments, shipments', db.assignments);
    MoveKeepsAttempts(db.shipments, shipments', db.assignments, db.attempts);
    MoveKeepsLedgers(db.shipments, shipments', db.ledgers);
  }

  lemma OneMoved(shipments: seq<Shipment>, id: Id, s: Shipment)
    requires id < |shipments| && Moved(shipments[id], s)
    ensures AllMoved(shipments, shipments[id := s])
  {
  }

  /** Weights are written only at check-in, before any transfer exists. */
  lemma SameLoads(transfers: seq<Transfer>, transfers': seq<Transfer>, shipments: seq<Shipment>, shipments': seq<Shipment>)
    requires |transfers'| == |transfers| && |shipments'| == |shipments|
    requires forall t :: 0 <= t < |transfers| ==> transfers'[t].shipment == transfers[t].shipment
    requires forall t :: 0 <= t < |transfers| && transfers[t].shipment < |shipments| ==>
               LoadGrams(shipments'[transfers[t].shipment]) == LoadGrams(shipments[transfers[t].shipment])
    ensures Loads(transfers', shipments') == Loads(transfers, shipments)
  {
  }

  lemma CheckInKeeps(db: Db, warehouse: Id, shipment: Id, grams: int, verified: bool)
    requires Inv(db)
    ensures Inv(CheckIn(db, warehouse, shipment, grams, verified).0)
  {
    hide TripsOk, SchedulesDisjoint, LinksOk, CapacityOk, VehiclesOk, RoutesOk, DriversOk, TasksOk, AttemptsOk, LedgersOk;
    var db' := CheckIn(db, warehouse, shipment, grams, verified).0;
    if CheckIn(db, warehouse, shipment, grams, verified).1 == Done {
      var s := db'.shipments[shipment];
      OneMoved(db.shipments, shipment, s);
      MoveKeepsParcels(db, db'.shipments);
      UntransferredKeepsTransfers(db.transfers, db.shipments, shipment, s);
      SameLoads(db.transfers, db.transfers, db.shipments, db'.shipments);
    }
  }

  /** Before check-in a shipment has no transfer. */
  lemma UntransferredKeepsTransfers(transfers: seq<Transfer>, shipments: seq<Shipment>, id: Id, s: Shipment)
    requires TransfersOk(transfers, shipments) && id < |shipments|
    requires shipments[id].status !in {AtOrigin, InTransit} && !AfterTransfer(shipments[id].status) && s.status != InTransit
    ensures forall t :: 0 <= t < |transfers| ==> transfers[t].shipment != id
    ensures TransfersOk(transfers, shipments[id := s])
  {
    forall t | 0 <= t < |transfers| ensures transfers[t].shipment < |shipments| ==> transfers[t].shipment != id && TransferOk(transfers[t], shipments[transfers[t].shipment]) {
    }
  }

  lemma RouteKeeps(db: Db, warehouse: Id, shipment: Id, to: Id)
    requires Inv(db)
    ensures Inv(RouteDestination(db, warehouse, shipment, to).0)
  {
    hide TripsOk, SchedulesDisjoint, LinksOk, CapacityOk, VehiclesOk, RoutesOk, DriversOk, TasksOk, AttemptsOk, LedgersOk;
    var db' := RouteDestination(db, warehouse, shipment, to).0;
    if RouteDestination(db, warehouse, shipment, to).1 == Done {
      var s := db'.shipments[shipment];
      OneMoved(db.shipments, shipment, s);
      MoveKeepsParcels(db, db'.shipments);
      SameLoads(db.transfers, db.transfers, db.shipments, db'.shipments);
      RouteKeepsTransfers(db.transfers, db.shipments, shipment, s);
    }
  }

  lemma RouteKeepsTransfers(transfers: seq<Transfer>, shipments: seq<Shipment>, id: Id, s: Shipment)
    requires TransfersOk(transfers, shipments) && id < |shipments|
    requires shipments[id].status == AtOrigin && s.status in {AtOrigin, AwaitingDelivery} && !TransferUnderway(transfers, id)
    ensures TransfersOk(transfers, shipments[id := s])
  {
    forall t | 0 <= t < |transfers| && transfers[t].shipment < |shipments| ensures TransferOk(transfers[t], shipments[id := s][transfers[t].shipment]) {
      assert TransferOk(transfers[t], shipments[transfers[t].shipment]);
    }
  }

  lemma MarkReadyKeeps(db: Db, warehouse: Id, shipment: Id)
    requires Inv(db)
    ensures Inv(MarkReady(db, warehouse, shipment).0)
  {
    hide TripsOk, SchedulesDisjoint, LinksOk, CapacityOk, VehiclesOk, RoutesOk, DriversOk, TasksOk, AttemptsOk, LedgersOk;
    var db' := MarkReady(db, warehouse, shipment).0;
    if MarkReady(db, warehouse, shipment).1 == Done {
      var s := db'.shipments[shipment];
      OneMoved(db.shipments, shipment, s);
      MoveKeepsParcels(db, db'.shipments);
      SameLoads(db.transfers, db.transfers, db.shipments, db'.shipments);
      MarkReadyKeepsTransfers(db.transfers, db.shipments, shipment, s);
    }
  }

  lemma MarkReadyKeepsTransfers(transfers: seq<Transfer>, shipments: seq<Shipment>, id: Id, s: Shipment)
    requires TransfersOk(transfers, shipments) && id < |shipments| && ShipmentOk(shipments[id])
    requires shipments[id].status == AtDestination || (shipments[id].status == AtOrigin && shipments[id].destination == shipments[id].current)
    requires s.status == AwaitingDelivery
    ensures TransfersOk(transfers, shipments[id := s])
  {
    forall t | 0 <= t < |transfers| && transfers[t].shipment < |shipments| ensures TransferOk(transfers[t], shipments[id := s][transfers[t].shipment]) {
      assert TransferOk(transfers[t], shipments[transfers[t].shipment]);
    }
  }

  // ----- transfers -----

  lemma CreateTransferKeeps(db: Db, key: Id, warehouse: Id, shipment: Id, to: Id)
    requires Inv(db)
    ensures Inv(CreateTransfer(db, key, warehouse, shipment, to).0)
  {
    hide TripsOk, SchedulesDisjoint, LinksOk, CapacityOk, VehiclesOk, RoutesOk, TransfersOk, DriversOk, TasksOk,
         AttemptsOk, LedgersOk;
    var db' := CreateTransfer(db, key, warehouse, shipment, to).0;
    if CreateTransfer(db, key, warehouse, shipment, to).1 == Done {
      var t := db'.transfers[|db.transfers|];
      assert ShipmentOk(db.shipments[shipment]);
      NewTransferKeepsTransfers(db.transfers, db.shipments, t);
      NewTransferKeepsLinks(db.trips, db.links, db.transfers, t);
      NewTransferKeepsCapacity(db, t);
    }
  }

  lemma NewTransferKeepsTransfers(transfers: seq<Transfer>, shipments: seq<Shipment>, t: Transfer)
    requires TransfersOk(transfers, shipments) && t.shipment < |shipments|
    requires TransferOk(t, shipments[t.shipment]) && t.status == Waiting && !TransferUnderway(transfers, t.shipment)
    ensures TransfersOk(transfers + [t], shipments)
  {
    var transfers' := transfers + [t];
    forall i | 0 <= i < |transfers| && transfers[i].shipment < |shipments|
      ensures TransferOk(transfers[i], shipments[transfers[i].shipment]) && transfers[i].shipment != t.shipment
    {
    }
    forall s | 0 <= s < |shipments| && shipments[s].status == InTransit
      ensures exists i :: 0 <= i < |transfers'| && transfers'[i].shipment == s && transfers'[i].status == Moving
    {
      var i :| 0 <= i < |transfers| && transfers[i].shipment == s && transfers[i].status == Moving;
      assert transfers'[i] == transfers[i];
    }
  }

  lemma NewTransferKeepsLinks(trips: seq<Trip>, links: seq<Link>, transfers: seq<Transfer>, t: Transfer)
    requires LinksOk(trips, links, transfers) && forall i :: 0 <= i < |links| ==> links[i].transfer < |transfers|
    ensures LinksOk(trips, links, transfers + [t])
  {
    forall i | 0 <= i < |links| ensures LinkOk(trips, transfers + [t], links[i]) {
      assert LinkOk(trips, transfers, links[i]);
    }
  }

  lemma NewTransferKeepsCapacity(db: Db, t: Transfer)
    requires References(db) && CapacityOk(db.trips, db.vehicles, db.links, Loads(db.transfers, db.shipments))
    ensures CapacityOk(db.trips, db.vehicles, db.links, Loads(db.transfers + [t], db.shipments))
  {
    var loads, loads' := Loads(db.transfers, db.shipments), Loads(db.transfers + [t], db.shipments);
    forall i: Id ensures ManifestGrams(db.links, loads', i) == ManifestGrams(db.links, loads, i) {
      GramsDependOnOwnLoads(db.links, loads, loads', i);
    }
  }

  lemma DispatchTransferKeeps(db: Db, warehouse: Id, transfer: Id, cutover: Option<int>, now: int)
    requires Inv(db)
    ensures Inv(DispatchTransfer(db, warehouse, transfer, None, cutover, now).0)
  {
    hide TripsOk, SchedulesDisjoint, LinksOk, CapacityOk, VehiclesOk, RoutesOk, TransfersOk, DriversOk, TasksOk,
         AttemptsOk, LedgersOk;
    var db' := DispatchTransfer(db, warehouse, transfer, None, cutover, now).0;
    if DispatchTransfer(db, warehouse, transfer, None, cutover, now).1 == Done {
      var t := db'.transfers[transfer];
      var s := db'.shipments[t.shipment];
      WaitingIsAtOrigin(db.transfers, db.shipments, transfer);
      OneMoved(db.shipments, t.shipment, s);
      MoveKeepsParcels(db, db'.shipments);
      SameLoads(db.transfers, db'.transfers, db.shipments, db'.shipments);
      TransferRowKeepsTransfers(db.transfers, db.shipments, transfer, t, s);
      UnownedTransferKeepsLinks(db.trips, db.links, db.transfers, transfer, t);
    }
  }

  lemma WaitingIsAtOrigin(transfers: seq<Transfer>, shipments: seq<Shipment>, t: Id)
    requires TransfersOk(transfers, shipments) && t < |transfers| && transfers[t].shipment < |shipments|
    ensures transfers[t].status == Waiting ==> shipments[transfers[t].shipment].status == AtOrigin
    ensures TransferOk(transfers[t], shipments[transfers[t].shipment])
  {
  }

  /** A transfer row and its shipment row moving together. */
  lemma TransferRowKeepsTransfers(transfers: seq<Transfer>, shipments: seq<Shipment>, id: Id, t: Transfer, s: Shipment)
    requires TransfersOk(transfers, shipments) && id < |transfers| && transfers[id].shipment < |shipments|
    requires t.shipment == transfers[id].shipment && TransferOk(t, s)
    requires s.status == InTransit ==> t.status == Moving
    ensures TransfersOk(transfers[id := t], shipments[t.shipment := s])
  {
    var transfers', shipments' := transfers[id := t], shipments[t.shipment := s];
    forall i | 0 <= i < |transfers'| && transfers'[i].shipment < |shipments'| ensures TransferOk(transfers'[i], shipments'[transfers'[i].shipment]) {
      if i != id {
        assert transfers[i].shipment != transfers[id].shipment;
        assert TransferOk(transfers[i], shipments[transfers[i].shipment]);
      }
    }
    forall k | 0 <= k < |shipments'| && shipments'[k].status == InTransit
      ensures exists i :: 0 <= i < |transfers'| && transfers'[i].shipment == k && transfers'[i].status == Moving
    {
      if k == t.shipment {
        assert transfers'[id] == t;
      } else {
        var i :| 0 <= i < |transfers| && transfers[i].shipment == k && transfers[i].status == Moving;
        assert transfers'[i] == transfers[i];
      }
    }
  }

  lemma UnownedTransferKeepsLinks(trips: seq<Trip>, links: seq<Link>, transfers: seq<Transfer>, id: Id, t: Transfer)
    requires LinksOk(trips, links, transfers) && id < |transfers| && t.from == transfers[id].from && t.to == transfers[id].to
    requires forall i :: 0 <= i < |links| && links[i].active && links[i].transfer == id && links[i].trip < |trips| ==> Coupled(trips[links[i].trip].status, t.status)
    ensures LinksOk(trips, links, transfers[id := t])
  {
    forall i | 0 <= i < |links| ensures LinkOk(trips, transfers[id := t], links[i]) {
      assert LinkOk(trips, transfers, links[i]);
    }
  }

  lemma ReceiveTransferKeeps(db: Db, warehouse: Id, transfer: Id, cutover: Option<int>, now: int)
    requires Inv(db)
    ensures Inv(ReceiveTransfer(db, warehouse, transfer, cutover, now).0)
  {
    hide TripsOk, SchedulesDisjoint, LinksOk, CapacityOk, VehiclesOk, RoutesOk, TransfersOk, DriversOk, TasksOk,
         AttemptsOk, LedgersOk;
    var db' := ReceiveTransfer(db, warehouse, transfer, cutover, now).0;
    if ReceiveTransfer(db, warehouse, transfer, cutover, now).1 == Done {
      var t := db'.transfers[transfer];
      var s := db'.shipments[t.shipment];
      WaitingIsAtOrigin(db.transfers, db.shipments, transfer);
      OneMoved(db.shipments, t.shipment, s);
      MoveKeepsParcels(db, db'.shipments);
      SameLoads(db.transfers, db'.transfers, db.shipments, db'.shipments);
      TransferRowKeepsTransfers(db.transfers, db.shipments, transfer, t, s);
      OwnersHaveArrived(db, transfer);
      UnownedTransferKeepsLinks(db.trips, db.links, db.transfers, transfer, t);
    }
  }

  lemma OwnersHaveArrived(db: Db, transfer: Id)
    requires References(db) && LinksOk(db.trips, db.links, db.transfers) && transfer < |db.transfers|
    requires var owner := ActiveLink(db.links, transfer); owner.Some? ==> db.trips[db.links[owner.value].trip].status == Arrived
    ensures forall i :: 0 <= i < |db.links| && db.links[i].active && db.links[i].transfer == transfer ==> db.trips[db.links[i].trip].status == Arrived
  {
  }

  // ----- trip dispatch -----

  predicate Carries(transfers: seq<Transfer>, ids: seq<Id>, shipment: Id) {
    exists i :: 0 <= i < |ids| && ids[i] < |transfers| && transfers[ids[i]].shipment == shipment
  }

  /** Dispatching a manifest, said all at once. */
  function Sent(db: Db, ids: seq<Id>, now: int): Db {
    db.(transfers := seq(|db.transfers|, t requires 0 <= t < |db.transfers| =>
          if t in ids then db.transfers[t].(status := Moving, dispatchedAt := Some(now)) else db.transfers[t]),
        shipments := seq(|db.shipments|, s requires 0 <= s < |db.shipments| =>
          if Carries(db.transfers, ids, s) then db.shipments[s].(status := InTransit, current := None, version := db.shipments[s].version + 1)
          else db.shipments[s]))
  }

  predicate ReadyToLeave(db: Db, trip: Id, t: Id)
    requires References(db)
  {
    && trip < |db.trips| && t < |db.transfers|
    && ActiveLink(db.links, t).Some? && db.links[ActiveLink(db.links, t).value].trip == trip
    && db.warehouses[db.transfers[t].from].active && db.warehouses[db.transfers[t].to].active
    && db.transfers[t].from == db.trips[trip].origin
    && DispatchableError(db.transfers[t], db.shipments[db.transfers[t].shipment], db.trips[trip].origin, db.transfers[t].to) == None
  }

  /** One more transfer of the manifest leaves exactly as `Sent` says. */
  lemma SendOne(db: Db, trip: Id, front: seq<Id>, last: Id, now: int)
    requires References(db) && trip < |db.trips| && db.trips[trip].status == Underway
    requires ReadyToLeave(db, trip, last) && last !in front && !Carries(db.transfers, front, db.transfers[last].shipment)
    ensures DispatchTransfer(Sent(db, front, now), db.trips[trip].origin, last, Some(trip), None, now) == (Sent(db, front + [last], now), Done)
  {
    var db1, db2 := Sent(db, front, now), Sent(db, front + [last], now);
    var t := db.transfers[last];
    assert db1.transfers[last] == t && db1.shipments[t.shipment] == db.shipments[t.shipment];
    assert db2.transfers == db1.transfers[last := t.(status := Moving, dispatchedAt := Some(now))];
    forall s | 0 <= s < |db.shipments| ensures Carries(db.transfers, front + [last], s) <==> Carries(db.transfers, front, s) || s == t.shipment {
      CarriesAppend(db.transfers, front, last, s);
    }
    var s := db.shipments[t.shipment];
    assert db2.shipments == db1.shipments[t.shipment := s.(status := InTransit, current := None, version := s.version + 1)];
  }

  /** The loop over the manifest never meets a refusal and does to every
      transfer and shipment what `Sent` says. */
  lemma {:induction false} DispatchAllIsSent(db: Db, trip: Id, ids: seq<Id>, now: int)
    requires References(db) && trip < |db.trips| && db.trips[trip].status == Underway
    requires Distinct(ids) && forall i :: 0 <= i < |ids| ==> ReadyToLeave(db, trip, ids[i])
    requires forall t, u :: 0 <= t < u < |db.transfers| ==> db.transfers[t].shipment != db.transfers[u].shipment
    ensures DispatchAll(db, db.trips[trip].origin, trip, ids, now) == Ok(Sent(db, ids, now))
  {
    hide ReadyToLeave, References, DispatchTransfer;
    if |ids| == 0 {
      assert Sent(db, ids, now).transfers == db.transfers && Sent(db, ids, now).shipments == db.shipments;
    } else {
      var front, last := ids[..|ids| - 1], ids[|ids| - 1];
      DispatchAllIsSent(db, trip, front, now);
      assert ReadyToLeave(db, trip, last);
      OthersCarryOthers(db, trip, ids);
      SendOne(db, trip, front, last, now);
      assert front + [last] == ids;
    }
  }

  lemma OthersCarryOthers(db: Db, trip: Id, ids: seq<Id>)
    requires References(db) && |ids| > 0 && Distinct(ids) && forall i :: 0 <= i < |ids| ==> ReadyToLeave(db, trip, ids[i])
    requires forall t, u :: 0 <= t < u < |db.transfers| ==> db.transfers[t].shipment != db.transfers[u].shipment
    ensures var front, last := ids[..|ids| - 1], ids[|ids| - 1];
            last !in front && last < |db.transfers| && !Carries(db.transfers, front, db.transfers[last].shipment)
  {
    var front, last := ids[..|ids| - 1], ids[|ids| - 1];
    assert ReadyToLeave(db, trip, last);
    forall i | 0 <= i < |front| && front[i] < |db.transfers| ensures db.transfers[front[i]].shipment != db.transfers[last].shipment {
      assert front[i] == ids[i] != last;
    }
  }

  lemma CarriesAppend(transfers: seq<Transfer>, front: seq<Id>, last: Id, s: Id)
    requires last < |transfers|
    ensures Carries(transfers, front + [last], s) <==> Carries(transfers, front, s) || transfers[last].shipment == s
  {
    var ids := front + [last];
    assert ids[|front|] == last;
    if Carries(transfers, front, s) {
      var i :| 0 <= i < |front| && front[i] < |transfers| && transfers[front[i]].shipment == s;
      assert ids[i] == front[i];
    }
  }

  lemma {:induction false} ManifestIsDistinct(links: seq<Link>, trip: Id)
    requires forall i, j :: 0 <= i < j < |links| && links[i].active && links[j].active ==> links[i].transfer != links[j].transfer
    ensures Distinct(Manifest(links, trip))
  {
    if |links| > 0 {
      var n := |links| - 1;
      ManifestIsDistinct(links[..n], trip);
      var rest := Manifest(links[..n], trip);
      forall i | 0 <= i < |rest| && links[n].active ensures rest[i] != links[n].transfer {
        var k :| 0 <= k < n && links[..n][k] == Link(trip, rest[i], true);
      }
    }
  }

  /** Everything on the manifest of a trip that passed its checks can leave. */
  lemma ListedLeaves(db: Db, id: Id, k: nat)
    requires References(db) && LinksOk(db.trips, db.links, db.transfers) && id < |db.trips| && k < |db.links|
    requires db.links[k].active && db.links[k].trip == id
    requires db.warehouses[db.trips[id].origin].active && db.warehouses[db.trips[id].destination].active
    requires var t := db.links[k].transfer;
             DispatchableError(db.transfers[t], db.shipments[db.transfers[t].shipment], db.trips[id].origin, db.trips[id].destination) == None
    ensures ReadyToLeave(Departed(db, id), id, db.links[k].transfer)
  {
    assert ActiveLink(db.links, db.links[k].transfer) == Some(k);
    assert LinkOk(db.trips, db.transfers, db.links[k]);
  }

  lemma ManifestReady(db: Db, id: Id)
    requires References(db) && LinksOk(db.trips, db.links, db.transfers) && id < |db.trips| && ExecutionError(db, id) == None
    ensures Distinct(Manifest(db.links, id))
    ensures forall i :: 0 <= i < |Manifest(db.links, id)| ==> ReadyToLeave(Departed(db, id), id, Manifest(db.links, id)[i])
  {
    hide ReadyToLeave, DispatchableError, BookingError, ManifestGrams, DriverError, CapacityError, DriverAssigned, ManifestError, ActiveLink;
    var ids := Manifest(db.links, id);
    ManifestIsDistinct(db.links, id);
    forall i | 0 <= i < |ids| ensures ReadyToLeave(Departed(db, id), id, ids[i]) {
      assert OnManifest(db.links, id, ids[i]);
      var k :| 0 <= k < |db.links| && db.links[k] == Link(id, ids[i], true);
      ListedLeaves(db, id, k);
    }
  }

  /** With its checks passed, a dispatch always goes through. */
  lemma DispatchGoesThrough(db: Db, id: Id, now: int)
    requires References(db) && LinksOk(db.trips, db.links, db.transfers) && TransfersOk(db.transfers, db.shipments)
    requires id < |db.trips| && db.trips[id].status == Ready && ExecutionError(db, id) == None
    ensures DispatchTrip(db, id, now) == (Sent(Departed(db, id), Manifest(db.links, id), now), Done)
  {
    hide LinksOk;
    ManifestReady(db, id);
    DispatchAllIsSent(Departed(db, id), id, Manifest(db.links, id), now);
  }

  lemma DispatchRefused(db: Db, id: Id, now: int)
    requires Inv(db)
    ensures DispatchTrip(db, id, now).1 != Done ==> DispatchTrip(db, id, now).0 == db
    ensures DispatchTrip(db, id, now).1 == Done ==>
              && id < |db.trips| && db.trips[id].status == Ready && ExecutionError(db, id) == None
              && DispatchTrip(db, id, now).0 == Sent(Departed(db, id), Manifest(db.links, id), now)
  {
    hide TripsOk, SchedulesDisjoint, LinksOk, CapacityOk, VehiclesOk, RoutesOk, TransfersOk, ShipmentsOk,
         DriversOk, TasksOk, AttemptsOk, LedgersOk;
    if id < |db.trips| && db.trips[id].status == Ready && ExecutionError(db, id) == None {
      DispatchGoesThrough(db, id, now);
    }
  }

  lemma DispatchKeeps(db: Db, id: Id, now: int)
    requires Inv(db)
    ensures Inv(DispatchTrip(db, id, now).0)
  {
    hide TripsOk, SchedulesDisjoint, LinksOk, CapacityOk, VehiclesOk, RoutesOk, TransfersOk, ShipmentsOk,
         DriversOk, TasksOk, AttemptsOk, LedgersOk,
      DispatchTrip, ExecutionError, Manifest, Carries;
    DispatchRefused(db, id, now);
    if DispatchTrip(db, id, now).1 == Done {
      var db' := DispatchTrip(db, id, now).0;
      DispatchKeepsRow(db, id);
      PassedVehicle(db, id);
      DispatchKeepsVehicles(db, id);
      DispatchKeepsLinks(db, id, now);
      SentShipments(db, id, now);
      MoveKeepsParcels(db, db'.shipments);
      SameLoads(db.transfers, db'.transfers, db.shipments, db'.shipments);
      DispatchKeepsCapacity(db, id);
      DispatchKeepsTransfers(db, id, now);
    }
  }

  lemma PassedVehicle(db: Db, id: Id)
    requires References(db) && id < |db.trips| && ExecutionError(db, id) == None
    ensures db.vehicles[db.trips[id].vehicle].status == Available
  {
    hide BookingError, ManifestGrams, ManifestError, Manifest, DriverError, CapacityError, DriverAssigned;
  }

  lemma DispatchKeepsRow(db: Db, id: Id)
    requires References(db) && TripsOk(db.trips) && SchedulesDisjoint(db.trips) && DriversOk(db.drivers, db.trips, db.assignments) && RoutesOk(db.trips, db.routes)
    requires id < |db.trips| && db.trips[id].status == Ready
    ensures var trips := Departed(db, id).trips;
            TripsOk(trips) && SchedulesDisjoint(trips) && DriversOk(db.drivers, trips, db.assignments) && RoutesOk(trips, db.routes)
  {
    hide SchedulesDisjoint, DriversOk, RoutesOk;
    var u := Departed(db, id).trips[id];
    SameWindowStaysApart(db.trips, id, u);
    TripRowKeepsSchedules(db.trips, id, u);
    TripRowKeepsTrips(db.trips, id, u);
    TripRowKeepsDrivers(db.drivers, db.trips, db.assignments, id, u);
    TripRowKeepsRoutes(db.trips, db.routes, id, u);
  }

  lemma DispatchKeepsVehicles(db: Db, id: Id)
    requires References(db) && VehiclesOk(db.trips, db.vehicles) && id < |db.trips| && db.trips[id].status == Ready
    requires db.vehicles[db.trips[id].vehicle].status == Available
    ensures var db' := Departed(db, id); VehiclesOk(db'.trips, db'.vehicles)
  {
    var db' := Departed(db, id);
    forall v | 0 <= v < |db'.vehicles| && db'.vehicles[v].status == InUse
      ensures exists t :: 0 <= t < |db'.trips| && db'.trips[t].vehicle == v && db'.trips[t].status == Underway
    {
      if v == db.trips[id].vehicle {
        assert db'.trips[id].vehicle == v;
      } else {
        var t :| 0 <= t < |db.trips| && db.trips[t].vehicle == v && db.trips[t].status == Underway;
        assert db'.trips[t] == db.trips[t];
      }
    }
  }

  lemma DispatchKeepsCapacity(db: Db, id: Id)
    requires References(db) && CapacityOk(db.trips, db.vehicles, db.links, Loads(db.transfers, db.shipments))
    requires id < |db.trips| && db.trips[id].status == Ready
    ensures var db' := Departed(db, id); CapacityOk(db'.trips, db'.vehicles, db.links, Loads(db.transfers, db.shipments))
  {
  }

  /** A transfer's active link decides whether it is on the trip's manifest. */
  lemma ListedByLink(links: seq<Link>, id: Id, i: nat)
    requires forall i, j :: 0 <= i < j < |links| && links[i].active && links[j].active ==> links[i].transfer != links[j].transfer
    requires i < |links| && links[i].active
    ensures links[i].transfer in Manifest(links, id) <==> links[i].trip == id
  {
    hide Manifest;
    assert OnManifest(links, id, links[i].transfer) <==> links[i].trip == id;
  }

  lemma DispatchKeepsLinks(db: Db, id: Id, now: int)
    requires References(db) && LinksOk(db.trips, db.links, db.transfers) && id < |db.trips| && db.trips[id].status == Ready
    ensures var db' := Sent(Departed(db, id), Manifest(db.links, id), now); LinksOk(db'.trips, db'.links, db'.transfers)
  {
    hide Manifest, HasManifest, Carries;
    var db' := Sent(Departed(db, id), Manifest(db.links, id), now);
    forall i | 0 <= i < |db.links| ensures LinkOk(db'.trips, db'.transfers, db.links[i]) {
      assert LinkOk(db.trips, db.transfers, db.links[i]);
      if db.links[i].active { ListedByLink(db.links, id, i); }
    }
  }

  /** A shipment on a manifest that may leave is waiting at the origin. */
  lemma CarriedIsAtOrigin(db: Db, id: Id, s: Id)
    requires References(db) && TransfersOk(db.transfers, db.shipments) && id < |db.trips|
    requires ManifestError(db, id, Manifest(db.links, id)) == None && s < |db.shipments| && Carries(db.transfers, Manifest(db.links, id), s)
    ensures db.shipments[s].status == AtOrigin && db.shipments[s].destination.Some?
  {
    hide Manifest, ManifestError, TransfersOk, DispatchableError;
    var ids := Manifest(db.links, id);
    var i :| 0 <= i < |ids| && ids[i] < |db.transfers| && db.transfers[ids[i]].shipment == s;
    assert DispatchableError(db.transfers[ids[i]], db.shipments[s], db.trips[id].origin, db.trips[id].destination) == None;
    DispatchableIsAtOrigin(db, ids[i], db.trips[id].origin, db.trips[id].destination);
  }

  lemma DispatchableIsAtOrigin(db: Db, t: Id, origin: Id, destination: Id)
    requires References(db) && TransfersOk(db.transfers, db.shipments) && t < |db.transfers|
    requires DispatchableError(db.transfers[t], db.shipments[db.transfers[t].shipment], origin, destination) == None
    ensures db.shipments[db.transfers[t].shipment].status == AtOrigin && db.shipments[db.transfers[t].shipment].destination.Some?
  {
    assert TransferOk(db.transfers[t], db.shipments[db.transfers[t].shipment]);
  }

  lemma SentShipments(db: Db, id: Id, now: int)
    requires References(db) && TransfersOk(db.transfers, db.shipments) && ShipmentsOk(db.shipments)
    requires id < |db.trips| && ExecutionError(db, id) == None
    ensures var shipments' := Sent(Departed(db, id), Manifest(db.links, id), now).shipments;
            && AllMoved(db.shipments, shipments') && ShipmentsOk(shipments')
            && |shipments'| == |db.shipments| && forall s :: 0 <= s < |db.shipments| ==> LoadGrams(shipments'[s]) == LoadGrams(db.shipments[s])
  {
    hide References, TransfersOk, ExecutionError, DispatchableError, Manifest;
    var ids := Manifest(db.links, id);
    assert ManifestError(db, id, ids) == None by { PassedManifest(db, id); }
    var shipments' := Sent(Departed(db, id), ids, now).shipments;
    forall s | 0 <= s < |db.shipments|
      ensures Moved(db.shipments[s], shipments'[s]) && ShipmentOk(shipments'[s]) && LoadGrams(shipments'[s]) == LoadGrams(db.shipments[s])
    {
      assert ShipmentOk(db.shipments[s]);
      if Carries(db.transfers, ids, s) { CarriedIsAtOrigin(db, id, s); }
    }
  }

  lemma PassedManifest(db: Db, id: Id)
    requires References(db) && id < |db.trips| && ExecutionError(db, id) == None
    ensures Within(Manifest(db.links, id), |db.transfers|) && ManifestError(db, id, Manifest(db.links, id)) == None
  {
    hide BookingError, ManifestGrams, DriverError, CapacityError, DriverAssigned, DispatchableError;
  }

  lemma DispatchKeepsTransfers(db: Db, id: Id, now: int)
    requires References(db) && TransfersOk(db.transfers, db.shipments) && id < |db.trips| && ExecutionError(db, id) == None
    ensures var db' := Sent(Departed(db, id), Manifest(db.links, id), now); TransfersOk(db'.transfers, db'.shipments)
  {
    hide References, ExecutionError, DispatchableError, Manifest;
    var ids := Manifest(db.links, id);
    PassedManifest(db, id);
    SentRowsOk(db, id, ids, now);
    MovedShipmentsHaveTransfers(Departed(db, id), ids, now);
  }

  lemma SentRowsOk(db: Db, id: Id, ids: seq<Id>, now: int)
    requires References(db) && TransfersOk(db.transfers, db.shipments) && id < |db.trips| && Within(ids, |db.transfers|) && ManifestError(db, id, ids) == None
    ensures var db' := Sent(Departed(db, id), ids, now);
            forall t :: 0 <= t < |db'.transfers| && db'.transfers[t].shipment < |db'.shipments| ==> TransferOk(db'.transfers[t], db'.shipments[db'.transfers[t].shipment])
  {
    hide ManifestError, Carries;
    var db' := Sent(Departed(db, id), ids, now);
    assert |db'.transfers| == |db.transfers| && |db'.shipments| == |db.shipments|;
    forall t: Id | t < |db'.transfers| && db'.transfers[t].shipment < |db'.shipments| ensures TransferOk(db'.transfers[t], db'.shipments[db'.transfers[t].shipment]) {
      CarriedIffListed(db, ids, t);
      assert TransferOk(db.transfers[t], db.shipments[db.transfers[t].shipment]);
      if t in ids { ListedPassed(db, id, ids, t); }
    }
  }

  lemma ListedPassed(db: Db, id: Id, ids: seq<Id>, t: Id)
    requires References(db) && id < |db.trips| && Within(ids, |db.transfers|) && ManifestError(db, id, ids) == None && t in ids
    ensures DispatchableError(db.transfers[t], db.shipments[db.transfers[t].shipment], db.trips[id].origin, db.trips[id].destination) == None
  {
    var i :| 0 <= i < |ids| && ids[i] == t;
  }

  /** With one transfer per shipment, a shipment is carried exactly when its
      transfer is listed. */
  lemma CarriedIffListed(db: Db, ids: seq<Id>, t: Id)
    requires References(db) && TransfersOk(db.transfers, db.shipments) && Within(ids, |db.transfers|) && t < |db.transfers|
    ensures Carries(db.transfers, ids, db.transfers[t].shipment) <==> t in ids
  {
  }

  lemma MovedShipmentsHaveTransfers(db: Db, ids: seq<Id>, now: int)
    requires TransfersOk(db.transfers, db.shipments) && Within(ids, |db.transfers|)
    ensures var db' := Sent(db, ids, now);
            forall s :: 0 <= s < |db'.shipments| && db'.shipments[s].status == InTransit ==>
              exists t :: 0 <= t < |db'.transfers| && db'.transfers[t].shipment == s && db'.transfers[t].status == Moving
  {
    var db' := Sent(db, ids, now);
    forall s | 0 <= s < |db'.shipments| && db'.shipments[s].status == InTransit
      ensures exists t :: 0 <= t < |db'.transfers| && db'.transfers[t].shipment == s && db'.transfers[t].status == Moving
    {
      if Carries(db.transfers, ids, s) {
        var i :| 0 <= i < |ids| && ids[i] < |db.transfers| && db.transfers[ids[i]].shipment == s;
        assert db'.transfers[ids[i]].status == Moving;
      } else {
        var t :| 0 <= t < |db.transfers| && db.transfers[t].shipment == s && db.transfers[t].status == Moving;
        assert db'.transfers[t].status == Moving;
      }
    }
  }
}

/** When a warehouse or transfer command goes through in a reachable state, and
    what it then writes, told by the rows alone. */
module TransferAnswers {
  import opened Rows
  import opened Policies
  import opened Tables
  import opened Invariants
  import opened TransferCommands
  import opened ParcelCommands
  import opened Facts
  import R = Reachability
  import opened KeepTransfers
  import opened KeepParcels
  import opened NetworkTheorems
  import opened ManifestTheorems
  import opened ParcelTheorems

  /** A parcel is checked in exactly at the warehouse it was picked up for, once
      it is verified. */
  lemma CheckInExact(db: Db, warehouse: Id, s: Id, grams: int, verified: bool)
    requires R.Reachable(db) && s < |db.shipments|
    ensures References(db)
    ensures var row := db.shipments[s];
            var (db', r) := CheckIn(db, warehouse, s, grams, verified);
            var here := 1 <= grams && Open(db, warehouse) && row.origin == Some(warehouse) && verified;
            && (r == Done <==> here && row.status == PickedUp)
            && (r == Unchanged <==> here && row.status == AtOrigin)
            && db' == if r != Done then db
                      else db.(shipments := db.shipments[s := row.(status := AtOrigin, current := Some(warehouse), verifiedGrams := Some(grams),
                                                                   version := row.version + 1)])
  {
    hide Inv, R.Reachable, ExpectedOrigin;
    R.ReachableInv(db);
    Resolves(db);
    CheckInOrigin(db, s);
    ShipmentIs(db, s);
  }

  lemma ShipmentIs(db: Db, s: Id)
    requires Inv(db) && s < |db.shipments|
    ensures ShipmentOk(db.shipments[s])
  {
    hide TripsOk, SchedulesDisjoint, LinksOk, CapacityOk, VehiclesOk, RoutesOk, TransfersOk,
         DriversOk, TasksOk, AttemptsOk, LedgersOk, References;
  }

  /** A destination is chosen for a parcel waiting at its origin without a
      transfer; if that is where it stands, it awaits delivery at once. */
  lemma RouteExact(db: Db, warehouse: Id, s: Id, to: Id)
    requires R.Reachable(db) && s < |db.shipments|
    ensures var row := db.shipments[s];
            var (db', r) := RouteDestination(db, warehouse, s, to);
            && (r == Done <==>
                  && row.current == Some(warehouse) && row.status == AtOrigin && row.destination != Some(to)
                  && !HasOpenTransfer(db, s) && Open(db, to))
            && (r == Unchanged <==> row.current == Some(warehouse) && row.destination == Some(to) && row.status in {AtOrigin, AwaitingDelivery})
            && db' == if r != Done then db
                      else db.(shipments := db.shipments[s := row.(status := if to == warehouse then AwaitingDelivery else AtOrigin,
                                                                   destination := Some(to), version := row.version + 1)])
  {
    hide R.Reachable;
  }

  /** Of the two places a parcel could be marked ready from, only its destination
      is ever reached: at its origin it always still has to go elsewhere. */
  lemma MarkReadyExact(db: Db, warehouse: Id, s: Id)
    requires R.Reachable(db) && s < |db.shipments| && warehouse < |db.warehouses|
    ensures var row := db.shipments[s];
            var (db', r) := MarkReady(db, warehouse, s);
            && (r == Done <==> row.current == Some(warehouse) && row.status == AtDestination)
            && (r == Unchanged <==> row.current == Some(warehouse) && row.status == AwaitingDelivery)
            && (row.current == Some(warehouse) && row.status == AtOrigin ==>
                  r == Refused(if row.destination.Some? then TransferRequired else DestinationRequired))
            && db' == if r != Done then db
                      else db.(shipments := db.shipments[s := row.(status := AwaitingDelivery, version := row.version + 1)])
  {
    hide Inv, R.Reachable;
    R.ReachableInv(db);
    ShipmentIs(db, s);
  }

  predicate TransferKeyed(db: Db, key: Id) {
    exists x: Id :: x < |db.transfers| && db.transfers[x].key == key
  }

  predicate OpenOnLeg(db: Db, s: Id, from: Id, to: Id) {
    exists x: Id :: x < |db.transfers| && db.transfers[x].shipment == s && db.transfers[x].from == from && db.transfers[x].to == to
                    && db.transfers[x].status in {Waiting, Moving}
  }

  /** Under a new key, a transfer is created exactly for a parcel standing at its
      origin with this destination and no open transfer. */
  lemma CreateTransferExact(db: Db, key: Id, warehouse: Id, s: Id, to: Id)
    requires R.Reachable(db) && s < |db.shipments| && !TransferKeyed(db, key)
    ensures References(db)
    ensures var row := db.shipments[s];
            var (db', r) := CreateTransfer(db, key, warehouse, s, to);
            && (r == Done <==>
                  && row.status == AtOrigin && row.current == Some(warehouse) && row.destination == Some(to)
                  && to != warehouse && Open(db, warehouse) && Open(db, to) && !HasOpenTransfer(db, s))
            && (r == Unchanged <==> OpenOnLeg(db, s, warehouse, to))
            && db' == if r != Done then db else db.(transfers := db.transfers + [Transfer(key, s, warehouse, to, Waiting, None)])
  {
    hide Inv, R.Reachable, References;
    R.ReachableInv(db);
    Resolves(db);
    ShipmentIs(db, s);
    forall i | 0 <= i < |db.transfers| ensures db.transfers[i].key != key {
      assert db.transfers[i].key == key ==> TransferKeyed(db, key);
    }
    assert HasOpenTransfer(db, s) <==> TransferUnderway(db.transfers, s);
    OpenTransferIsOnly(db, s);
  }

  /** Under a used key the same transfer is recognised and any other refused. */
  lemma TransferKnownExact(db: Db, key: Id, warehouse: Id, s: Id, to: Id)
    requires References(db) && TransferKeyed(db, key)
    ensures var same := exists x: Id :: x < |db.transfers| && db.transfers[x].key == key && db.transfers[x].shipment == s
                                        && db.transfers[x].from == warehouse && db.transfers[x].to == to;
            CreateTransfer(db, key, warehouse, s, to) == (db, if same then Unchanged else Refused(KeyReused))
  {
    hide References;
    var x: Id :| x < |db.transfers| && db.transfers[x].key == key;
  }

  lemma OpenTransferIsOnly(db: Db, s: Id)
    requires Inv(db)
    ensures forall x: Id, y: Id :: x < |db.transfers| && y < |db.transfers| && db.transfers[x].shipment == db.transfers[y].shipment ==> x == y
  {
    hide TripsOk, SchedulesDisjoint, LinksOk, CapacityOk, VehiclesOk, RoutesOk, ShipmentsOk,
         DriversOk, TasksOk, AttemptsOk, LedgersOk, References;
  }

  /** On its own a transfer leaves exactly from its source, while on no manifest,
      with both ends open and before the cutover. */
  lemma DispatchTransferExact(db: Db, warehouse: Id, x: Id, cutover: Option<int>, now: int)
    requires R.Reachable(db) && x < |db.transfers|
    ensures References(db)
    ensures var t := db.transfers[x];
            var row := db.shipments[t.shipment];
            var (db', r) := DispatchTransfer(db, warehouse, x, None, cutover, now);
            && (r == Done <==>
                  t.from == warehouse && t.status == Waiting && !OnSomeManifest(db, x) && Open(db, t.from) && Open(db, t.to) && !CutOver(cutover, now))
            && (r == Unchanged <==> t.from == warehouse && t.status in {Moving, Completed})
            && db' == if r != Done then db
                      else db.(transfers := db.transfers[x := t.(status := Moving, dispatchedAt := Some(now))],
                               shipments := db.shipments[t.shipment := row.(status := InTransit, current := None, version := row.version + 1)])
  {
    hide TripsOk, SchedulesDisjoint, LinksOk, CapacityOk, VehiclesOk, RoutesOk, TransfersOk, ShipmentsOk,
         DriversOk, TasksOk, AttemptsOk, LedgersOk, R.Reachable;
    R.ReachableInv(db);
    WaitingIsAtOrigin(db.transfers, db.shipments, x);
    OwnerIsOnly(db, x);
  }

  /** Everybody who carries the transfer has arrived. */
  predicate CarrierArrived(db: Db, x: Id) {
    forall t: Id :: t < |db.trips| && OnManifest(db.links, t, x) ==> db.trips[t].status == Arrived
  }

  /** A moving transfer is received at its destination: off a trip that has
      arrived, or, on its own, if it left before the cutover or none has come. */
  lemma ReceiveTransferExact(db: Db, warehouse: Id, x: Id, cutover: Option<int>, now: int)
    requires R.Reachable(db) && x < |db.transfers|
    ensures References(db)
    ensures var t := db.transfers[x];
            var row := db.shipments[t.shipment];
            var (db', r) := ReceiveTransfer(db, warehouse, x, cutover, now);
            && (r == Done <==>
                  && t.to == warehouse && t.status == Moving && Open(db, warehouse)
                  && if OnSomeManifest(db, x) then CarrierArrived(db, x)
                     else !CutOver(cutover, now) || (t.dispatchedAt.Some? && t.dispatchedAt.value < cutover.value))
            && (r == Unchanged <==> t.to == warehouse && t.status == Completed)
            && db' == if r != Done then db
                      else db.(transfers := db.transfers[x := t.(status := Completed)],
                               shipments := db.shipments[t.shipment := row.(status := AtDestination, current := Some(warehouse), version := row.version + 1)])
  {
    hide TripsOk, SchedulesDisjoint, LinksOk, CapacityOk, VehiclesOk, RoutesOk, TransfersOk, ShipmentsOk,
         DriversOk, TasksOk, AttemptsOk, LedgersOk, R.Reachable;
    R.ReachableInv(db);
    WaitingIsAtOrigin(db.transfers, db.shipments, x);
    OwnerAgrees(db, x);
    OwnerIsOnly(db, x);
    var owner := ActiveLink(db.links, x);
    if owner.Some? { assert OnManifest(db.links, db.links[owner.value].trip, x); }
  }

  /** A returning parcel ends at the warehouse named for it. */
  lemma ReceiveReturnExact(db: Db, warehouse: Id, s: Id)
    requires R.Reachable(db) && s < |db.shipments|
    ensures var row := db.shipments[s];
            var (db', r) := ReceiveReturn(db, warehouse, s);
            && (r == Done <==> row.returnTo == Some(warehouse) && row.status == ReturnInTransit && Open(db, warehouse))
            && (r == Unchanged <==> row.returnTo == Some(warehouse) && row.status == Returned)
            && db' == if r != Done then db
                      else db.(shipments := db.shipments[s := row.(status := Returned, current := Some(warehouse), version := row.version + 1)])
  {
    hide R.Reachable;
  }
}

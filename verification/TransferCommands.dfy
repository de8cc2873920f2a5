/** Warehouse transfers: creating one, sending it off, receiving it. */
module TransferCommands {
  import opened Rows
  import opened Policies
  import opened Tables

  function CreateTransfer(db: Db, key: Id, warehouse: Id, shipment: Id, to: Id): (Db, Reply)
    requires References(db)
  {
    if exists i :: 0 <= i < |db.transfers| && db.transfers[i].key == key then
      if exists i :: 0 <= i < |db.transfers| && db.transfers[i].key == key && db.transfers[i].shipment == shipment
           && db.transfers[i].from == warehouse && db.transfers[i].to == to
      then (db, Unchanged) else (db, Refused(KeyReused))
    else
      var open := OpenTransfer(db.transfers, shipment);
      if open.Some? then
        if db.transfers[open.value].from == warehouse && db.transfers[open.value].to == to
        then (db, Unchanged) else (db, Refused(ActiveTransferExists))
      else if to == warehouse then (db, Refused(SameWarehouse))
      else if !WarehouseOpen(db.warehouses, warehouse) || !WarehouseOpen(db.warehouses, to) then (db, Refused(WarehouseInactive))
      else if shipment >= |db.shipments| then (db, Refused(NotFound))
      else
        var s := db.shipments[shipment];
        if s.current != Some(warehouse) then (db, Refused(ShipmentNotAtWarehouse))
        else if s.status !in {AtOrigin, AtDestination} then (db, Refused(TransitionInvalid))
        else if s.destination == None then (db, Refused(DestinationRequired))
        else if s.destination != Some(to) then (db, Refused(TransferDestinationMismatch))
        else (db.(transfers := db.transfers + [Transfer(key, shipment, warehouse, to, Waiting, None)]), Done)
  }

  /** Sends one transfer off from `warehouse`: on behalf of a trip, or standalone
      where the line-haul cutover still allows it. */
  function DispatchTransfer(db: Db, warehouse: Id, transfer: Id, trip: Option<Id>, cutover: Option<int>, now: int): (r: (Db, Reply))
    requires References(db)
    ensures References(r.0)
  {
    if transfer >= |db.transfers| then (db, Refused(NotFound))
    else
      var t := db.transfers[transfer];
      var s := db.shipments[t.shipment];
      var owner := ActiveLink(db.links, transfer);
      var refusal := DispatchableError(t, s, warehouse, t.to);
      if t.from != warehouse then (db, Refused(TransferOriginMismatch))
      else if t.status in {Moving, Completed} && t.dispatchedAt.Some? then (db, Unchanged)
      else if trip.Some? && (owner == None || db.links[owner.value].trip != trip.value || db.trips[db.links[owner.value].trip].status != Underway) then
        (db, Refused(ManifestOwnershipInvalid))
      else if trip == None && owner.Some? then (db, Refused(TransferOwned))
      else if !db.warehouses[t.from].active || !db.warehouses[t.to].active then (db, Refused(WarehouseInactive))
      else if refusal.Some? then (db, Refused(refusal.value))
      else if trip == None && Enforced(cutover, now) then (db, Refused(TripRequired))
      else
        (db.(transfers := db.transfers[transfer := t.(status := Moving, dispatchedAt := Some(now))],
             shipments := db.shipments[t.shipment := s.(status := InTransit, current := None, version := s.version + 1)]),
         Done)
  }

  function ReceiveTransfer(db: Db, warehouse: Id, transfer: Id, cutover: Option<int>, now: int): (Db, Reply)
    requires References(db)
  {
    if transfer >= |db.transfers| then (db, Refused(NotFound))
    else
      var t := db.transfers[transfer];
      var s := db.shipments[t.shipment];
      var owner := ActiveLink(db.links, transfer);
      if t.to != warehouse then (db, Refused(TransferDestinationMismatch))
      else if t.status == Completed then (db, Unchanged)
      else if !db.warehouses[t.to].active then (db, Refused(NotFound))
      else if t.status != Moving then (db, Refused(TransferNotInTransit))
      else if owner.Some? && (db.trips[db.links[owner.value].trip].origin != t.from || db.trips[db.links[owner.value].trip].destination != t.to) then
        (db, Refused(RouteMismatch))
      else if owner.Some? && db.trips[db.links[owner.value].trip].status != Arrived then (db, Refused(TripNotArrived))
      else if owner == None && Enforced(cutover, now) && !LegacyStandalone(cutover, t.dispatchedAt) then
        (db, Refused(LegacyReceiveNotEligible))
      else if s.status != InTransit then (db, Refused(TransitionInvalid))
      else
        (db.(transfers := db.transfers[transfer := t.(status := Completed)],
             shipments := db.shipments[t.shipment := s.(status := AtDestination, current := Some(warehouse), version := s.version + 1)]),
         Done)
  }
}

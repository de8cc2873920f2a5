/** Warehouse handling as it runs: the shipment or transfer row is locked,
    checked and rewritten. */
module WarehouseService {
  import opened Rows
  import opened Policies
  import opened Tables
  import opened Invariants
  import opened Storage
  import Spec = ParcelCommands
  import TransferSpec = TransferCommands
  import KeepTransfers
  import KeepParcels
  import TripService

  method CheckIn(s: Store, warehouse: Id, shipment: Id, grams: int, verified: bool) returns (r: Reply)
    requires s.Valid()
    modifies s
    ensures s.Valid() && (s.Db(), r) == Spec.CheckIn(old(s.Db()), warehouse, shipment, grams, verified)
  {
    hide Inv;
    Resolves(s.Db());
    KeepTransfers.CheckInKeeps(s.Db(), warehouse, shipment, grams, verified);
    if grams < 1 { return Refused(InvalidInput); }
    if !WarehouseOpen(s.warehouses, warehouse) || shipment >= |s.shipments| { return Refused(NotFound); }
    var row := s.shipments[shipment];
    var expected := row.origin;
    if expected == None {
      var pickup := FinishedPickup(s.assignments, shipment);
      if pickup.Some? { expected := Some(s.drivers[s.assignments[pickup.value].driver].home); }
    }
    if expected == None { return Refused(OriginWarehouseRequired); }
    if expected != Some(warehouse) { return Refused(OriginWarehouseMismatch); }
    if !verified { return Refused(PackageVerificationRequired); }
    if row.current == Some(warehouse) && row.status == AtOrigin { return Unchanged; }
    if row.status != PickedUp { return Refused(TransitionInvalid); }
    row := row.(verifiedGrams := Some(grams));
    row := row.(status := AtOrigin, origin := expected, current := Some(warehouse), version := row.version + 1);
    s.shipments := s.shipments[shipment := row];
    return Done;
  }

  method RouteDestination(s: Store, warehouse: Id, shipment: Id, to: Id) returns (r: Reply)
    requires s.Valid()
    modifies s
    ensures s.Valid() && (s.Db(), r) == Spec.RouteDestination(old(s.Db()), warehouse, shipment, to)
  {
    hide Inv;
    Resolves(s.Db());
    KeepTransfers.RouteKeeps(s.Db(), warehouse, shipment, to);
    if shipment >= |s.shipments| { return Refused(NotFound); }
    var row := s.shipments[shipment];
    if row.current != Some(warehouse) { return Refused(ShipmentNotAtWarehouse); }
    if row.destination == Some(to) && row.status in {AtOrigin, AwaitingDelivery} { return Unchanged; }
    if row.status != AtOrigin { return Refused(TransitionInvalid); }
    if TransferUnderway(s.transfers, shipment) { return Refused(ActiveTransferExists); }
    if !WarehouseOpen(s.warehouses, to) { return Refused(NotFound); }
    row := row.(destination := Some(to), version := row.version + 1);
    if to == warehouse { row := row.(status := AwaitingDelivery); }
    s.shipments := s.shipments[shipment := row];
    return Done;
  }

  method MarkReady(s: Store, warehouse: Id, shipment: Id) returns (r: Reply)
    requires s.Valid()
    modifies s
    ensures s.Valid() && (s.Db(), r) == Spec.MarkReady(old(s.Db()), warehouse, shipment)
  {
    hide Inv;
    Resolves(s.Db());
    KeepTransfers.MarkReadyKeeps(s.Db(), warehouse, shipment);
    if warehouse >= |s.warehouses| || shipment >= |s.shipments| { return Refused(NotFound); }
    var row := s.shipments[shipment];
    if row.current != Some(warehouse) { return Refused(ShipmentNotAtWarehouse); }
    if row.status == AwaitingDelivery { return Unchanged; }
    if row.status == AtOrigin && row.destination != Some(warehouse) {
      return Refused(if row.destination.Some? then TransferRequired else DestinationRequired);
    }
    if row.status !in {AtOrigin, AtDestination} { return Refused(TransitionInvalid); }
    s.shipments := s.shipments[shipment := row.(status := AwaitingDelivery, version := row.version + 1)];
    return Done;
  }

  method ReceiveReturn(s: Store, warehouse: Id, shipment: Id) returns (r: Reply)
    requires s.Valid()
    modifies s
    ensures s.Valid() && (s.Db(), r) == Spec.ReceiveReturn(old(s.Db()), warehouse, shipment)
  {
    hide Inv;
    Resolves(s.Db());
    KeepParcels.ReceiveReturnKeeps(s.Db(), warehouse, shipment);
    if shipment >= |s.shipments| { return Refused(NotFound); }
    var row := s.shipments[shipment];
    if row.returnTo != Some(warehouse) { return Refused(TransferDestinationMismatch); }
    if row.status == Returned { return Unchanged; }
    if row.status != ReturnInTransit { return Refused(TransitionInvalid); }
    if !WarehouseOpen(s.warehouses, warehouse) { return Refused(NotFound); }
    s.shipments := s.shipments[shipment := row.(status := Returned, current := Some(warehouse), version := row.version + 1)];
    return Done;
  }

  method CreateTransfer(s: Store, key: Id, warehouse: Id, shipment: Id, to: Id) returns (r: Reply)
    requires s.Valid()
    modifies s
    ensures s.Valid() && (s.Db(), r) == TransferSpec.CreateTransfer(old(s.Db()), key, warehouse, shipment, to)
  {
    hide Inv;
    Resolves(s.Db());
    KeepTransfers.CreateTransferKeeps(s.Db(), key, warehouse, shipment, to);
    if exists i :: 0 <= i < |s.transfers| && s.transfers[i].key == key {
      var same := exists i :: 0 <= i < |s.transfers| && s.transfers[i].key == key && s.transfers[i].shipment == shipment
                              && s.transfers[i].from == warehouse && s.transfers[i].to == to;
      return if same then Unchanged else Refused(KeyReused);
    }
    var open := OpenTransfer(s.transfers, shipment);
    if open.Some? {
      var t := s.transfers[open.value];
      return if t.from == warehouse && t.to == to then Unchanged else Refused(ActiveTransferExists);
    }
    if to == warehouse { return Refused(SameWarehouse); }
    if !WarehouseOpen(s.warehouses, warehouse) || !WarehouseOpen(s.warehouses, to) { return Refused(WarehouseInactive); }
    if shipment >= |s.shipments| { return Refused(NotFound); }
    var row := s.shipments[shipment];
    if row.current != Some(warehouse) { return Refused(ShipmentNotAtWarehouse); }
    if row.status !in {AtOrigin, AtDestination} { return Refused(TransitionInvalid); }
    if row.destination == None { return Refused(DestinationRequired); }
    if row.destination != Some(to) { return Refused(TransferDestinationMismatch); }
    s.transfers := s.transfers + [Transfer(key, shipment, warehouse, to, Waiting, None)];
    return Done;
  }

  /** Standalone dispatch, allowed only while the line-haul cutover permits it. */
  method DispatchTransfer(s: Store, warehouse: Id, transfer: Id, cutover: Option<int>, now: int) returns (r: Reply)
    requires s.Valid()
    modifies s
    ensures s.Valid() && (s.Db(), r) == TransferSpec.DispatchTransfer(old(s.Db()), warehouse, transfer, None, cutover, now)
  {
    hide Inv;
    Resolves(s.Db());
    KeepTransfers.DispatchTransferKeeps(s.Db(), warehouse, transfer, cutover, now);
    r := TripService.SendTransfer(s, warehouse, transfer, None, cutover, now);
  }

  method ReceiveTransfer(s: Store, warehouse: Id, transfer: Id, cutover: Option<int>, now: int) returns (r: Reply)
    requires s.Valid()
    modifies s
    ensures s.Valid() && (s.Db(), r) == TransferSpec.ReceiveTransfer(old(s.Db()), warehouse, transfer, cutover, now)
  {
    hide Inv;
    Resolves(s.Db());
    KeepTransfers.ReceiveTransferKeeps(s.Db(), warehouse, transfer, cutover, now);
    if transfer >= |s.transfers| { return Refused(NotFound); }
    var t := s.transfers[transfer];
    if t.to != warehouse { return Refused(TransferDestinationMismatch); }
    if t.status == Completed { return Unchanged; }
    if !s.warehouses[t.to].active { return Refused(NotFound); }
    if t.status != Moving { return Refused(TransferNotInTransit); }
    var owner := ActiveLink(s.links, transfer);
    if owner.Some? {
      var trip := s.trips[s.links[owner.value].trip];
      if trip.origin != t.from || trip.destination != t.to { return Refused(RouteMismatch); }
      if trip.status != Arrived { return Refused(TripNotArrived); }
    } else if Enforced(cutover, now) && !LegacyStandalone(cutover, t.dispatchedAt) {
      return Refused(LegacyReceiveNotEligible);
    }
    var parcel := s.shipments[t.shipment];
    if parcel.status != InTransit { return Refused(TransitionInvalid); }
    s.transfers := s.transfers[transfer := t.(status := Completed)];
    s.shipments := s.shipments[t.shipment := parcel.(status := AtDestination, current := Some(warehouse), version := parcel.version + 1)];
    return Done;
  }
}

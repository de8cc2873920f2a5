/** Commands that carry a key of their own recognise themselves for ever: once
    one has gone through, sending it again writes nothing, whatever has been
    committed in between. */
module KeyedReplays {
  import opened Rows
  import opened Ledgers
  import opened Tables
  import opened Invariants
  import opened Reachability
  import opened Histories
  import Transfers = TransferCommands
  import Trips = TripCommands
  import Parcels = ParcelCommands

  predicate Keyed(c: Command) {
    match c
    case Parcel(p) => p.CreateShipment? || p.AssignPickup? || p.AssignDelivery?
    case Network(n) => n.CreateTransfer? || n.CreateTrip?
    case _ => false
  }

  predicate ShipmentMade(shipments: seq<Shipment>, key: Id) {
    exists i :: 0 <= i < |shipments| && shipments[i].key == key
  }

  predicate TaskMade(assignments: seq<Assignment>, key: Id, shipment: Id, kind: Capability) {
    exists i :: 0 <= i < |assignments| && assignments[i].key == key && assignments[i].shipment == shipment && assignments[i].kind == kind
  }

  predicate TransferMade(transfers: seq<Transfer>, key: Id, shipment: Id, from: Id, to: Id) {
    exists i :: 0 <= i < |transfers| && transfers[i].key == key && transfers[i].shipment == shipment && transfers[i].from == from && transfers[i].to == to
  }

  predicate TripMade(trips: seq<Trip>, key: Id) {
    exists i :: 0 <= i < |trips| && trips[i].key == key
  }

  /** The row the command made, or one just like it, is there. */
  predicate Made(db: Db, c: Command)
    requires Keyed(c)
  {
    match c
    case Parcel(CreateShipment(key, _, _)) => ShipmentMade(db.shipments, key)
    case Parcel(AssignPickup(key, id, _, _, _)) => TaskMade(db.assignments, key, id, Pickup)
    case Parcel(AssignDelivery(key, id, _, _)) => TaskMade(db.assignments, key, id, Delivery)
    case Network(CreateTransfer(key, warehouse, id, to)) => TransferMade(db.transfers, key, id, warehouse, to)
    case Network(CreateTrip(trip)) => TripMade(db.trips, trip.key)
  }

  // ----- doing it makes it -----

  lemma ShipmentIsMade(db: Db, key: Id, terms: Terms, grams: int)
    requires Parcels.CreateShipment(db, key, terms, grams).1 == Done
    ensures ShipmentMade(Parcels.CreateShipment(db, key, terms, grams).0.shipments, key)
  {
    assert Parcels.CreateShipment(db, key, terms, grams).0.shipments[|db.shipments|].key == key;
  }

  lemma PickupIsMade(db: Db, key: Id, id: Id, driver: Id, located: bool, reassign: bool)
    requires References(db) && Parcels.AssignPickup(db, key, id, driver, located, reassign).1 == Done
    ensures TaskMade(Parcels.AssignPickup(db, key, id, driver, located, reassign).0.assignments, key, id, Pickup)
  {
    hide References;
    assert Parcels.AssignPickup(db, key, id, driver, located, reassign).0.assignments[|db.assignments|] == Assignment(key, id, driver, Pickup, Offered, false);
  }

  lemma DeliveryIsMade(db: Db, key: Id, id: Id, driver: Id, located: bool)
    requires References(db) && Parcels.AssignDelivery(db, key, id, driver, located).1 == Done
    ensures TaskMade(Parcels.AssignDelivery(db, key, id, driver, located).0.assignments, key, id, Delivery)
  {
    hide References;
    assert Parcels.AssignDelivery(db, key, id, driver, located).0.assignments[|db.assignments|] == Assignment(key, id, driver, Delivery, Offered, false);
  }

  lemma TransferIsMade(db: Db, key: Id, warehouse: Id, id: Id, to: Id)
    requires References(db) && Transfers.CreateTransfer(db, key, warehouse, id, to).1 == Done
    ensures TransferMade(Transfers.CreateTransfer(db, key, warehouse, id, to).0.transfers, key, id, warehouse, to)
  {
    hide References;
    assert Transfers.CreateTransfer(db, key, warehouse, id, to).0.transfers[|db.transfers|] == Transfer(key, id, warehouse, to, Waiting, None);
  }

  lemma TripIsMade(db: Db, c: Trips.NewTrip)
    requires References(db) && Trips.CreateTrip(db, c).1 == Done
    ensures TripMade(Trips.CreateTrip(db, c).0.trips, c.key)
  {
    hide References, Trips.NewTripError;
    assert Trips.CreateTrip(db, c).0.trips[|db.trips|].key == c.key;
  }

  lemma DoneIsMade(db: Db, c: Command)
    requires References(db) && Keyed(c) && Apply(db, c).1 == Done
    ensures Made(Apply(db, c).0, c)
  {
    hide References, Parcels.CreateShipment, Parcels.AssignPickup, Parcels.AssignDelivery, Transfers.CreateTransfer, Trips.CreateTrip,
         ShipmentMade, TaskMade, TransferMade, TripMade;
    match c
    case Parcel(CreateShipment(key, terms, grams)) => ShipmentIsMade(db, key, terms, grams);
    case Parcel(AssignPickup(key, id, driver, located, reassign)) => PickupIsMade(db, key, id, driver, located, reassign);
    case Parcel(AssignDelivery(key, id, driver, located)) => DeliveryIsMade(db, key, id, driver, located);
    case Network(CreateTransfer(key, warehouse, id, to)) => TransferIsMade(db, key, warehouse, id, to);
    case Network(CreateTrip(trip)) => TripIsMade(db, trip);
  }

  // ----- it stays made -----

  lemma MadeStays(db: Db, later: Db, c: Command)
    requires Later(db, later) && Keyed(c) && Made(db, c)
    ensures Made(later, c)
  {
    hide LedgerStep, ManifestStep, VehicleLater, DriverLater, AttemptLater;
    match c
    case Parcel(CreateShipment(key, _, _)) =>
      var i :| 0 <= i < |db.shipments| && db.shipments[i].key == key;
      assert ShipmentLater(db.shipments[i], later.shipments[i]);
    case Parcel(AssignPickup(key, id, _, _, _)) => TaskStays(db, later, key, id, Pickup);
    case Parcel(AssignDelivery(key, id, _, _)) => TaskStays(db, later, key, id, Delivery);
    case Network(CreateTransfer(key, warehouse, id, to)) =>
      var i :| 0 <= i < |db.transfers| && db.transfers[i].key == key && db.transfers[i].shipment == id
               && db.transfers[i].from == warehouse && db.transfers[i].to == to;
      assert TransferLater(db.transfers[i], later.transfers[i]);
    case Network(CreateTrip(trip)) =>
      var i :| 0 <= i < |db.trips| && db.trips[i].key == trip.key;
      assert TripLater(db.trips[i], later.trips[i]);
  }

  lemma TaskStays(db: Db, later: Db, key: Id, shipment: Id, kind: Capability)
    requires Later(db, later) && TaskMade(db.assignments, key, shipment, kind)
    ensures TaskMade(later.assignments, key, shipment, kind)
  {
    hide LedgerStep, ManifestStep, ShipmentLater, TransferLater, TripLater, VehicleLater, DriverLater, AttemptLater;
    var i :| 0 <= i < |db.assignments| && db.assignments[i].key == key && db.assignments[i].shipment == shipment && db.assignments[i].kind == kind;
    assert AssignmentLater(db.assignments[i], later.assignments[i]);
  }

  // ----- made once -----

  lemma MadeParcelIsKnown(db: Db, c: ParcelCommand)
    requires References(db) && Keyed(Parcel(c)) && Made(db, Parcel(c))
    ensures ApplyParcel(db, c) == (db, Unchanged)
  {
    hide References;
  }

  lemma MadeNetworkIsKnown(db: Db, c: NetworkCommand)
    requires References(db) && Keyed(Network(c)) && Made(db, Network(c))
    ensures ApplyNetwork(db, c).0 == db && ApplyNetwork(db, c).1 != Done
    ensures c.CreateTransfer? ==> ApplyNetwork(db, c).1 == Unchanged
  {
    hide References, Trips.NewTripError, Trips.SameTrip;
  }

  /** Whatever has been committed since, a keyed command that went through is
      recognised when it comes again, and writes nothing; only a trip changed in
      the meantime has its key refused instead. */
  lemma KeysAreForLife(db: Db, c: Command, later: Db)
    requires Reachable(db) && References(db) && Keyed(c) && Apply(db, c).1 == Done && LeadsTo(Apply(db, c).0, later)
    ensures References(later) && Apply(later, c).0 == later && Apply(later, c).1 != Done
    ensures !(c.Network? && c.network.CreateTrip?) ==> Apply(later, c).1 == Unchanged
  {
    hide Inv, References, Reachable, LeadsTo, Later, ApplyParcel, ApplyNetwork, Made;
    ReachableInv(db);
    StepKeeps(db, c);
    RunFollows(Apply(db, c).0, later);
    Resolves(later);
    DoneIsMade(db, c);
    MadeStays(Apply(db, c).0, later, c);
    match c
    case Parcel(p) => MadeParcelIsKnown(later, p);
    case Network(n) => MadeNetworkIsKnown(later, n);
  }
}

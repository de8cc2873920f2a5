/** What the manifest commands do, said of manifests rather than of link rows. */
module ManifestTheorems {
  import opened Rows
  import opened Policies
  import opened Tables
  import opened Invariants
  import opened TripCommands
  import opened TripRows
  import R = Reachability
  import KeepTrips
  import opened NetworkTheorems

  /** The manifests after a command, told transfer by transfer. */
  ghost predicate Manifests(links: seq<Link>, links': seq<Link>, changed: (Id, Id) -> bool, now: bool) {
    forall t: Id, x: Id :: OnManifest(links', t, x) <==> if changed(t, x) then now else OnManifest(links, t, x)
  }

  lemma AppendedManifest(links: seq<Link>, id: Id, transfer: Id)
    ensures Manifests(links, links + [Link(id, transfer, true)], (t, x) => t == id && x == transfer, true)
  {
    var links' := links + [Link(id, transfer, true)];
    assert links'[|links|] == Link(id, transfer, true);
    forall t: Id, x: Id | OnManifest(links, t, x) ensures OnManifest(links', t, x) {
      var i :| 0 <= i < |links| && links[i] == Link(t, x, true);
      assert links'[i] == links[i];
    }
  }

  /** Assigning puts exactly that transfer on exactly that manifest. */
  lemma AssignEffect(db: Db, id: Id, transfer: Id)
    requires References(db) && AssignTransfer(db, id, transfer).1 == Done
    ensures var db' := AssignTransfer(db, id, transfer).0;
            db' == db.(links := db'.links) && Manifests(db.links, db'.links, (t, x) => t == id && x == transfer, true)
  {
    AppendedManifest(db.links, id, transfer);
  }

  /** Removing takes exactly that transfer off exactly that manifest. */
  lemma RemoveEffect(db: Db, id: Id, transfer: Id)
    requires R.Reachable(db) && References(db) && RemoveTransfer(db, id, transfer).1 == Done
    ensures var db' := RemoveTransfer(db, id, transfer).0;
            db' == db.(links := db'.links) && Manifests(db.links, db'.links, (t, x) => t == id && x == transfer, false)
  {
    hide TripsOk, SchedulesDisjoint, CapacityOk, VehiclesOk, RoutesOk, TransfersOk, ShipmentsOk, DriversOk,
         TasksOk, AttemptsOk, LedgersOk, R.Reachable, References;
    R.ReachableInv(db);
    ClearedLink(db.links, LinkOf(db.links, id, transfer).value, id, transfer);
  }

  lemma ClearedLink(links: seq<Link>, k: Id, id: Id, transfer: Id)
    requires k < |links| && links[k] == Link(id, transfer, true)
    requires forall i, j :: 0 <= i < j < |links| && links[i].active && links[j].active ==> links[i].transfer != links[j].transfer
    ensures Manifests(links, links[k := links[k].(active := false)], (t, x) => t == id && x == transfer, false)
  {
    var links' := links[k := links[k].(active := false)];
    forall t: Id, x: Id | OnManifest(links, t, x) && !(t == id && x == transfer) ensures OnManifest(links', t, x) {
      var i :| 0 <= i < |links| && links[i] == Link(t, x, true);
      assert links'[i] == links[i];
    }
    forall i | 0 <= i < |links| ensures links'[i] != Link(id, transfer, true) {
    }
  }

  /** Cancelling empties the trip's manifest and no other. */
  lemma CancelEffect(db: Db, id: Id)
    requires References(db) && CancelTrip(db, id).1 == Done
    ensures var db' := CancelTrip(db, id).0;
            && db' == db.(links := db'.links, trips := db.trips[id := db'.trips[id]]) && db'.trips[id].status == Withdrawn
            && Manifests(db.links, db'.links, (t, x) => t == id, false)
  {
    var links' := CancelTrip(db, id).0.links;
    forall t: Id, x: Id | t != id && OnManifest(db.links, t, x) ensures OnManifest(links', t, x) {
      var i :| 0 <= i < |db.links| && db.links[i] == Link(t, x, true);
      assert links'[i] == db.links[i];
    }
  }

  /** Creating a trip gives it exactly the requested manifest. */
  lemma CreateEffect(db: Db, c: NewTrip)
    requires References(db) && CreateTrip(db, c).1 == Done
    ensures var db' := CreateTrip(db, c).0;
            && db' == db.(links := db'.links, trips := db'.trips) && |db'.trips| == |db.trips| + 1 && db'.trips[..|db.trips|] == db.trips
            && Manifests(db.links, db'.links, (t, x) => t == |db.trips| && x in c.transfers, true)
  {
    hide NewTripError, SameTrip;
    var id := |db.trips|;
    var links' := CreateTrip(db, c).0.links;
    forall t: Id, x: Id | OnManifest(db.links, t, x) ensures OnManifest(links', t, x) {
      var i :| 0 <= i < |db.links| && db.links[i] == Link(t, x, true);
      assert links'[i] == db.links[i];
    }
    forall x: Id | x in c.transfers ensures OnManifest(links', id, x) {
      var i :| 0 <= i < |c.transfers| && c.transfers[i] == x;
      assert links'[|db.links| + i] == Link(id, x, true);
    }
  }

  /** Two tables of links with the same manifests and weights. */
  ghost predicate SameManifests(links: seq<Link>, links': seq<Link>, loads: seq<int>) {
    && (forall t: Id, x: Id :: OnManifest(links', t, x) <==> OnManifest(links, t, x))
    && (forall t: Id :: ManifestGrams(links', loads, t) == ManifestGrams(links, loads, t))
  }

  lemma InactiveChangesNothing(links: seq<Link>, l: Link, loads: seq<int>)
    ensures SameManifests(links, links + [l.(active := false)], loads)
  {
    hide ManifestGrams, OnManifest;
    var links' := links + [l.(active := false)];
    forall t: Id, x: Id ensures OnManifest(links', t, x) <==> OnManifest(links, t, x) { InactiveLink(links, l, t, x); }
    forall t: Id ensures ManifestGrams(links', loads, t) == ManifestGrams(links, loads, t) {
      InactiveWeighsNothing(links, l, loads, t);
    }
  }

  /** Removing a transfer just assigned gives back every manifest as it was,
      with the weight it had. */
  lemma RemoveUndoesAssign(db: Db, id: Id, transfer: Id)
    requires References(db) && AssignTransfer(db, id, transfer).1 == Done
    ensures References(AssignTransfer(db, id, transfer).0)
    ensures var (db1, r) := RemoveTransfer(AssignTransfer(db, id, transfer).0, id, transfer);
            && r == Done && db1 == db.(links := db1.links)
            && SameManifests(db.links, db1.links, Loads(db.transfers, db.shipments))
  {
    hide ManifestGrams, CapacityError, OnManifest, SameManifests, References;
    var l := Link(id, transfer, true);
    var db0 := AssignTransfer(db, id, transfer).0;
    AssignKeepsReferences(db, id, transfer);
    assert db0.links == db.links + [l];
    LastLink(db.links, id, transfer);
    InactiveChangesNothing(db.links, l, Loads(db.transfers, db.shipments));
    assert (db.links + [l])[|db.links| := l.(active := false)] == db.links + [l.(active := false)];
  }

  lemma AssignKeepsReferences(db: Db, id: Id, transfer: Id)
    requires References(db)
    ensures References(AssignTransfer(db, id, transfer).0)
  {
    hide ManifestGrams, CapacityError;
  }

  lemma InactiveLink(links: seq<Link>, l: Link, t: Id, x: Id)
    ensures OnManifest(links + [l.(active := false)], t, x) <==> OnManifest(links, t, x)
  {
    if OnManifest(links, t, x) {
      var i :| 0 <= i < |links| && links[i] == Link(t, x, true);
      assert (links + [l.(active := false)])[i] == links[i];
    }
  }

  lemma InactiveWeighsNothing(links: seq<Link>, l: Link, loads: seq<int>, t: Id)
    ensures ManifestGrams(links + [l.(active := false)], loads, t) == ManifestGrams(links, loads, t)
  {
    assert (links + [l.(active := false)])[..|links|] == links;
  }

  /** A transfer with no active link is found at the link just appended. */
  lemma LastLink(links: seq<Link>, id: Id, transfer: Id)
    requires ActiveLink(links, transfer) == None
    ensures LinkOf(links + [Link(id, transfer, true)], id, transfer) == Some(|links|)
  {
    assert (links + [Link(id, transfer, true)])[..|links|] == links;
  }

  /** The exact answer of assigning a transfer to a PLANNED trip: the manifest
      being summed is always sound and the vehicle always has a capacity, so
      only the transfer itself can be refused. */
  lemma AssignExact(db: Db, id: Id, transfer: Id)
    requires R.Reachable(db) && id < |db.trips| && db.trips[id].status == Planned && transfer < |db.transfers|
    ensures References(db)
    ensures var (trip, t) := (db.trips[id], db.transfers[transfer]);
            var loads := Loads(db.transfers, db.shipments);
            var grams := ManifestGrams(db.links, loads, id);
            && grams.Ok?
            && AssignTransfer(db, id, transfer).1 ==
               if t.status != Waiting then Refused(TransferNotPending)
               else if t.from != trip.origin || t.to != trip.destination then Refused(RouteMismatch)
               else if OnManifest(db.links, id, transfer) then Unchanged
               else if exists u: Id :: u < |db.trips| && OnManifest(db.links, u, transfer) then Refused(TransferOwned)
               else if !SafeWeight(loads[transfer]) then Refused(ShipmentWeightInvalid)
               else if grams.value + loads[transfer] > db.vehicles[trip.vehicle].capacity then Refused(CapacityExceeded)
               else Done
  {
    hide TripsOk, SchedulesDisjoint, LinksOk, CapacityOk, VehiclesOk, RoutesOk, TransfersOk, ShipmentsOk,
         DriversOk, TasksOk, AttemptsOk, LedgersOk, R.Reachable, ManifestGrams;
    R.ReachableInv(db);
    NeverOverweight(db, id);
    OwnerIsOnly(db, transfer);
  }

  lemma OwnerIsOnly(db: Db, transfer: Id)
    requires References(db) && LinksOk(db.trips, db.links, db.transfers)
    ensures var owner := ActiveLink(db.links, transfer);
            && (owner.Some? ==> OnManifest(db.links, db.links[owner.value].trip, transfer) && db.links[owner.value].trip < |db.trips|)
            && (forall u: Id :: OnManifest(db.links, u, transfer) ==> owner.Some? && u == db.links[owner.value].trip)
  {
    var owner := ActiveLink(db.links, transfer);
    if owner.Some? { assert db.links[owner.value] == Link(db.links[owner.value].trip, transfer, true); }
    forall u: Id | OnManifest(db.links, u, transfer) ensures owner.Some? && u == db.links[owner.value].trip {
      var i :| 0 <= i < |db.links| && db.links[i] == Link(u, transfer, true);
      assert db.links[i].active;
    }
  }
}

/** Plain facts about the rows, in the words of the design rather than of any
    guard: what the answer theorems say a command depends on. */
module Facts {
  import opened Rows
  import opened Ledgers
  import opened Policies
  import opened Tables
  import opened Invariants
  import opened TripCommands

  // ----- warehouses, drivers, vehicles -----

  predicate Open(db: Db, w: Id) {
    w < |db.warehouses| && db.warehouses[w].active
  }

  /** A parcel task offered to the driver or accepted by him. */
  predicate OnTask(db: Db, d: Id) {
    exists a: Id :: a < |db.assignments| && db.assignments[a].driver == d && db.assignments[a].status in {Offered, Accepted}
  }

  /** A trip of the driver is READY or IN_TRANSIT. */
  predicate OnTheRoad(db: Db, d: Id) {
    exists t: Id :: t < |db.trips| && db.trips[t].driver == d && db.trips[t].status in {Ready, Underway}
  }

  predicate VehicleOnTheRoad(db: Db, v: Id) {
    exists t: Id :: t < |db.trips| && db.trips[t].vehicle == v && db.trips[t].status in {Ready, Underway}
  }

  // ----- time -----

  predicate During(w: Window, instant: int) {
    w.start <= instant < w.end
  }

  /** Two windows share an instant. */
  ghost predicate Meet(a: Window, b: Window) {
    exists instant: int :: During(a, instant) && During(b, instant)
  }

  /** Another trip not yet over reserves this driver at some time of the window. */
  ghost predicate DriverTaken(db: Db, d: Id, w: Window, except: Option<Id>) {
    exists t: Id :: t < |db.trips| && except != Some(t) && db.trips[t].driver == d && Reserves(db.trips[t], w)
  }

  ghost predicate VehicleTaken(db: Db, v: Id, w: Window, except: Option<Id>) {
    exists t: Id :: t < |db.trips| && except != Some(t) && db.trips[t].vehicle == v && Reserves(db.trips[t], w)
  }

  ghost predicate Reserves(t: Trip, w: Window) {
    t.status in {Planned, Ready, Underway} && t.schedule.Some? && Meet(t.schedule.value, w)
  }

  // ----- transfers -----

  predicate OnSomeManifest(db: Db, x: Id) {
    exists t: Id :: t < |db.trips| && OnManifest(db.links, t, x)
  }

  /** What a transfer weighs: as verified at check-in, or else as declared. */
  function Weighs(db: Db, x: Id): int
    requires x < |db.transfers| && db.transfers[x].shipment < |db.shipments|
  {
    var s := db.shipments[db.transfers[x].shipment];
    if s.verifiedGrams.Some? then s.verifiedGrams.value else s.declaredGrams
  }

  function Total(db: Db, ids: seq<Id>): int
    requires References(db) && Within(ids, |db.transfers|)
  {
    if |ids| == 0 then 0 else Weighs(db, ids[0]) + Total(db, ids[1..])
  }

  /** The shipment has a transfer that is not yet received. */
  predicate HasOpenTransfer(db: Db, s: Id) {
    exists x: Id :: x < |db.transfers| && db.transfers[x].shipment == s && db.transfers[x].status in {Waiting, Moving}
  }

  predicate CutOver(cutover: Option<int>, now: int) {
    cutover.Some? && cutover.value <= now
  }

  // ----- what happens to a driver -----

  predicate GoodStanding(d: Driver) {
    d.userActive && d.status != Suspended
  }

  /** Free again while online, offline otherwise; nothing else about him changes. */
  predicate Freed(d: Driver, d': Driver) {
    && d' == d.(status := d'.status, available := d'.available, version := d.version + 1)
    && (d.online ==> d'.status == Free && d'.available)
    && (!d.online ==> d'.status == Offline && !d'.available)
  }

  predicate OnlyDriverFreed(db: Db, db': Db, d: Id) {
    && d < |db.drivers| == |db'.drivers| && db'.drivers == db.drivers[d := db'.drivers[d]]
    && Freed(db.drivers[d], db'.drivers[d]) && !OnTask(db', d)
  }

  // ----- the guards in these words -----

  lemma MeetIsOverlap(a: Window, b: Window)
    requires ValidWindow(a) && ValidWindow(b)
    ensures Meet(a, b) <==> Overlap(a, b)
  {
    if Overlap(a, b) {
      var instant := if a.start < b.start then b.start else a.start;
      assert During(a, instant) && During(b, instant);
    }
  }

  lemma ReservesIsConflict(t: Trip, w: Window)
    requires TripOk(t) && ValidWindow(w)
    ensures Reserves(t, w) <==> ConflictsWith(t, w)
  {
    if t.schedule.Some? { MeetIsOverlap(t.schedule.value, w); }
  }

  lemma TakenIsBooked(db: Db, d: Id, v: Id, w: Window, except: Option<Id>)
    requires TripsOk(db.trips) && ValidWindow(w)
    ensures DriverTaken(db, d, w, except) <==> DriverBooked(db.trips, d, w, except)
    ensures VehicleTaken(db, v, w, except) <==> VehicleBooked(db.trips, v, w, except)
  {
    hide Reserves, ConflictsWith, TripOk;
    forall t: Id | t < |db.trips| ensures Reserves(db.trips[t], w) <==> ConflictsWith(db.trips[t], w) {
      ReservesIsConflict(db.trips[t], w);
    }
  }

  lemma TasksAndTrips(db: Db, d: Id, v: Id)
    ensures OnTask(db, d) <==> DriverAssigned(db.assignments, d)
    ensures OnTheRoad(db, d) <==> DriverExecuting(db.trips, d)
    ensures VehicleOnTheRoad(db, v) <==> VehicleExecuting(db.trips, v)
  {
  }

  lemma WeighsIsLoad(db: Db, x: Id)
    requires References(db) && x < |db.transfers|
    ensures Loads(db.transfers, db.shipments)[x] == Weighs(db, x)
  {
  }

  lemma {:induction false} TotalAppend(db: Db, ids: seq<Id>, x: Id)
    requires References(db) && Within(ids, |db.transfers|) && x < |db.transfers|
    ensures Total(db, ids + [x]) == Total(db, ids) + Weighs(db, x)
  {
    if |ids| > 0 {
      TotalAppend(db, ids[1..], x);
      assert (ids + [x])[1..] == ids[1..] + [x];
    }
  }

  lemma {:induction false} TotalIsGrams(db: Db, ids: seq<Id>)
    requires References(db) && Within(ids, |db.transfers|)
    ensures Total(db, ids) == Grams(Loads(db.transfers, db.shipments), ids)
  {
    if |ids| > 0 {
      var n := |ids| - 1;
      TotalIsGrams(db, ids[..n]);
      TotalAppend(db, ids[..n], ids[n]);
      WeighsIsLoad(db, ids[n]);
      assert ids == ids[..n] + [ids[n]];
    }
  }

  /** The sum taken over the links is the weight of what is on the manifest. */
  lemma {:induction false} ManifestTotal(db: Db, links: seq<Link>, trip: Id)
    requires References(db) && forall i :: 0 <= i < |links| ==> links[i].transfer < |db.transfers|
    ensures var grams := ManifestGrams(links, Loads(db.transfers, db.shipments), trip);
            Within(Manifest(links, trip), |db.transfers|) && (grams.Ok? ==> grams.value == Total(db, Manifest(links, trip)))
  {
    hide References;
    if |links| > 0 {
      var n := |links| - 1;
      ManifestTotal(db, links[..n], trip);
      if ManifestGrams(links, Loads(db.transfers, db.shipments), trip).Ok? && links[n].active && links[n].trip == trip {
        TotalAppend(db, Manifest(links[..n], trip), links[n].transfer);
        WeighsIsLoad(db, links[n].transfer);
      }
    }
  }
}

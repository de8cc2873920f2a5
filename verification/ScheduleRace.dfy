/** Bookings and vehicles under concurrency, and the lock order. Every line-haul
    transaction takes its row locks one by one in a fixed order (trips, driver,
    vehicle, transfers, each kind by ascending id), checks under them and then
    commits or aborts; any number of them run interleaved. */
module ScheduleRace {
  import opened Rows
  import opened Policies
  import opened Tables
  import opened Invariants
  import opened TripRows

  datatype Lock = TripLock(id: Id) | DriverLock(id: Id) | VehicleLock(id: Id) | TransferLock(id: Id)

  /** What a transaction is for. The lists are the further rows it locks: the
      transfers asked for, the trip's manifest, the vehicle's active trips. */
  datatype Job =
    | Create(row: Trip, transfers: seq<Id>)
    | Assign(trip: Id, transfer: Id)
    | Remove(trip: Id)
    | Schedule(trip: Id, window: Window)
    | Unschedule(trip: Id)
    | Prepare(trip: Id, manifest: seq<Id>)
    | Dispatch(trip: Id, manifest: seq<Id>)
    | Arrive(trip: Id)
    | Reroute(trip: Id)
    | Cancel(trip: Id)
    | UpdateCapacity(vehicle: Id, capacity: int, hints: seq<Id>)
    | SetStatus(vehicle: Id, status: VehicleStatus)
    | DriverTask(driver: Id)
    | HandleTransfer(transfer: Id)

  /** `taken` counts the locks it has; `ready` says its checks have passed. */
  datatype Actor = Idle | Working(job: Job, taken: nat, ready: bool)

  datatype Sys = Sys(trips: seq<Trip>, vehicles: seq<Vehicle>, held: map<Lock, nat>, actors: seq<Actor>)

  datatype Move = Begin(job: Job) | Take | Check | Commit | Abort

  // ----- locks -----

  function Kind(l: Lock): nat {
    match l case TripLock(_) => 0 case DriverLock(_) => 1 case VehicleLock(_) => 2 case TransferLock(_) => 3
  }

  predicate Before(k: Lock, l: Lock) {
    Kind(k) < Kind(l) || (Kind(k) == Kind(l) && k.id < l.id)
  }

  function TripLocks(ids: seq<Id>): (r: seq<Lock>)
    ensures |r| == |ids| && forall i :: 0 <= i < |ids| ==> r[i] == TripLock(ids[i])
  {
    seq(|ids|, i requires 0 <= i < |ids| => TripLock(ids[i]))
  }

  function TransferLocks(ids: seq<Id>): (r: seq<Lock>)
    ensures |r| == |ids| && forall i :: 0 <= i < |ids| ==> r[i] == TransferLock(ids[i])
  {
    seq(|ids|, i requires 0 <= i < |ids| => TransferLock(ids[i]))
  }

  predicate OnTrip(job: Job) {
    !job.Create? && !job.UpdateCapacity? && !job.SetStatus? && !job.DriverTask? && !job.HandleTransfer?
  }

  predicate WellFormed(s: Sys, job: Job) {
    && (OnTrip(job) ==> job.trip < |s.trips|)
    && match job
       case Create(row, transfers) => row.status == Planned && row.vehicle < |s.vehicles| && Ascending(transfers)
       case Prepare(_, manifest) => Ascending(manifest)
       case Dispatch(_, manifest) => Ascending(manifest)
       case UpdateCapacity(v, _, hints) => v < |s.vehicles| && Ascending(hints)
       case SetStatus(v, _) => v < |s.vehicles|
       case _ => true
  }

  /** The locks of a transaction, in the order it takes them. */
  function Locks(s: Sys, job: Job): seq<Lock>
    requires WellFormed(s, job)
  {
    match job
    case Create(row, transfers) => [DriverLock(row.driver), VehicleLock(row.vehicle)] + TransferLocks(transfers)
    case Assign(t, x) => [TripLock(t), TransferLock(x)]
    case Schedule(t, _) => [TripLock(t), DriverLock(s.trips[t].driver), VehicleLock(s.trips[t].vehicle)]
    case Prepare(t, manifest) => [TripLock(t), DriverLock(s.trips[t].driver), VehicleLock(s.trips[t].vehicle)] + TransferLocks(manifest)
    case Dispatch(t, manifest) => [TripLock(t), DriverLock(s.trips[t].driver), VehicleLock(s.trips[t].vehicle)] + TransferLocks(manifest)
    case Arrive(t) => [TripLock(t), VehicleLock(s.trips[t].vehicle)]
    case UpdateCapacity(v, _, hints) => TripLocks(hints) + [VehicleLock(v)]
    case SetStatus(v, _) => [VehicleLock(v)]
    case DriverTask(d) => [DriverLock(d)]
    case HandleTransfer(x) => [TransferLock(x)]
    case _ => [TripLock(job.trip)]
  }

  lemma LocksAscend(s: Sys, job: Job, i: nat, j: nat)
    requires WellFormed(s, job) && i < j < |Locks(s, job)|
    ensures Before(Locks(s, job)[i], Locks(s, job)[j])
  {
  }

  // ----- moves -----

  function Waits(s: Sys, a: nat): Option<Lock>
    requires a < |s.actors| && (s.actors[a].Working? ==> WellFormed(s, s.actors[a].job))
  {
    match s.actors[a]
    case Idle => None
    case Working(job, n, _) => if n < |Locks(s, job)| && Locks(s, job)[n] in s.held then Some(Locks(s, job)[n]) else None
  }

  /** What a transaction checks once it has all its locks. */
  predicate Guard(s: Sys, job: Job)
    requires WellFormed(s, job) && VehiclesExist(s)
  {
    match job
    case Create(row, _) =>
      && VehicleError(s.vehicles[row.vehicle]) == None
      && (row.schedule.Some? ==> BookingError(s.trips, row.driver, row.vehicle, row.schedule.value, None) == None)
    case Schedule(t, w) =>
      var row := s.trips[t];
      row.status == Planned && VehicleError(s.vehicles[row.vehicle]) == None && BookingError(s.trips, row.driver, row.vehicle, w, Some(t)) == None
    case Unschedule(t) => s.trips[t].status == Planned
    case Prepare(t, _) => s.trips[t].status == Planned && Executable(s, t)
    case Dispatch(t, _) => s.trips[t].status == Ready && Executable(s, t)
    case Arrive(t) => s.trips[t].status == Underway && s.vehicles[s.trips[t].vehicle].status == InUse
    case Reroute(t) => s.trips[t].status == Underway
    case Cancel(t) => s.trips[t].status in {Planned, Ready}
    case UpdateCapacity(v, _, _) => s.vehicles[v].status != InUse
    case SetStatus(v, to) => to != InUse && s.vehicles[v].status != InUse && !VehicleExecuting(s.trips, v)
    case _ => true
  }

  predicate VehiclesExist(s: Sys) {
    forall t :: 0 <= t < |s.trips| ==> s.trips[t].vehicle < |s.vehicles|
  }

  predicate Executable(s: Sys, t: Id)
    requires t < |s.trips| && VehiclesExist(s)
  {
    var row := s.trips[t];
    && row.schedule.Some? && VehicleError(s.vehicles[row.vehicle]) == None
    && BookingError(s.trips, row.driver, row.vehicle, row.schedule.value, Some(t)) == None
  }

  function WithTrip(s: Sys, t: Id, row: Trip): Sys
    requires t < |s.trips|
  {
    s.(trips := s.trips[t := row.(version := s.trips[t].version + 1)])
  }

  function WithVehicle(s: Sys, v: Id, row: Vehicle): Sys
    requires v < |s.vehicles|
  {
    s.(vehicles := s.vehicles[v := row.(version := s.vehicles[v].version + 1)])
  }

  /** What the transaction writes to trips and vehicles. */
  function Write(s: Sys, job: Job): Sys
    requires WellFormed(s, job) && VehiclesExist(s)
  {
    match job
    case Create(row, _) => s.(trips := s.trips + [row])
    case Schedule(t, w) => WithTrip(s, t, s.trips[t].(schedule := Some(w)))
    case Unschedule(t) => WithTrip(s, t, s.trips[t].(schedule := None))
    case Prepare(t, _) => WithTrip(s, t, s.trips[t].(status := Ready))
    case Dispatch(t, _) =>
      var v := s.trips[t].vehicle;
      WithVehicle(WithTrip(s, t, s.trips[t].(status := Underway)), v, s.vehicles[v].(status := InUse))
    case Arrive(t) =>
      var v := s.trips[t].vehicle;
      WithVehicle(WithTrip(s, t, s.trips[t].(status := Arrived)), v, s.vehicles[v].(status := Available))
    case Reroute(t) => WithTrip(s, t, s.trips[t])
    case Cancel(t) => WithTrip(s, t, s.trips[t].(status := Withdrawn))
    case UpdateCapacity(v, c, _) => WithVehicle(s, v, s.vehicles[v].(capacity := c))
    case SetStatus(v, to) => WithVehicle(s, v, s.vehicles[v].(status := to))
    case _ => s
  }

  predicate Enabled(s: Sys, a: nat, m: Move) {
    && a < |s.actors| && VehiclesExist(s) && (s.actors[a].Working? ==> WellFormed(s, s.actors[a].job))
    && var me := s.actors[a];
       match m
       case Begin(job) => me.Idle? && WellFormed(s, job)
       case Take => me.Working? && me.taken < |Locks(s, me.job)| && Locks(s, me.job)[me.taken] !in s.held
       case Check => me.Working? && me.taken == |Locks(s, me.job)| && !me.ready && Guard(s, me.job)
       case Commit => me.Working? && me.ready
       case Abort => true
  }

  function WithoutOwner(held: map<Lock, nat>, a: nat): map<Lock, nat> {
    map l | l in held && held[l] != a :: held[l]
  }

  /** The transaction ends and gives its locks back. */
  function End(s: Sys, a: nat): Sys
    requires a < |s.actors|
  {
    s.(held := WithoutOwner(s.held, a), actors := s.actors[a := Idle])
  }

  function Do(s: Sys, a: nat, m: Move): Sys
    requires Enabled(s, a, m)
  {
    var me := s.actors[a];
    match m
    case Begin(job) => s.(actors := s.actors[a := Working(job, 0, false)])
    case Take => s.(held := s.held[Locks(s, me.job)[me.taken] := a], actors := s.actors[a := me.(taken := me.taken + 1)])
    case Check => s.(actors := s.actors[a := me.(ready := true)])
    case Commit => End(Write(s, me.job), a)
    case Abort => End(s, a)
  }

  // ----- the invariant -----

  predicate RowsOk(s: Sys) {
    && VehiclesExist(s) && SchedulesDisjoint(s.trips) && VehiclesOk(s.trips, s.vehicles)
    && forall t :: 0 <= t < |s.trips| && ExecutingTrip(s.trips[t].status) ==> s.trips[t].schedule.Some?
  }

  /** A transaction has the locks it took, and what it checked is still true. */
  predicate ActorOk(s: Sys, a: nat)
    requires a < |s.actors| && VehiclesExist(s)
  {
    match s.actors[a]
    case Idle => true
    case Working(job, n, ready) =>
      && WellFormed(s, job) && n <= |Locks(s, job)|
      && (forall i :: 0 <= i < n ==> Locks(s, job)[i] in s.held && s.held[Locks(s, job)[i]] == a)
      && (ready ==> n == |Locks(s, job)| && Guard(s, job))
  }

  predicate Holds(s: Sys, a: nat, l: Lock) {
    && a < |s.actors| && s.actors[a].Working? && WellFormed(s, s.actors[a].job)
    && exists i :: 0 <= i < s.actors[a].taken && i < |Locks(s, s.actors[a].job)| && Locks(s, s.actors[a].job)[i] == l
  }

  predicate RaceInv(s: Sys) {
    && RowsOk(s) && (forall a :: 0 <= a < |s.actors| ==> ActorOk(s, a))
    && (forall l :: l in s.held ==> Holds(s, s.held[l], l))
  }

  // ----- what a commit leaves alone -----

  predicate Mine(s: Sys, a: nat, l: Lock) {
    l in s.held && s.held[l] == a
  }

  /** Existing rows change only under their locks, keep their leg and never
      become active again; a window appears only under the driver's and the
      vehicle's lock, a trip starts executing only under its vehicle's. */
  predicate OwnRowsOnly(s: Sys, r: Sys, a: nat) {
    && |s.trips| <= |r.trips| && |r.vehicles| == |s.vehicles| && r.held == s.held && r.actors == s.actors
    && (forall t: Id :: t < |s.trips| ==>
          && SameLeg(s.trips[t], r.trips[t]) && (r.trips[t] == s.trips[t] || Mine(s, a, TripLock(t)))
          && (ActiveTrip(r.trips[t].status) ==> ActiveTrip(s.trips[t].status))
          && (r.trips[t].schedule == s.trips[t].schedule || r.trips[t].schedule == None || Books(s, r.trips[t], a))
          && (ExecutingTrip(r.trips[t].status) && !ExecutingTrip(s.trips[t].status) ==> Mine(s, a, VehicleLock(r.trips[t].vehicle))))
    && (forall t: Id :: |s.trips| <= t < |r.trips| ==> r.trips[t].status == Planned && Books(s, r.trips[t], a))
    && (forall v: Id :: v < |s.vehicles| ==> r.vehicles[v] == s.vehicles[v] || Mine(s, a, VehicleLock(v)))
    && (forall t :: 0 <= t < |r.trips| && ExecutingTrip(r.trips[t].status) ==> r.trips[t].schedule.Some?)
  }

  predicate Books(s: Sys, row: Trip, a: nat) {
    Mine(s, a, DriverLock(row.driver)) && Mine(s, a, VehicleLock(row.vehicle))
  }

  lemma HasLock(s: Sys, a: nat, i: nat)
    requires a < |s.actors| && VehiclesExist(s) && ActorOk(s, a) && s.actors[a].Working? && s.actors[a].ready
    requires i < |Locks(s, s.actors[a].job)|
    ensures Mine(s, a, Locks(s, s.actors[a].job)[i])
  {
  }

  lemma NewRowIsOwn(s: Sys, a: nat, row: Trip)
    requires RowsOk(s) && row.status == Planned && Books(s, row, a)
    ensures OwnRowsOnly(s, s.(trips := s.trips + [row]), a)
  {
    hide SchedulesDisjoint, VehiclesOk;
  }

  lemma TripRowIsOwn(s: Sys, a: nat, t: Id, row: Trip)
    requires RowsOk(s) && t < |s.trips| && Mine(s, a, TripLock(t)) && SameLeg(s.trips[t], row)
    requires ActiveTrip(row.status) ==> ActiveTrip(s.trips[t].status)
    requires row.schedule == s.trips[t].schedule || row.schedule == None || Books(s, row, a)
    requires ExecutingTrip(row.status) ==> row.schedule.Some? && (ExecutingTrip(s.trips[t].status) || Mine(s, a, VehicleLock(row.vehicle)))
    ensures OwnRowsOnly(s, WithTrip(s, t, row), a)
  {
    hide SchedulesDisjoint, VehiclesOk;
  }

  lemma VehicleRowIsOwn(s: Sys, r: Sys, a: nat, v: Id, row: Vehicle)
    requires OwnRowsOnly(s, r, a) && v < |r.vehicles| && Mine(s, a, VehicleLock(v))
    ensures OwnRowsOnly(s, WithVehicle(r, v, row), a)
  {
  }

  lemma NothingWritten(s: Sys, a: nat)
    requires RowsOk(s)
    ensures OwnRowsOnly(s, s, a)
  {
    hide SchedulesDisjoint, VehiclesOk;
  }

  lemma WriteOwnRows(s: Sys, a: nat)
    requires RowsOk(s) && a < |s.actors| && ActorOk(s, a) && s.actors[a].Working? && s.actors[a].ready
    ensures WellFormed(s, s.actors[a].job) && OwnRowsOnly(s, Write(s, s.actors[a].job), a)
  {
    hide SchedulesDisjoint, VehiclesOk, BookingError, VehicleError, OwnRowsOnly, Mine;
    var job := s.actors[a].job;
    forall i: nat | i < |Locks(s, job)| ensures Mine(s, a, Locks(s, job)[i]) { HasLock(s, a, i); }
    match job
    case Create(row, _) =>
      assert Locks(s, job)[0] == DriverLock(row.driver) && Locks(s, job)[1] == VehicleLock(row.vehicle);
      NewRowIsOwn(s, a, row);
    case Schedule(t, w) =>
      OnTripLocks(s, job);
      TripRowIsOwn(s, a, t, s.trips[t].(schedule := Some(w)));
    case Unschedule(t) =>
      assert Locks(s, job)[0] == TripLock(t);
      TripRowIsOwn(s, a, t, s.trips[t].(schedule := None));
    case Prepare(t, _) =>
      OnTripLocks(s, job);
      TripRowIsOwn(s, a, t, s.trips[t].(status := Ready));
    case Dispatch(t, _) =>
      OnTripLocks(s, job);
      TripRowIsOwn(s, a, t, s.trips[t].(status := Underway));
      var v := s.trips[t].vehicle;
      VehicleRowIsOwn(s, WithTrip(s, t, s.trips[t].(status := Underway)), a, v, s.vehicles[v].(status := InUse));
    case Arrive(t) =>
      assert Locks(s, job)[0] == TripLock(t) && Locks(s, job)[1] == VehicleLock(s.trips[t].vehicle);
      TripRowIsOwn(s, a, t, s.trips[t].(status := Arrived));
      var v := s.trips[t].vehicle;
      VehicleRowIsOwn(s, WithTrip(s, t, s.trips[t].(status := Arrived)), a, v, s.vehicles[v].(status := Available));
    case Reroute(t) =>
      assert Locks(s, job)[0] == TripLock(t);
      TripRowIsOwn(s, a, t, s.trips[t]);
    case Cancel(t) =>
      assert Locks(s, job)[0] == TripLock(t);
      TripRowIsOwn(s, a, t, s.trips[t].(status := Withdrawn));
    case UpdateCapacity(v, c, hints) =>
      assert Locks(s, job)[|hints|] == VehicleLock(v);
      NothingWritten(s, a);
      VehicleRowIsOwn(s, s, a, v, s.vehicles[v].(capacity := c));
    case SetStatus(v, to) =>
      assert Locks(s, job)[0] == VehicleLock(v);
      NothingWritten(s, a);
      VehicleRowIsOwn(s, s, a, v, s.vehicles[v].(status := to));
    case Assign(_, _) | Remove(_) | DriverTask(_) | HandleTransfer(_) => NothingWritten(s, a);
  }

  lemma OnTripLocks(s: Sys, job: Job)
    requires WellFormed(s, job) && (job.Schedule? || job.Prepare? || job.Dispatch?)
    ensures var ls := Locks(s, job);
            |ls| >= 3 && ls[0] == TripLock(job.trip) && ls[1] == DriverLock(s.trips[job.trip].driver) && ls[2] == VehicleLock(s.trips[job.trip].vehicle)
  {
  }

  /** With its locks untouched, a transaction keeps its list of locks. */
  lemma LocksStay(s: Sys, r: Sys, job: Job)
    requires WellFormed(s, job) && |s.trips| <= |r.trips| && |r.vehicles| == |s.vehicles|
    requires forall t: Id :: t < |s.trips| ==> SameLeg(s.trips[t], r.trips[t])
    ensures WellFormed(r, job) && Locks(r, job) == Locks(s, job)
  {
  }

  /** A window that met no booking still meets none: nobody else could book its
      driver or its vehicle. */
  lemma StillUnbooked(s: Sys, r: Sys, a: nat, b: nat, driver: Id, vehicle: Id, w: Window, except: Option<Id>)
    requires OwnRowsOnly(s, r, a) && a != b && Mine(s, b, DriverLock(driver)) && Mine(s, b, VehicleLock(vehicle))
    requires BookingError(s.trips, driver, vehicle, w, except) == None && (except.Some? ==> except.value < |s.trips|)
    ensures BookingError(r.trips, driver, vehicle, w, except) == None
  {
    forall t: Id | t < |r.trips| && except != Some(t) && (r.trips[t].driver == driver || r.trips[t].vehicle == vehicle)
      ensures !ConflictsWith(r.trips[t], w)
    {
      assert !Books(s, r.trips[t], a);
      if t < |s.trips| {
        assert SameLeg(s.trips[t], r.trips[t]);
        assert !ConflictsWith(s.trips[t], w);
      }
    }
  }

  lemma StillNotExecuting(s: Sys, r: Sys, a: nat, b: nat, v: Id)
    requires OwnRowsOnly(s, r, a) && a != b && Mine(s, b, VehicleLock(v)) && !VehicleExecuting(s.trips, v)
    ensures !VehicleExecuting(r.trips, v)
  {
    forall t: Id | t < |r.trips| && r.trips[t].vehicle == v ensures !ExecutingTrip(r.trips[t].status) {
      if t < |s.trips| { assert SameLeg(s.trips[t], r.trips[t]); }
    }
  }

  lemma StillGuarded(s: Sys, r: Sys, a: nat, b: nat)
    requires VehiclesExist(s) && VehiclesExist(r) && OwnRowsOnly(s, r, a) && a != b && b < |s.actors|
    requires ActorOk(s, b) && s.actors[b].Working? && s.actors[b].ready && WellFormed(r, s.actors[b].job)
    ensures Guard(r, s.actors[b].job)
  {
    hide BookingError, VehicleError, VehicleExecuting;
    var job := s.actors[b].job;
    forall i: nat | i < |Locks(s, job)| ensures Mine(s, b, Locks(s, job)[i]) { HasLock(s, b, i); }
    match job
    case Create(row, _) =>
      assert Locks(s, job)[0] == DriverLock(row.driver) && Locks(s, job)[1] == VehicleLock(row.vehicle);
      if row.schedule.Some? { StillUnbooked(s, r, a, b, row.driver, row.vehicle, row.schedule.value, None); }
    case Schedule(t, w) =>
      OnTripLocks(s, job);
      StillUnbooked(s, r, a, b, s.trips[t].driver, s.trips[t].vehicle, w, Some(t));
    case Prepare(t, _) =>
      OnTripLocks(s, job);
      StillUnbooked(s, r, a, b, s.trips[t].driver, s.trips[t].vehicle, s.trips[t].schedule.value, Some(t));
    case Dispatch(t, _) =>
      OnTripLocks(s, job);
      StillUnbooked(s, r, a, b, s.trips[t].driver, s.trips[t].vehicle, s.trips[t].schedule.value, Some(t));
    case Arrive(t) => assert Locks(s, job)[0] == TripLock(t) && Locks(s, job)[1] == VehicleLock(s.trips[t].vehicle);
    case UpdateCapacity(v, _, hints) => assert Locks(s, job)[|hints|] == VehicleLock(v);
    case SetStatus(v, _) =>
      assert Locks(s, job)[0] == VehicleLock(v);
      StillNotExecuting(s, r, a, b, v);
    case Assign(_, _) | Remove(_) | DriverTask(_) | HandleTransfer(_) => {}
    case _ => assert Locks(s, job)[0] == TripLock(job.trip);
  }

  // ----- commits keep the rows in order -----

  lemma NewRowKeeps(s: Sys, row: Trip)
    requires RowsOk(s) && row.status == Planned && row.vehicle < |s.vehicles|
    requires row.schedule.Some? ==> BookingError(s.trips, row.driver, row.vehicle, row.schedule.value, None) == None
    ensures RowsOk(s.(trips := s.trips + [row]))
  {
    var trips := s.trips + [row];
    if row.schedule.Some? { UnbookedWindowIsApart(s.trips, None, row); }
    forall i, j | 0 <= i < j < |trips| ensures Apart(trips[i], trips[j]) {
      if j < |s.trips| {
        assert Apart(s.trips[i], s.trips[j]);
      } else if row.schedule.Some? {
        assert Apart(row, s.trips[i]);
      }
    }
    forall v | 0 <= v < |s.vehicles| && s.vehicles[v].status == InUse
      ensures exists t :: 0 <= t < |trips| && trips[t].vehicle == v && trips[t].status == Underway
    {
      var t :| 0 <= t < |s.trips| && s.trips[t].vehicle == v && s.trips[t].status == Underway;
      assert trips[t] == s.trips[t];
    }
  }

  lemma ScheduleRowKeeps(s: Sys, t: Id, w: Window)
    requires RowsOk(s) && t < |s.trips| && s.trips[t].status == Planned
    requires BookingError(s.trips, s.trips[t].driver, s.trips[t].vehicle, w, Some(t)) == None
    ensures RowsOk(WithTrip(s, t, s.trips[t].(schedule := Some(w))))
  {
    hide SchedulesDisjoint, VehiclesOk, BookingError;
    var u := s.trips[t].(schedule := Some(w), version := s.trips[t].version + 1);
    UnbookedWindowIsApart(s.trips, Some(t), u);
    TripRowKeepsSchedules(s.trips, t, u);
    TripRowKeepsVehicles(s.trips, s.vehicles, t, u);
  }

  /** A trip row that keeps or drops its window, moves no vehicle and only then
      starts executing when it has one. */
  lemma QuietRowKeeps(s: Sys, t: Id, row: Trip)
    requires RowsOk(s) && t < |s.trips| && SameLeg(s.trips[t], row)
    requires row.schedule == s.trips[t].schedule || row.schedule == None
    requires ActiveTrip(row.status) ==> ActiveTrip(s.trips[t].status)
    requires row.status == Underway <==> s.trips[t].status == Underway
    requires row.status == Ready ==> s.vehicles[row.vehicle].status in {Available, InUse}
    requires ExecutingTrip(row.status) ==> row.schedule.Some?
    ensures RowsOk(WithTrip(s, t, row))
  {
    hide SchedulesDisjoint, VehiclesOk;
    var u := row.(version := s.trips[t].version + 1);
    SameWindowStaysApart(s.trips, t, u);
    TripRowKeepsSchedules(s.trips, t, u);
    TripRowKeepsVehicles(s.trips, s.vehicles, t, u);
  }

  lemma DepartureKeeps(s: Sys, t: Id)
    requires RowsOk(s) && t < |s.trips| && s.trips[t].status == Ready && s.vehicles[s.trips[t].vehicle].status == Available
    ensures RowsOk(Write(s, Dispatch(t, [])))
  {
    var v := s.trips[t].vehicle;
    var u := s.trips[t].(status := Underway, version := s.trips[t].version + 1);
    var r := Write(s, Dispatch(t, []));
    SameWindowStaysApart(s.trips, t, u);
    TripRowKeepsSchedules(s.trips, t, u);
    assert r.trips[t].vehicle == v && r.trips[t].status == Underway;
    forall k | 0 <= k < |r.vehicles| && r.vehicles[k].status == InUse && k != v
      ensures exists i :: 0 <= i < |r.trips| && r.trips[i].vehicle == k && r.trips[i].status == Underway
    {
      var i :| 0 <= i < |s.trips| && s.trips[i].vehicle == k && s.trips[i].status == Underway;
      assert r.trips[i] == s.trips[i];
    }
  }

  lemma ArrivalKeeps(s: Sys, t: Id)
    requires RowsOk(s) && t < |s.trips| && s.trips[t].status == Underway
    ensures RowsOk(Write(s, Arrive(t)))
  {
    var v := s.trips[t].vehicle;
    var u := s.trips[t].(status := Arrived, version := s.trips[t].version + 1);
    var r := Write(s, Arrive(t));
    SameWindowStaysApart(s.trips, t, u);
    TripRowKeepsSchedules(s.trips, t, u);
    forall k | 0 <= k < |r.vehicles| && r.vehicles[k].status == InUse
      ensures exists i :: 0 <= i < |r.trips| && r.trips[i].vehicle == k && r.trips[i].status == Underway
    {
      var i :| 0 <= i < |s.trips| && s.trips[i].vehicle == k && s.trips[i].status == Underway;
      assert r.trips[i] == s.trips[i];
    }
  }

  lemma VehicleRowKeeps(s: Sys, v: Id, row: Vehicle)
    requires RowsOk(s) && v < |s.vehicles| && s.vehicles[v].status != InUse && row.status != InUse
    requires row.status == s.vehicles[v].status || !VehicleExecuting(s.trips, v)
    ensures RowsOk(WithVehicle(s, v, row))
  {
    var r := WithVehicle(s, v, row);
    forall k | 0 <= k < |r.vehicles| && r.vehicles[k].status == InUse
      ensures exists i :: 0 <= i < |r.trips| && r.trips[i].vehicle == k && r.trips[i].status == Underway
    {
      var i :| 0 <= i < |s.trips| && s.trips[i].vehicle == k && s.trips[i].status == Underway;
      assert r.trips[i] == s.trips[i];
    }
  }

  lemma WriteKeepsRows(s: Sys, job: Job)
    requires RowsOk(s) && WellFormed(s, job) && Guard(s, job)
    ensures RowsOk(Write(s, job))
  {
    hide SchedulesDisjoint, VehiclesOk, BookingError, VehicleExecuting;
    match job
    case Create(row, _) => NewRowKeeps(s, row);
    case Schedule(t, w) => ScheduleRowKeeps(s, t, w);
    case Unschedule(t) => QuietRowKeeps(s, t, s.trips[t].(schedule := None));
    case Prepare(t, _) => QuietRowKeeps(s, t, s.trips[t].(status := Ready));
    case Dispatch(t, _) => DepartureKeeps(s, t);
    case Arrive(t) => ArrivalKeeps(s, t);
    case Reroute(t) => QuietRowKeeps(s, t, s.trips[t]);
    case Cancel(t) => QuietRowKeeps(s, t, s.trips[t].(status := Withdrawn));
    case UpdateCapacity(v, c, _) => VehicleRowKeeps(s, v, s.vehicles[v].(capacity := c));
    case SetStatus(v, to) => VehicleRowKeeps(s, v, s.vehicles[v].(status := to));
    case Assign(_, _) | Remove(_) | DriverTask(_) | HandleTransfer(_) => {}
  }

  // ----- every move -----

  /** A transaction ends: the others keep their locks and what they checked. */
  lemma EndKeeps(s: Sys, r: Sys, a: nat)
    requires RaceInv(s) && a < |s.actors| && RowsOk(r) && OwnRowsOnly(s, r, a)
    ensures RaceInv(End(r, a))
  {
    var q := End(r, a);
    forall b | 0 <= b < |q.actors| ensures ActorOk(q, b) {
      if b != a && s.actors[b].Working? { OtherStaysOk(s, r, a, b); }
    }
    forall l | l in q.held ensures Holds(q, q.held[l], l) {
      assert Holds(s, s.held[l], l);
      LocksStay(s, q, s.actors[s.held[l]].job);
    }
  }

  lemma OtherStaysOk(s: Sys, r: Sys, a: nat, b: nat)
    requires RaceInv(s) && a < |s.actors| && b < |s.actors| && a != b && RowsOk(r) && OwnRowsOnly(s, r, a) && s.actors[b].Working?
    ensures ActorOk(End(r, a), b)
  {
    hide RowsOk, Guard, Holds;
    assert ActorOk(s, b) && VehiclesExist(s) && VehiclesExist(r) by { RowsHaveVehicles(s, r); }
    LocksStay(s, r, s.actors[b].job);
    LocksStay(s, End(r, a), s.actors[b].job);
    if s.actors[b].ready {
      StillGuarded(s, r, a, b);
      SameGuard(r, End(r, a), s.actors[b].job);
    }
  }

  lemma RowsHaveVehicles(s: Sys, r: Sys)
    requires RowsOk(s) && RowsOk(r)
    ensures VehiclesExist(s) && VehiclesExist(r)
  {
  }

  lemma SameGuard(s: Sys, r: Sys, job: Job)
    requires r.trips == s.trips && r.vehicles == s.vehicles && VehiclesExist(s) && WellFormed(s, job) && Guard(s, job)
    ensures VehiclesExist(r) && WellFormed(r, job) && Guard(r, job)
  {
    hide BookingError, VehicleError, VehicleExecuting;
  }

  lemma BeginKeeps(s: Sys, a: nat, job: Job)
    requires RaceInv(s) && Enabled(s, a, Begin(job))
    ensures RaceInv(Do(s, a, Begin(job)))
  {
    hide SchedulesDisjoint, VehiclesOk, BookingError, VehicleError;
    var r := Do(s, a, Begin(job));
    forall b | 0 <= b < |r.actors| ensures ActorOk(r, b) {
      assert ActorOk(s, b);
      if b != a && s.actors[b].Working? { LocksStay(s, r, s.actors[b].job); if s.actors[b].ready { SameGuard(s, r, s.actors[b].job); } }
    }
    forall l | l in r.held ensures Holds(r, r.held[l], l) {
      assert Holds(s, s.held[l], l);
      LocksStay(s, r, s.actors[s.held[l]].job);
    }
  }

  /** Other transactions neither lose a lock nor gain one when `a` takes a free
      one. */
  lemma TakeOthers(s: Sys, a: nat, b: nat)
    requires RaceInv(s) && Enabled(s, a, Take) && b < |s.actors| && b != a
    ensures ActorOk(Do(s, a, Take), b)
  {
    hide SchedulesDisjoint, VehiclesOk, Guard, Holds, Locks;
    var r := Do(s, a, Take);
    assert ActorOk(s, b);
    if s.actors[b].Working? {
      LocksStay(s, r, s.actors[b].job);
      if s.actors[b].ready { SameGuard(s, r, s.actors[b].job); }
    }
  }

  lemma TakeOwn(s: Sys, a: nat)
    requires RaceInv(s) && Enabled(s, a, Take)
    ensures ActorOk(Do(s, a, Take), a)
  {
    hide SchedulesDisjoint, VehiclesOk, Guard, Holds, Locks;
    assert ActorOk(s, a);
    LocksStay(s, Do(s, a, Take), s.actors[a].job);
  }

  lemma TakeHolds(s: Sys, a: nat, l: Lock)
    requires RaceInv(s) && Enabled(s, a, Take) && l in Do(s, a, Take).held
    ensures Holds(Do(s, a, Take), Do(s, a, Take).held[l], l)
  {
    hide RowsOk, Guard, Locks;
    var r := Do(s, a, Take);
    var me := s.actors[a];
    LocksStay(s, r, me.job);
    if l == Locks(s, me.job)[me.taken] {
      assert Locks(r, me.job)[me.taken] == l;
    } else {
      assert Holds(s, s.held[l], l);
      LocksStay(s, r, s.actors[s.held[l]].job);
    }
  }

  lemma TakeKeeps(s: Sys, a: nat)
    requires RaceInv(s) && Enabled(s, a, Take)
    ensures RaceInv(Do(s, a, Take))
  {
    var r := Do(s, a, Take);
    assert RowsOk(r);
    hide RowsOk, ActorOk, Holds, Guard, Locks;
    forall b | 0 <= b < |r.actors| ensures ActorOk(r, b) {
      if b == a { TakeOwn(s, a); } else { TakeOthers(s, a, b); }
    }
    forall l | l in r.held ensures Holds(r, r.held[l], l) { TakeHolds(s, a, l); }
  }

  lemma CheckKeeps(s: Sys, a: nat)
    requires RaceInv(s) && Enabled(s, a, Check)
    ensures RaceInv(Do(s, a, Check))
  {
    hide SchedulesDisjoint, VehiclesOk, BookingError, VehicleError, Guard;
    var r := Do(s, a, Check);
    forall b | 0 <= b < |r.actors| ensures ActorOk(r, b) {
      assert ActorOk(s, b);
      if s.actors[b].Working? { LocksStay(s, r, s.actors[b].job); if r.actors[b].ready { SameGuard(s, r, s.actors[b].job); } }
    }
    forall l | l in r.held ensures Holds(r, r.held[l], l) {
      assert Holds(s, s.held[l], l);
      LocksStay(s, r, s.actors[s.held[l]].job);
    }
  }

  lemma CommitKeeps(s: Sys, a: nat)
    requires RaceInv(s) && Enabled(s, a, Commit)
    ensures RaceInv(Do(s, a, Commit))
  {
    assert ActorOk(s, a);
    hide RowsOk, Guard, OwnRowsOnly, End, Write;
    WriteOwnRows(s, a);
    WriteKeepsRows(s, s.actors[a].job);
    EndKeeps(s, Write(s, s.actors[a].job), a);
  }

  lemma MoveKeeps(s: Sys, a: nat, m: Move)
    requires RaceInv(s) && Enabled(s, a, m)
    ensures RaceInv(Do(s, a, m))
  {
    hide RowsOk, Guard, OwnRowsOnly, End, Write, ActorOk, Holds;
    match m
    case Begin(job) => BeginKeeps(s, a, job);
    case Take => TakeKeeps(s, a);
    case Check => CheckKeeps(s, a);
    case Commit => CommitKeeps(s, a);
    case Abort => NothingWritten(s, a); EndKeeps(s, s, a);
  }

  // ----- runs -----

  /** An interleaving: at each step some transaction makes an enabled move. */
  ghost predicate Execution(states: seq<Sys>, steps: seq<(nat, Move)>) {
    && |states| == |steps| + 1
    && forall i {:trigger steps[i]} :: 0 <= i < |steps| ==>
         Enabled(states[i], steps[i].0, steps[i].1) && states[i + 1] == Do(states[i], steps[i].0, steps[i].1)
  }

  lemma {:induction false} ExecutionKeeps(states: seq<Sys>, steps: seq<(nat, Move)>, n: nat)
    requires Execution(states, steps) && RaceInv(states[0]) && n <= |steps|
    ensures RaceInv(states[n])
  {
    hide RaceInv, Enabled, Do;
    if n > 0 {
      ExecutionKeeps(states, steps, n - 1);
      MoveKeeps(states[n - 1], steps[n - 1].0, steps[n - 1].1);
    }
  }

  /** Nothing running, no lock held, no trip yet. */
  predicate Fresh(s: Sys) {
    && s.trips == [] && s.held == map[] && (forall v :: 0 <= v < |s.vehicles| ==> s.vehicles[v].status != InUse)
    && forall a :: 0 <= a < |s.actors| ==> s.actors[a] == Idle
  }

  ghost predicate Reachable(s: Sys) {
    exists states: seq<Sys>, steps: seq<(nat, Move)> :: Execution(states, steps) && Fresh(states[0]) && states[|steps|] == s
  }

  lemma ReachableInv(s: Sys)
    requires Reachable(s)
    ensures RaceInv(s)
  {
    hide Enabled, Do;
    var states: seq<Sys>, steps: seq<(nat, Move)> :| Execution(states, steps) && Fresh(states[0]) && states[|steps|] == s;
    ExecutionKeeps(states, steps, |steps|);
  }

  /** Whatever the interleaving: active trips that share a driver or a vehicle
      have disjoint windows, a READY or IN_TRANSIT trip has one, and a vehicle is
      IN_USE exactly while exactly one trip of it is IN_TRANSIT. */
  lemma BookingsHold(s: Sys)
    requires Reachable(s)
    ensures forall t, u :: 0 <= t < u < |s.trips| && (s.trips[t].driver == s.trips[u].driver || s.trips[t].vehicle == s.trips[u].vehicle)
                           && ActiveTrip(s.trips[t].status) && ActiveTrip(s.trips[u].status) && s.trips[t].schedule.Some? && s.trips[u].schedule.Some?
                           ==> !Overlap(s.trips[t].schedule.value, s.trips[u].schedule.value)
    ensures forall t :: 0 <= t < |s.trips| && ExecutingTrip(s.trips[t].status) ==> s.trips[t].schedule.Some?
    ensures forall v :: 0 <= v < |s.vehicles| ==>
              (s.vehicles[v].status == InUse <==> exists t :: 0 <= t < |s.trips| && s.trips[t].vehicle == v && s.trips[t].status == Underway)
    ensures forall t, u :: 0 <= t < u < |s.trips| && s.trips[t].status == s.trips[u].status == Underway ==> s.trips[t].vehicle != s.trips[u].vehicle
  {
    hide Reachable, ActorOk, Holds, Overlap;
    ReachableInv(s);
    forall t, u | 0 <= t < u < |s.trips| ensures Apart(s.trips[t], s.trips[u]) {
    }
  }

  // ----- no deadlock -----

  /** The locks in the order after `l` that somebody holds. */
  function HeldAfter(s: Sys, l: Lock): set<Lock> {
    set k | k in s.held && Before(l, k)
  }

  predicate InProgress(s: Sys, a: nat) {
    a < |s.actors| && s.actors[a].Working?
  }

  /** Following who waits for whom ends, at a transaction that waits for no one:
      each holder waits, if at all, for a lock further along the order. */
  lemma {:induction false} SomebodyFurther(s: Sys, a: nat, l: Lock) returns (b: nat)
    requires RaceInv(s) && a < |s.actors| && s.actors[a].Working? && WellFormed(s, s.actors[a].job) && Waits(s, a) == Some(l)
    ensures InProgress(s, b) && WellFormed(s, s.actors[b].job) && Waits(s, b) == None
    decreases HeldAfter(s, l)
  {
    hide RowsOk, Guard, Locks;
    b := s.held[l];
    RowsHaveVehicles(s, s);
    assert Holds(s, b, l) && ActorOk(s, b);
    if Waits(s, b).Some? {
      var next := Waits(s, b).value;
      FurtherAlong(s, b, l);
      assert next in HeldAfter(s, l) && next !in HeldAfter(s, next);
      b := SomebodyFurther(s, b, next);
    }
  }

  lemma FurtherAlong(s: Sys, b: nat, l: Lock)
    requires Holds(s, b, l) && Waits(s, b).Some?
    ensures Before(l, Waits(s, b).value)
  {
    hide Locks;
    var job := s.actors[b].job;
    var i :| 0 <= i < s.actors[b].taken && i < |Locks(s, job)| && Locks(s, job)[i] == l;
    LocksAscend(s, job, i, s.actors[b].taken);
  }

  /** Line-haul transactions never deadlock: while any of them is under way, one
      of them waits for nobody, and can take its next lock, run its checks or
      commit. */
  lemma NoDeadlock(s: Sys, a: nat) returns (b: nat)
    requires Reachable(s) && InProgress(s, a)
    ensures InProgress(s, b) && VehiclesExist(s) && WellFormed(s, s.actors[b].job) && Waits(s, b) == None
    ensures Enabled(s, b, Take) || Enabled(s, b, Commit)
            || (s.actors[b].taken == |Locks(s, s.actors[b].job)| && (Enabled(s, b, Check) <==> Guard(s, s.actors[b].job)))
  {
    hide Reachable, Guard, Locks, RowsOk;
    ReachableInv(s);
    RowsHaveVehicles(s, s);
    assert ActorOk(s, a);
    b := a;
    if Waits(s, a).Some? { b := SomebodyFurther(s, a, Waits(s, a).value); }
    assert ActorOk(s, b);
  }
}

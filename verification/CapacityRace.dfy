/** Vehicle capacity under concurrency: any number of transactions that create
    trips, assign and remove transfers, prepare, move and cancel trips, touch
    vehicles and change capacities, interleaved at the granularity of their
    row locks, reads and commits. */
module CapacityRace {
  import opened Rows
  import opened Policies

  datatype VehicleRow = VehicleRow(capacity: int, version: nat, owner: Option<nat>)

  /** A trip with the transfers on its manifest; `owner` holds its row lock. */
  datatype TripRow = TripRow(vehicle: Id, status: TripStatus, load: seq<Id>, prepared: Option<int>, owner: Option<nat>)

  /** How far a transaction has come, and what it remembers. */
  datatype Actor =
    | Idle
    | AssignTrip(trip: Id, transfer: Id)
    | AssignBoth(trip: Id, transfer: Id)
    | AssignReady(trip: Id, transfer: Id)
    | CreateLocking(vehicle: Id, want: seq<Id>, locked: nat)
    | CreateReady(vehicle: Id, want: seq<Id>)
    | UpdateLocking(vehicle: Id, capacity: int, hints: seq<Id>, locked: nat)
    | UpdateLocked(vehicle: Id, capacity: int, hints: seq<Id>)
    | UpdateReady(vehicle: Id, capacity: int, hints: seq<Id>, version: nat)
    | HoldTrip(trip: Id)
    | HoldVehicle(vehicle: Id)

  /** `grams` is what each transfer weighs: written at check-in, before the
      transfer exists, and never after. */
  datatype Sys = Sys(vehicles: seq<VehicleRow>, trips: seq<TripRow>, grams: seq<nat>, transferOwner: seq<Option<nat>>, actors: seq<Actor>)

  function Weight(grams: seq<nat>, load: seq<Id>): nat {
    if |load| == 0 then 0
    else Weight(grams, load[..|load| - 1]) + if load[|load| - 1] < |grams| then grams[load[|load| - 1]] else 0
  }

  predicate Owned(trips: seq<TripRow>, x: Id) {
    exists t :: 0 <= t < |trips| && x in trips[t].load
  }

  function ActiveOf(trips: seq<TripRow>, vehicle: Id): (r: seq<Id>)
    ensures forall t: Id :: t in r <==> t < |trips| && trips[t].vehicle == vehicle && ActiveTrip(trips[t].status)
  {
    if |trips| == 0 then []
    else
      var last := trips[|trips| - 1];
      ActiveOf(trips[..|trips| - 1], vehicle) + if last.vehicle == vehicle && ActiveTrip(last.status) then [|trips| - 1] else []
  }

  // ----- moves -----

  datatype Move =
    | BeginAssign(trip: Id, transfer: Id)
    | LockTransfer
    | CheckAssign
    | CommitAssign
    | BeginCreate(vehicle: Id, want: seq<Id>)
    | LockWanted
    | CheckCreate
    | CommitCreate
    | BeginUpdate(vehicle: Id, capacity: int)
    | LockHint
    | LockForUpdate
    | CheckUpdate
    | CommitUpdate
    | BeginTrip(trip: Id)
    | CommitRemove(index: nat)
    | CommitStatus(status: TripStatus)
    | BeginVehicle(vehicle: Id)
    | CommitVehicle
    | Abort

  predicate TripCanBecome(a: TripStatus, b: TripStatus) {
    match a
    case Planned => b in {Ready, Withdrawn}
    case Ready => b in {Underway, Withdrawn}
    case Underway => b == Arrived
    case _ => false
  }

  predicate NoRepeats(ids: seq<Id>) {
    forall i, j :: 0 <= i < j < |ids| ==> ids[i] != ids[j]
  }

  /** A lock request waits until the row is free; a check that fails aborts. */
  predicate Enabled(s: Sys, a: nat, m: Move) {
    a < |s.actors| &&
    var me := s.actors[a];
    match m
    case BeginAssign(t, x) => me.Idle? && t < |s.trips| && x < |s.grams| == |s.transferOwner| && s.trips[t].owner == None
    case LockTransfer => me.AssignTrip? && me.transfer < |s.transferOwner| && s.transferOwner[me.transfer] == None
    case CheckAssign =>
      && me.AssignBoth? && me.trip < |s.trips| && s.trips[me.trip].vehicle < |s.vehicles| && me.transfer < |s.grams|
      && s.trips[me.trip].status == Planned && !Owned(s.trips, me.transfer)
      && Weight(s.grams, s.trips[me.trip].load) + s.grams[me.transfer] <= s.vehicles[s.trips[me.trip].vehicle].capacity
    case CommitAssign => me.AssignReady? && me.trip < |s.trips|
    case BeginCreate(v, want) =>
      && me.Idle? && v < |s.vehicles| && s.vehicles[v].owner == None
      && Ascending(want) && forall i :: 0 <= i < |want| ==> want[i] < |s.grams| == |s.transferOwner|
    case LockWanted => me.CreateLocking? && me.locked < |me.want| && me.want[me.locked] < |s.transferOwner| && s.transferOwner[me.want[me.locked]] == None
    case CheckCreate =>
      && me.CreateLocking? && me.locked == |me.want| && me.vehicle < |s.vehicles|
      && (forall i :: 0 <= i < |me.want| ==> !Owned(s.trips, me.want[i]))
      && Weight(s.grams, me.want) <= s.vehicles[me.vehicle].capacity
    case CommitCreate => me.CreateReady?
    case BeginUpdate(v, _) => me.Idle? && v < |s.vehicles|
    case LockHint => me.UpdateLocking? && me.locked < |me.hints| && me.hints[me.locked] < |s.trips| && s.trips[me.hints[me.locked]].owner == None
    case LockForUpdate => me.UpdateLocking? && me.locked == |me.hints| && me.vehicle < |s.vehicles| && s.vehicles[me.vehicle].owner == None
    case CheckUpdate =>
      && me.UpdateLocked? && me.vehicle < |s.vehicles| && ActiveOf(s.trips, me.vehicle) == me.hints
      && (forall t: Id :: t in me.hints && t < |s.trips| ==> Weight(s.grams, s.trips[t].load) <= me.capacity)
    case CommitUpdate => me.UpdateReady? && me.vehicle < |s.vehicles| && s.vehicles[me.vehicle].version == me.version
    case BeginTrip(t) => me.Idle? && t < |s.trips| && s.trips[t].owner == None
    case CommitRemove(i) => me.HoldTrip? && me.trip < |s.trips| && s.trips[me.trip].status == Planned && i < |s.trips[me.trip].load|
    case CommitStatus(to) => me.HoldTrip? && me.trip < |s.trips| && TripCanBecome(s.trips[me.trip].status, to)
    case BeginVehicle(v) => me.Idle? && v < |s.vehicles| && s.vehicles[v].owner == None
    case CommitVehicle => me.HoldVehicle? && me.vehicle < |s.vehicles|
    case Abort => true
  }

  function WithoutOwner(o: Option<nat>, a: nat): Option<nat> {
    if o == Some(a) then None else o
  }

  /** The transaction ends: all its locks go and it forgets. */
  function End(s: Sys, a: nat): (r: Sys)
    requires a < |s.actors|
    ensures |r.vehicles| == |s.vehicles| && |r.trips| == |s.trips| && |r.transferOwner| == |s.transferOwner| && |r.actors| == |s.actors| && r.grams == s.grams
    ensures forall v :: 0 <= v < |s.vehicles| ==> r.vehicles[v] == s.vehicles[v].(owner := WithoutOwner(s.vehicles[v].owner, a))
    ensures forall t :: 0 <= t < |s.trips| ==> r.trips[t] == s.trips[t].(owner := WithoutOwner(s.trips[t].owner, a))
    ensures forall x :: 0 <= x < |s.transferOwner| ==> r.transferOwner[x] == WithoutOwner(s.transferOwner[x], a)
    ensures r.actors == s.actors[a := Idle]
  {
    Sys(seq(|s.vehicles|, v requires 0 <= v < |s.vehicles| => s.vehicles[v].(owner := WithoutOwner(s.vehicles[v].owner, a))),
        seq(|s.trips|, t requires 0 <= t < |s.trips| => s.trips[t].(owner := WithoutOwner(s.trips[t].owner, a))),
        s.grams,
        seq(|s.transferOwner|, x requires 0 <= x < |s.transferOwner| => WithoutOwner(s.transferOwner[x], a)),
        s.actors[a := Idle])
  }

  function At(s: Sys, a: nat, me: Actor): Sys
    requires a < |s.actors|
  {
    s.(actors := s.actors[a := me])
  }

  function Do(s: Sys, a: nat, m: Move): Sys
    requires Enabled(s, a, m)
  {
    var me := s.actors[a];
    match m
    case BeginAssign(t, x) => At(s.(trips := s.trips[t := s.trips[t].(owner := Some(a))]), a, AssignTrip(t, x))
    case LockTransfer => At(s.(transferOwner := s.transferOwner[me.transfer := Some(a)]), a, AssignBoth(me.trip, me.transfer))
    case CheckAssign => At(s, a, AssignReady(me.trip, me.transfer))
    case CommitAssign => End(s.(trips := s.trips[me.trip := s.trips[me.trip].(load := s.trips[me.trip].load + [me.transfer])]), a)
    case BeginCreate(v, want) => At(s.(vehicles := s.vehicles[v := s.vehicles[v].(owner := Some(a))]), a, CreateLocking(v, want, 0))
    case LockWanted => At(s.(transferOwner := s.transferOwner[me.want[me.locked] := Some(a)]), a, CreateLocking(me.vehicle, me.want, me.locked + 1))
    case CheckCreate => At(s, a, CreateReady(me.vehicle, me.want))
    case CommitCreate => End(s.(trips := s.trips + [TripRow(me.vehicle, Planned, me.want, None, None)]), a)
    case BeginUpdate(v, c) => At(s, a, UpdateLocking(v, c, ActiveOf(s.trips, v), 0))
    case LockHint =>
      var t := me.hints[me.locked];
      At(s.(trips := s.trips[t := s.trips[t].(owner := Some(a))]), a, UpdateLocking(me.vehicle, me.capacity, me.hints, me.locked + 1))
    case LockForUpdate => At(s.(vehicles := s.vehicles[me.vehicle := s.vehicles[me.vehicle].(owner := Some(a))]), a, UpdateLocked(me.vehicle, me.capacity, me.hints))
    case CheckUpdate => At(s, a, UpdateReady(me.vehicle, me.capacity, me.hints, s.vehicles[me.vehicle].version))
    case CommitUpdate => End(s.(vehicles := s.vehicles[me.vehicle := s.vehicles[me.vehicle].(capacity := me.capacity, version := me.version + 1)]), a)
    case BeginTrip(t) => At(s.(trips := s.trips[t := s.trips[t].(owner := Some(a))]), a, HoldTrip(t))
    case CommitRemove(i) =>
      var load := s.trips[me.trip].load;
      End(s.(trips := s.trips[me.trip := s.trips[me.trip].(load := load[..i] + load[i + 1..])]), a)
    case CommitStatus(to) =>
      var t := s.trips[me.trip];
      End(s.(trips := s.trips[me.trip := t.(status := to, load := if to == Withdrawn then [] else t.load,
                                            prepared := if to == Ready then Some(Weight(s.grams, t.load)) else t.prepared)]), a)
    case BeginVehicle(v) => At(s.(vehicles := s.vehicles[v := s.vehicles[v].(owner := Some(a))]), a, HoldVehicle(v))
    case CommitVehicle => End(s.(vehicles := s.vehicles[me.vehicle := s.vehicles[me.vehicle].(version := s.vehicles[me.vehicle].version + 1)]), a)
    case Abort => End(s, a)
  }

  // ----- the invariant -----

  predicate HoldsTrip(me: Actor, t: Id) {
    match me
    case AssignTrip(u, _) => u == t
    case AssignBoth(u, _) => u == t
    case AssignReady(u, _) => u == t
    case UpdateLocking(_, _, hints, k) => exists i :: 0 <= i < |hints| && i < k && hints[i] == t
    case UpdateLocked(_, _, hints) => t in hints
    case UpdateReady(_, _, hints, _) => t in hints
    case HoldTrip(u) => u == t
    case _ => false
  }

  predicate HoldsVehicle(me: Actor, v: Id) {
    match me
    case CreateLocking(u, _, _) => u == v
    case CreateReady(u, _) => u == v
    case UpdateLocked(u, _, _) => u == v
    case UpdateReady(u, _, _, _) => u == v
    case HoldVehicle(u) => u == v
    case _ => false
  }

  predicate HoldsTransfer(me: Actor, x: Id) {
    match me
    case AssignBoth(_, y) => y == x
    case AssignReady(_, y) => y == x
    case CreateLocking(_, want, k) => exists i :: 0 <= i < |want| && i < k && want[i] == x
    case CreateReady(_, want) => x in want
    case _ => false
  }

  predicate LocksOf(s: Sys, a: nat)
    requires a < |s.actors|
  {
    var me := s.actors[a];
    && (forall t: nat :: t < |s.trips| && HoldsTrip(me, t) ==> s.trips[t].owner == Some(a))
    && (forall v: nat :: v < |s.vehicles| && HoldsVehicle(me, v) ==> s.vehicles[v].owner == Some(a))
    && (forall x: nat :: x < |s.transferOwner| && HoldsTransfer(me, x) ==> s.transferOwner[x] == Some(a))
  }

  predicate TripRowOk(s: Sys, t: TripRow) {
    && t.vehicle < |s.vehicles| && NoRepeats(t.load) && (forall i :: 0 <= i < |t.load| ==> t.load[i] < |s.grams|)
    && (ActiveTrip(t.status) ==> Weight(s.grams, t.load) <= s.vehicles[t.vehicle].capacity)
    && (FrozenTrip(t.status) ==> t.prepared == Some(Weight(s.grams, t.load)))
  }

  predicate Exist(s: Sys, hints: seq<Id>) {
    forall i :: 0 <= i < |hints| ==> hints[i] < |s.trips|
  }

  /** What a transaction has checked is still true until it commits. */
  predicate StillTrue(s: Sys, me: Actor) {
    match me
    case AssignTrip(t, x) => t < |s.trips| && x < |s.grams|
    case AssignBoth(t, x) => t < |s.trips| && x < |s.grams|
    case AssignReady(t, x) =>
      && t < |s.trips| && x < |s.grams| && s.trips[t].status == Planned && !Owned(s.trips, x) && s.trips[t].vehicle < |s.vehicles|
      && Weight(s.grams, s.trips[t].load) + s.grams[x] <= s.vehicles[s.trips[t].vehicle].capacity
    case CreateLocking(v, want, _) => v < |s.vehicles| && NoRepeats(want) && forall i :: 0 <= i < |want| ==> want[i] < |s.grams|
    case CreateReady(v, want) =>
      && v < |s.vehicles| && NoRepeats(want) && (forall i :: 0 <= i < |want| ==> want[i] < |s.grams| && !Owned(s.trips, want[i]))
      && Weight(s.grams, want) <= s.vehicles[v].capacity
    case UpdateLocking(_, _, hints, _) => Exist(s, hints)
    case UpdateLocked(_, _, hints) => Exist(s, hints)
    case UpdateReady(v, c, hints, version) =>
      && v < |s.vehicles| && s.vehicles[v].version == version && Exist(s, hints)
      && (forall t :: 0 <= t < |s.trips| && s.trips[t].vehicle == v && ActiveTrip(s.trips[t].status) ==> t in hints && Weight(s.grams, s.trips[t].load) <= c)
    case HoldTrip(t) => t < |s.trips|
    case _ => true
  }

  predicate RowsOk(s: Sys) {
    && |s.transferOwner| == |s.grams|
    && (forall t :: 0 <= t < |s.trips| ==> TripRowOk(s, s.trips[t]))
    && (forall t, u :: 0 <= t < u < |s.trips| ==> Disjoint(s.trips[t].load, s.trips[u].load))
  }

  predicate Disjoint(a: seq<Id>, b: seq<Id>) {
    forall x :: x in a ==> x !in b
  }

  predicate ActorOk(s: Sys, a: nat)
    requires a < |s.actors|
  {
    LocksOf(s, a) && StillTrue(s, s.actors[a])
  }

  predicate RaceInv(s: Sys) {
    RowsOk(s) && forall a :: 0 <= a < |s.actors| ==> ActorOk(s, a)
  }

  /** The same rows, apart from who holds their locks. */
  predicate SameRows(s: Sys, r: Sys) {
    && |r.vehicles| == |s.vehicles| && |r.trips| == |s.trips| && r.grams == s.grams && |r.transferOwner| == |s.transferOwner|
    && (forall v :: 0 <= v < |s.vehicles| ==> r.vehicles[v].capacity == s.vehicles[v].capacity && r.vehicles[v].version == s.vehicles[v].version)
    && (forall t :: 0 <= t < |s.trips| ==> r.trips[t] == s.trips[t].(owner := r.trips[t].owner))
  }

  lemma SameOwned(s: Sys, r: Sys, x: Id)
    requires SameRows(s, r)
    ensures Owned(r.trips, x) <==> Owned(s.trips, x)
  {
    if Owned(r.trips, x) {
      var t :| 0 <= t < |r.trips| && x in r.trips[t].load;
      assert x in s.trips[t].load;
    }
    if Owned(s.trips, x) {
      var t :| 0 <= t < |s.trips| && x in s.trips[t].load;
      assert x in r.trips[t].load;
    }
  }

  lemma SameStillTrue(s: Sys, r: Sys, me: Actor)
    requires SameRows(s, r) && StillTrue(s, me)
    ensures StillTrue(r, me)
  {
    if me.AssignReady? { SameOwned(s, r, me.transfer); }
    if me.CreateReady? {
      forall i | 0 <= i < |me.want| ensures !Owned(r.trips, me.want[i]) { SameOwned(s, r, me.want[i]); }
    }
  }

  lemma SameRowsOk(s: Sys, r: Sys)
    requires SameRows(s, r) && RowsOk(s)
    ensures RowsOk(r)
  {
    forall t | 0 <= t < |r.trips| ensures TripRowOk(r, r.trips[t]) {
      assert TripRowOk(s, s.trips[t]);
    }
    forall t, u | 0 <= t < u < |r.trips| ensures Disjoint(r.trips[t].load, r.trips[u].load) {
      assert Disjoint(s.trips[t].load, s.trips[u].load);
    }
  }

  /** Only free locks were taken, and only by `a`. */
  predicate OthersKeepLocks(s: Sys, r: Sys, a: nat) {
    && (forall t :: 0 <= t < |s.trips| && t < |r.trips| && s.trips[t].owner.Some? && s.trips[t].owner != Some(a) ==> r.trips[t].owner == s.trips[t].owner)
    && (forall v :: 0 <= v < |s.vehicles| && v < |r.vehicles| && s.vehicles[v].owner.Some? && s.vehicles[v].owner != Some(a) ==> r.vehicles[v].owner == s.vehicles[v].owner)
    && (forall x :: 0 <= x < |s.transferOwner| && x < |r.transferOwner| && s.transferOwner[x].Some? && s.transferOwner[x] != Some(a) ==> r.transferOwner[x] == s.transferOwner[x])
  }

  lemma OtherLocks(s: Sys, r: Sys, a: nat, b: nat)
    requires SameRows(s, r) && OthersKeepLocks(s, r, a) && b < |s.actors| == |r.actors| && b != a && r.actors[b] == s.actors[b] && LocksOf(s, b)
    ensures LocksOf(r, b)
  {
  }

  predicate OthersOk(s: Sys, a: nat) {
    forall b :: 0 <= b < |s.actors| && b != a ==> ActorOk(s, b)
  }

  /** Moves that only take locks or advance their own transaction. */
  lemma QuietMoveKeeps(s: Sys, r: Sys, a: nat)
    requires RaceInv(s) && a < |s.actors| && SameRows(s, r) && OthersKeepLocks(s, r, a)
    requires |r.actors| == |s.actors| && r.actors == s.actors[a := r.actors[a]]
    requires ActorOk(r, a)
    ensures RaceInv(r)
  {
    hide RowsOk, LocksOf, StillTrue, SameRows, OthersKeepLocks;
    SameRowsOk(s, r);
    forall b | 0 <= b < |r.actors| ensures ActorOk(r, b) {
      assert ActorOk(s, b);
      if b != a {
        OtherLocks(s, r, a, b);
        SameStillTrue(s, r, s.actors[b]);
      }
    }
  }

  lemma EndKeeps(s: Sys, a: nat)
    requires RowsOk(s) && a < |s.actors| && OthersOk(s, a)
    ensures RaceInv(End(s, a))
  {
    hide RowsOk, StillTrue;
    var r := End(s, a);
    assert SameRows(s, r) && OthersKeepLocks(s, r, a);
    SameRowsOk(s, r);
    forall b | 0 <= b < |r.actors| ensures ActorOk(r, b) {
      if b == a {
        IdleIsOk(r, a);
      } else {
        assert ActorOk(s, b);
        OtherLocks(s, r, a, b);
        SameStillTrue(s, r, s.actors[b]);
      }
    }
  }

  lemma IdleIsOk(s: Sys, a: nat)
    requires a < |s.actors| && s.actors[a] == Idle
    ensures ActorOk(s, a)
  {
  }

  // ----- commits -----

  lemma {:induction false} WeightAppend(grams: seq<nat>, load: seq<Id>, x: Id)
    requires x < |grams|
    ensures Weight(grams, load + [x]) == Weight(grams, load) + grams[x]
  {
    assert (load + [x])[..|load|] == load;
  }

  lemma {:induction false} WeightRemove(grams: seq<nat>, load: seq<Id>, i: nat)
    requires i < |load|
    ensures Weight(grams, load[..i] + load[i + 1..]) <= Weight(grams, load)
  {
    var n := |load| - 1;
    if i == n {
      assert load[..i] + load[i + 1..] == load[..n];
    } else {
      WeightRemove(grams, load[..n], i);
      assert (load[..i] + load[i + 1..])[..n - 1] == load[..n][..i] + load[..n][i + 1..];
    }
  }

  lemma OwnedAppend(trips: seq<TripRow>, t: Id, x: Id, y: Id)
    requires t < |trips| && y != x && !Owned(trips, y)
    ensures !Owned(trips[t := trips[t].(load := trips[t].load + [x])], y)
  {
    forall u | 0 <= u < |trips| ensures y !in trips[u].load {
    }
  }

  lemma AssignRows(s: Sys, t: Id, x: Id)
    requires RowsOk(s) && StillTrue(s, AssignReady(t, x))
    ensures RowsOk(s.(trips := s.trips[t := s.trips[t].(load := s.trips[t].load + [x])]))
  {
    var r := s.(trips := s.trips[t := s.trips[t].(load := s.trips[t].load + [x])]);
    WeightAppend(s.grams, s.trips[t].load, x);
    hide Weight;
    assert forall u :: 0 <= u < |s.trips| ==> x !in s.trips[u].load;
    forall u | 0 <= u < |r.trips| ensures TripRowOk(r, r.trips[u]) {
      assert TripRowOk(s, s.trips[u]);
    }
    forall u, v | 0 <= u < v < |r.trips| ensures Disjoint(r.trips[u].load, r.trips[v].load) {
      assert Disjoint(s.trips[u].load, s.trips[v].load);
    }
  }

  lemma AssignOthers(s: Sys, a: nat, b: nat)
    requires RaceInv(s) && a < |s.actors| && b < |s.actors| && a != b && s.actors[a].AssignReady? && s.actors[a].trip < |s.trips|
    ensures var t, x := s.actors[a].trip, s.actors[a].transfer;
            ActorOk(s.(trips := s.trips[t := s.trips[t].(load := s.trips[t].load + [x])]), b)
  {
    var t, x := s.actors[a].trip, s.actors[a].transfer;
    assert ActorOk(s, a) && ActorOk(s, b);
    var r := s.(trips := s.trips[t := s.trips[t].(load := s.trips[t].load + [x])]);
    var me := s.actors[b];
    assert HoldsTrip(s.actors[a], t) && HoldsTransfer(s.actors[a], x);
    assert !HoldsTrip(me, t) && !HoldsTransfer(me, x);
    if me.AssignReady? { OwnedAppend(s.trips, t, x, me.transfer); }
    if me.CreateReady? {
      forall i | 0 <= i < |me.want| ensures !Owned(r.trips, me.want[i]) {
        assert me.want[i] in me.want;
        OwnedAppend(s.trips, t, x, me.want[i]);
      }
    }
  }

  lemma CommitAssignKeeps(s: Sys, a: nat)
    requires RaceInv(s) && Enabled(s, a, CommitAssign)
    ensures RaceInv(Do(s, a, CommitAssign))
  {
    hide RowsOk, ActorOk, End;
    assert ActorOk(s, a);
    AssignFacts(s, a);
    var t, x := s.actors[a].trip, s.actors[a].transfer;
    var r := s.(trips := s.trips[t := s.trips[t].(load := s.trips[t].load + [x])]);
    AssignRows(s, t, x);
    forall b | 0 <= b < |r.actors| && b != a ensures ActorOk(r, b) { AssignOthers(s, a, b); }
    EndKeeps(r, a);
  }

  lemma AssignFacts(s: Sys, a: nat)
    requires a < |s.actors| && ActorOk(s, a)
    ensures StillTrue(s, s.actors[a])
  {
  }

  lemma OwnedNew(trips: seq<TripRow>, row: TripRow, y: Id)
    requires !Owned(trips, y) && y !in row.load
    ensures !Owned(trips + [row], y)
  {
    forall u | 0 <= u < |trips| ensures y !in trips[u].load {
    }
  }

  lemma CreateRows(s: Sys, v: Id, want: seq<Id>)
    requires RowsOk(s) && StillTrue(s, CreateReady(v, want))
    ensures RowsOk(s.(trips := s.trips + [TripRow(v, Planned, want, None, None)]))
  {
    var r := s.(trips := s.trips + [TripRow(v, Planned, want, None, None)]);
    forall u | 0 <= u < |r.trips| ensures TripRowOk(r, r.trips[u]) {
      if u < |s.trips| { assert TripRowOk(s, s.trips[u]); }
    }
    forall u, w | 0 <= u < w < |r.trips| ensures Disjoint(r.trips[u].load, r.trips[w].load) {
      if w < |s.trips| {
        assert Disjoint(s.trips[u].load, s.trips[w].load);
      } else {
        forall x | x in s.trips[u].load ensures x !in want {
          assert Owned(s.trips, x);
        }
      }
    }
  }

  lemma CreateOthers(s: Sys, a: nat, b: nat)
    requires RaceInv(s) && a < |s.actors| && b < |s.actors| && a != b && s.actors[a].CreateReady?
    ensures ActorOk(s.(trips := s.trips + [TripRow(s.actors[a].vehicle, Planned, s.actors[a].want, None, None)]), b)
  {
    var v, want := s.actors[a].vehicle, s.actors[a].want;
    assert ActorOk(s, a) && ActorOk(s, b);
    var row := TripRow(v, Planned, want, None, None);
    var r := s.(trips := s.trips + [row]);
    var me := s.actors[b];
    assert HoldsVehicle(s.actors[a], v);
    assert !HoldsVehicle(me, v);
    forall x | x in want ensures HoldsTransfer(s.actors[a], x) && !HoldsTransfer(me, x) {
    }
    if me.AssignReady? {
      assert HoldsTransfer(me, me.transfer);
      OwnedNew(s.trips, row, me.transfer);
    }
    if me.CreateReady? {
      forall i | 0 <= i < |me.want| ensures !Owned(r.trips, me.want[i]) {
        assert HoldsTransfer(me, me.want[i]);
        OwnedNew(s.trips, row, me.want[i]);
      }
    }
    NewTripUnheld(s, r, b);
  }

  /** Nobody waits for a trip that does not exist yet. */
  lemma NewTripUnheld(s: Sys, r: Sys, b: nat)
    requires b < |s.actors| && r.actors == s.actors && |r.trips| == |s.trips| + 1 && r == s.(trips := r.trips) && r.trips[..|s.trips|] == s.trips
    requires ActorOk(s, b)
    ensures LocksOf(r, b)
  {
  }

  lemma CommitCreateKeeps(s: Sys, a: nat)
    requires RaceInv(s) && Enabled(s, a, CommitCreate)
    ensures RaceInv(Do(s, a, CommitCreate))
  {
    hide RowsOk, ActorOk, End;
    assert ActorOk(s, a);
    AssignFacts(s, a);
    var v, want := s.actors[a].vehicle, s.actors[a].want;
    var r := s.(trips := s.trips + [TripRow(v, Planned, want, None, None)]);
    CreateRows(s, v, want);
    forall b | 0 <= b < |r.actors| && b != a ensures ActorOk(r, b) { CreateOthers(s, a, b); }
    EndKeeps(r, a);
  }

  /** A vehicle row rewritten under its lock. */
  lemma VehicleRowKeeps(s: Sys, a: nat, v: Id, row: VehicleRow)
    requires RaceInv(s) && a < |s.actors| && v < |s.vehicles| && HoldsVehicle(s.actors[a], v) && row.owner == s.vehicles[v].owner
    requires row.capacity == s.vehicles[v].capacity || CapacityFits(s, s.actors[a], v, row.capacity)
    ensures RaceInv(End(s.(vehicles := s.vehicles[v := row]), a))
  {
    var r := s.(vehicles := s.vehicles[v := row]);
    assert ActorOk(s, a);
    forall t | 0 <= t < |r.trips| ensures TripRowOk(r, r.trips[t]) {
      assert TripRowOk(s, s.trips[t]);
    }
    forall b | 0 <= b < |r.actors| && b != a ensures ActorOk(r, b) {
      VehicleRowOthers(s, a, b, v, row);
    }
    EndKeeps(r, a);
  }

  /** An update that re-read the active trips holds all their locks. */
  predicate CapacityFits(s: Sys, me: Actor, v: Id, capacity: int) {
    me.UpdateReady? && me.vehicle == v && me.capacity == capacity
  }

  lemma VehicleRowOthers(s: Sys, a: nat, b: nat, v: Id, row: VehicleRow)
    requires RaceInv(s) && a < |s.actors| && b < |s.actors| && a != b && v < |s.vehicles|
    requires HoldsVehicle(s.actors[a], v) && row.owner == s.vehicles[v].owner
    requires row.capacity == s.vehicles[v].capacity || CapacityFits(s, s.actors[a], v, row.capacity)
    ensures ActorOk(s.(vehicles := s.vehicles[v := row]), b)
  {
    assert ActorOk(s, a) && ActorOk(s, b);
    var me := s.actors[b];
    assert !HoldsVehicle(me, v);
    if me.AssignReady? && s.trips[me.trip].vehicle == v && CapacityFits(s, s.actors[a], v, row.capacity) {
      assert HoldsTrip(me, me.trip);
    }
  }

  lemma CommitUpdateKeeps(s: Sys, a: nat)
    requires RaceInv(s) && Enabled(s, a, CommitUpdate)
    ensures RaceInv(Do(s, a, CommitUpdate))
  {
    var me := s.actors[a];
    VehicleRowKeeps(s, a, me.vehicle, s.vehicles[me.vehicle].(capacity := me.capacity, version := me.version + 1));
  }

  lemma CommitVehicleKeeps(s: Sys, a: nat)
    requires RaceInv(s) && Enabled(s, a, CommitVehicle)
    ensures RaceInv(Do(s, a, CommitVehicle))
  {
    var me := s.actors[a];
    VehicleRowKeeps(s, a, me.vehicle, s.vehicles[me.vehicle].(version := s.vehicles[me.vehicle].version + 1));
  }

  predicate Shrinks(s: Sys, t: TripRow, u: TripRow) {
    && u.vehicle == t.vehicle && u.owner == t.owner
    && (forall x :: x in u.load ==> x in t.load)
    && (ActiveTrip(u.status) ==> ActiveTrip(t.status) && Weight(s.grams, u.load) <= Weight(s.grams, t.load))
  }

  /** A trip row rewritten under its lock without taking on load. */
  lemma TripRowKeeps(s: Sys, a: nat, t: Id, u: TripRow)
    requires RaceInv(s) && a < |s.actors| && s.actors[a] == HoldTrip(t) && t < |s.trips| && Shrinks(s, s.trips[t], u) && TripRowOk(s, u)
    ensures RaceInv(End(s.(trips := s.trips[t := u]), a))
  {
    var r := s.(trips := s.trips[t := u]);
    assert ActorOk(s, a);
    forall w | 0 <= w < |r.trips| ensures TripRowOk(r, r.trips[w]) {
      assert TripRowOk(s, s.trips[w]);
    }
    forall w, z | 0 <= w < z < |r.trips| ensures Disjoint(r.trips[w].load, r.trips[z].load) {
      assert Disjoint(s.trips[w].load, s.trips[z].load);
    }
    forall b | 0 <= b < |r.actors| && b != a ensures ActorOk(r, b) {
      TripRowOthers(s, a, b, t, u);
    }
    EndKeeps(r, a);
  }

  lemma OwnedShrinks(s: Sys, t: Id, u: TripRow, x: Id)
    requires t < |s.trips| && Shrinks(s, s.trips[t], u) && !Owned(s.trips, x)
    ensures !Owned(s.trips[t := u], x)
  {
    forall w | 0 <= w < |s.trips| ensures x !in s.trips[w].load {
    }
  }

  lemma TripRowOthers(s: Sys, a: nat, b: nat, t: Id, u: TripRow)
    requires RaceInv(s) && a < |s.actors| && b < |s.actors| && a != b && s.actors[a] == HoldTrip(t) && t < |s.trips| && Shrinks(s, s.trips[t], u)
    ensures ActorOk(s.(trips := s.trips[t := u]), b)
  {
    assert ActorOk(s, a) && ActorOk(s, b);
    var me := s.actors[b];
    assert HoldsTrip(s.actors[a], t);
    assert !HoldsTrip(me, t);
    if me.AssignReady? { OwnedShrinks(s, t, u, me.transfer); }
    if me.CreateReady? {
      forall i | 0 <= i < |me.want| ensures !Owned(s.trips[t := u], me.want[i]) { OwnedShrinks(s, t, u, me.want[i]); }
    }
  }

  lemma StillDistinct(load: seq<Id>, i: nat, bound: nat)
    requires i < |load| && NoRepeats(load) && forall k :: 0 <= k < |load| ==> load[k] < bound
    ensures var rest := load[..i] + load[i + 1..];
            NoRepeats(rest) && (forall x :: x in rest ==> x in load) && (forall k :: 0 <= k < |rest| ==> rest[k] < bound)
  {
  }

  lemma CommitRemoveKeeps(s: Sys, a: nat, i: nat)
    requires RaceInv(s) && Enabled(s, a, CommitRemove(i))
    ensures RaceInv(Do(s, a, CommitRemove(i)))
  {
    var t := s.actors[a].trip;
    var row := s.trips[t];
    assert TripRowOk(s, row);
    hide RaceInv, Weight;
    WeightRemove(s.grams, row.load, i);
    StillDistinct(row.load, i, |s.grams|);
    TripRowKeeps(s, a, t, row.(load := row.load[..i] + row.load[i + 1..]));
  }

  lemma CommitStatusKeeps(s: Sys, a: nat, to: TripStatus)
    requires RaceInv(s) && Enabled(s, a, CommitStatus(to))
    ensures RaceInv(Do(s, a, CommitStatus(to)))
  {
    var t := s.actors[a].trip;
    var row := s.trips[t];
    assert TripRowOk(s, row);
    TripRowKeeps(s, a, t, row.(status := to, load := if to == Withdrawn then [] else row.load,
                               prepared := if to == Ready then Some(Weight(s.grams, row.load)) else row.prepared));
  }

  lemma AbortKeeps(s: Sys, a: nat)
    requires RaceInv(s) && a < |s.actors|
    ensures RaceInv(End(s, a))
  {
    hide ActorOk, RowsOk, End;
    EndKeeps(s, a);
  }

  // ----- lock and check moves -----

  predicate TakesTrip(m: Move) {
    m.BeginAssign? || m.LockHint? || m.BeginTrip?
  }

  lemma TakeTripKeeps(s: Sys, a: nat, m: Move)
    requires RaceInv(s) && Enabled(s, a, m) && TakesTrip(m)
    ensures RaceInv(Do(s, a, m))
  {
    hide RowsOk;
    assert ActorOk(s, a);
    QuietMoveKeeps(s, Do(s, a, m), a);
  }

  predicate TakesVehicle(m: Move) {
    m.BeginCreate? || m.LockForUpdate? || m.BeginVehicle?
  }

  lemma TakeVehicleKeeps(s: Sys, a: nat, m: Move)
    requires RaceInv(s) && Enabled(s, a, m) && TakesVehicle(m)
    ensures RaceInv(Do(s, a, m))
  {
    hide RowsOk;
    assert ActorOk(s, a);
    QuietMoveKeeps(s, Do(s, a, m), a);
  }

  lemma TakeTransferKeeps(s: Sys, a: nat, m: Move)
    requires RaceInv(s) && Enabled(s, a, m) && (m.LockTransfer? || m.LockWanted?)
    ensures RaceInv(Do(s, a, m))
  {
    hide RowsOk;
    assert ActorOk(s, a);
    QuietMoveKeeps(s, Do(s, a, m), a);
  }

  lemma CheckKeeps(s: Sys, a: nat, m: Move)
    requires RaceInv(s) && Enabled(s, a, m) && (m.CheckAssign? || m.CheckCreate? || m.CheckUpdate?)
    ensures RaceInv(Do(s, a, m))
  {
    hide RowsOk;
    assert ActorOk(s, a);
    QuietMoveKeeps(s, Do(s, a, m), a);
  }

  lemma BeginUpdateKeeps(s: Sys, a: nat, m: Move)
    requires RaceInv(s) && Enabled(s, a, m) && m.BeginUpdate?
    ensures RaceInv(Do(s, a, m))
  {
    hide RowsOk;
    assert ActorOk(s, a);
    var hints := ActiveOf(s.trips, m.vehicle);
    forall i | 0 <= i < |hints| ensures hints[i] < |s.trips| {
      assert hints[i] in hints;
    }
    QuietMoveKeeps(s, Do(s, a, m), a);
  }

  /** Every move of every transaction keeps the invariant. */
  lemma MoveKeeps(s: Sys, a: nat, m: Move)
    requires RaceInv(s) && Enabled(s, a, m)
    ensures RaceInv(Do(s, a, m))
  {
    hide RaceInv;
    match m
    case BeginAssign(_, _) => TakeTripKeeps(s, a, m);
    case LockTransfer => TakeTransferKeeps(s, a, m);
    case CheckAssign => CheckKeeps(s, a, m);
    case CommitAssign => CommitAssignKeeps(s, a);
    case BeginCreate(_, _) => TakeVehicleKeeps(s, a, m);
    case LockWanted => TakeTransferKeeps(s, a, m);
    case CheckCreate => CheckKeeps(s, a, m);
    case CommitCreate => CommitCreateKeeps(s, a);
    case BeginUpdate(_, _) => BeginUpdateKeeps(s, a, m);
    case LockHint => TakeTripKeeps(s, a, m);
    case LockForUpdate => TakeVehicleKeeps(s, a, m);
    case CheckUpdate => CheckKeeps(s, a, m);
    case CommitUpdate => CommitUpdateKeeps(s, a);
    case BeginTrip(_) => TakeTripKeeps(s, a, m);
    case CommitRemove(i) => CommitRemoveKeeps(s, a, i);
    case CommitStatus(to) => CommitStatusKeeps(s, a, to);
    case BeginVehicle(_) => TakeVehicleKeeps(s, a, m);
    case CommitVehicle => CommitVehicleKeeps(s, a);
    case Abort => AbortKeeps(s, a);
  }

  // ----- runs -----

  /** An interleaving: at each step some transaction makes an enabled move. */
  ghost predicate Execution(states: seq<Sys>, steps: seq<(nat, Move)>) {
    && |states| == |steps| + 1
    && forall i {:trigger steps[i]} :: 0 <= i < |steps| ==>
         Enabled(states[i], steps[i].0, steps[i].1) && states[i + 1] == Do(states[i], steps[i].0, steps[i].1)
  }

  lemma {:induction false} ExecutionKeeps(states: seq<Sys>, steps: seq<(nat, Move)>, n: nat)
    requires Execution(states, steps) && RaceInv(states[0]) && n <= |steps|
    ensures RaceInv(states[n])
  {
    hide RaceInv, Enabled, Do;
    if n > 0 {
      ExecutionKeeps(states, steps, n - 1);
      MoveKeeps(states[n - 1], steps[n - 1].0, steps[n - 1].1);
    }
  }

  /** Nothing running, no lock held, no trip yet. */
  predicate Fresh(s: Sys) {
    && |s.transferOwner| == |s.grams| && s.trips == []
    && forall a :: 0 <= a < |s.actors| ==> s.actors[a] == Idle
  }

  ghost predicate Reachable(s: Sys) {
    exists states: seq<Sys>, steps: seq<(nat, Move)> :: Execution(states, steps) && Fresh(states[0]) && states[|steps|] == s
  }

  lemma ReachableInv(s: Sys)
    requires Reachable(s)
    ensures RaceInv(s)
  {
    hide Enabled, Do;
    var states: seq<Sys>, steps: seq<(nat, Move)> :| Execution(states, steps) && Fresh(states[0]) && states[|steps|] == s;
    forall a | 0 <= a < |states[0].actors| ensures ActorOk(states[0], a) { IdleIsOk(states[0], a); }
    ExecutionKeeps(states, steps, |steps|);
  }

  /** Whatever the interleaving: no active trip ever outweighs its vehicle, no
      transfer is on two manifests, and from READY through ARRIVED the stored
      prepared weight is what the manifest weighs. */
  lemma CapacityHolds(s: Sys)
    requires Reachable(s)
    ensures forall t :: 0 <= t < |s.trips| ==>
              && s.trips[t].vehicle < |s.vehicles|
              && (ActiveTrip(s.trips[t].status) ==> Weight(s.grams, s.trips[t].load) <= s.vehicles[s.trips[t].vehicle].capacity)
              && (FrozenTrip(s.trips[t].status) ==> s.trips[t].prepared == Some(Weight(s.grams, s.trips[t].load)))
    ensures forall t, u :: 0 <= t < u < |s.trips| ==> Disjoint(s.trips[t].load, s.trips[u].load)
  {
    hide Reachable, ActorOk;
    ReachableInv(s);
    forall t | 0 <= t < |s.trips| ensures TripRowOk(s, s.trips[t]) {
    }
  }

  /** The compare-and-set at the end of a capacity update never fails: the
      vehicle lock it holds already rules every other writer out. */
  lemma UpdateNeverLosesTheRace(s: Sys, a: nat)
    requires Reachable(s) && a < |s.actors| && s.actors[a].UpdateReady?
    ensures Enabled(s, a, CommitUpdate)
  {
    hide Reachable, RowsOk;
    ReachableInv(s);
    assert ActorOk(s, a);
  }
}

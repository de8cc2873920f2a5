/** One driver's tasks and trips under concurrency. Assignment reads the driver
    row before it locks it, availability changes never lock it at all; the
    version compare-and-set and the row lock together still keep parcel tasks
    and line-haul trips apart. A write waits for the row lock of others. */
module DriverRace {
  import opened Rows
  import opened Policies
  import opened Invariants
  import opened ParcelCommands

  /** How far a transaction on the driver has come; `seen` is the row it read. */
  datatype Actor =
    | Idle
    | AssignSeen(kind: Capability, seen: Driver)
    | AssignLocked(kind: Capability, seen: Driver)
    | AssignChecked(kind: Capability, seen: Driver)
    | PrepareLocked
    | PrepareChecked
    | AvailabilitySeen(online: bool, seen: Driver)
    | AvailabilityCounted(online: bool, seen: Driver, busy: bool)
    | EndSeen(seen: Driver)
    | RestoreSeen(seen: Driver)
    | SuspendLocked(account: bool, seen: Driver)
    | SuspendChecked(account: bool, seen: Driver)
    | CapabilitiesLocked(wanted: set<Capability>, seen: Driver)
    | CapabilitiesChecked(wanted: set<Capability>, seen: Driver)
    | HomeSeen(home: Id, seen: Driver)
    | HomeChecked(home: Id, seen: Driver)

  /** An active assignment and the warehouse its driver worked from at the time. */
  datatype Task = Task(kind: Capability, home: Id)

  /** `tasks` are the driver's active assignments and `trips` counts the driver's
      READY and IN_TRANSIT trips. */
  datatype Sys = Sys(row: Driver, tasks: seq<Task>, trips: nat, owner: Option<nat>, actors: seq<Actor>)

  datatype Move =
    | ReadForAssign(kind: Capability)
    | LockForAssign
    | CheckAssign
    | CommitAssign
    | LockForPrepare
    | CheckPrepare
    | CommitPrepare
    | FinishTrip
    | ReadForAvailability(online: bool)
    | CountTasks
    | CommitAvailability
    | ReadForEnd
    | CommitEnd
    | ReadForRestore
    | CommitRestore
    | LockForSuspend(account: bool)
    | CheckSuspend
    | CommitSuspend
    | LockForCapabilities(wanted: set<Capability>)
    | CheckCapabilities
    | CommitCapabilities
    | ReadForHome(home: Id)
    | CheckHome
    | CommitHome
    | RestoreAccount
    | Abort

  /** A compare-and-set on the driver row: the version is the one that was read,
      and no other transaction holds the row. */
  predicate Swappable(s: Sys, a: nat, seen: Driver) {
    s.row.version == seen.version && (s.owner == None || s.owner == Some(a))
  }

  predicate Enabled(s: Sys, a: nat, m: Move) {
    a < |s.actors| &&
    var me := s.actors[a];
    match m
    case ReadForAssign(kind) => me.Idle? && kind in {Pickup, Delivery}
    case LockForAssign => me.AssignSeen? && s.owner == None
    case CheckAssign => me.AssignLocked? && s.trips == 0 && CandidateError(me.seen, me.kind, true) == None
    case CommitAssign => me.AssignChecked? && Swappable(s, a, me.seen)
    case LockForPrepare => me.Idle? && s.owner == None
    case CheckPrepare => me.PrepareLocked? && s.tasks == [] && DriverError(s.row) == None
    case CommitPrepare => me.PrepareChecked?
    case FinishTrip => s.trips > 0
    case ReadForAvailability(_) => me.Idle?
    case CountTasks => me.AvailabilitySeen? && me.seen.status != Suspended && me.seen.userActive && (s.tasks == [] || me.online)
    case CommitAvailability => me.AvailabilityCounted? && Swappable(s, a, me.seen)
    case ReadForEnd => me.Idle? && s.tasks != []
    case CommitEnd => me.EndSeen? && Swappable(s, a, me.seen)
    case ReadForRestore => me.Idle? && s.row.userActive
    case CommitRestore => me.RestoreSeen? && Swappable(s, a, me.seen)
    case LockForSuspend(_) => me.Idle? && s.owner == None
    case CheckSuspend => me.SuspendLocked? && s.tasks == [] && s.trips == 0
    case CommitSuspend => me.SuspendChecked? && Swappable(s, a, me.seen)
    case LockForCapabilities(_) => me.Idle? && s.owner == None
    case CheckCapabilities =>
      me.CapabilitiesLocked? && (forall k :: k in s.tasks && k.kind in me.seen.capabilities ==> k.kind in me.wanted)
      && (LineHaul in me.seen.capabilities && LineHaul !in me.wanted ==> s.trips == 0)
    case CommitCapabilities => me.CapabilitiesChecked? && Swappable(s, a, me.seen)
    case ReadForHome(_) => me.Idle?
    case CheckHome => me.HomeSeen? && (me.home != me.seen.home ==> s.tasks == [])
    case CommitHome => me.HomeChecked? && Swappable(s, a, me.seen)
    case RestoreAccount => true
    case Abort => true
  }

  function At(s: Sys, a: nat, me: Actor): Sys
    requires a < |s.actors|
  {
    s.(actors := s.actors[a := me])
  }

  /** The transaction ends and gives the row lock back if it has it. */
  function End(s: Sys, a: nat): Sys
    requires a < |s.actors|
  {
    s.(actors := s.actors[a := Idle], owner := if s.owner == Some(a) then None else s.owner)
  }

  function Do(s: Sys, a: nat, m: Move): Sys
    requires Enabled(s, a, m)
  {
    var me := s.actors[a];
    var d := s.row;
    var next := d.version + 1;
    match m
    case ReadForAssign(kind) => At(s, a, AssignSeen(kind, d))
    case LockForAssign => At(s.(owner := Some(a)), a, AssignLocked(me.kind, me.seen))
    case CheckAssign => At(s, a, AssignChecked(me.kind, me.seen))
    case CommitAssign => End(s.(tasks := s.tasks + [Task(me.kind, d.home)], row := Occupied(d)), a)
    case LockForPrepare => At(s.(owner := Some(a)), a, PrepareLocked)
    case CheckPrepare => At(s, a, PrepareChecked)
    case CommitPrepare => End(s.(trips := s.trips + 1), a)
    case FinishTrip => s.(trips := s.trips - 1)
    case ReadForAvailability(online) => At(s, a, AvailabilitySeen(online, d))
    case CountTasks => At(s, a, AvailabilityCounted(me.online, me.seen, s.tasks != []))
    case CommitAvailability =>
      End(s.(row := d.(status := if !me.online then Offline else if me.busy then Busy else Free,
                       online := me.online, available := me.online && !me.busy, version := next)), a)
    case ReadForEnd => At(s, a, EndSeen(d))
    case CommitEnd => End(s.(tasks := [], row := Released(d)), a)
    case ReadForRestore => At(s, a, RestoreSeen(d))
    case CommitRestore => End(s.(row := d.(status := Offline, online := false, available := false, version := next)), a)
    case LockForSuspend(account) => At(s.(owner := Some(a)), a, SuspendLocked(account, d))
    case CheckSuspend => At(s, a, SuspendChecked(me.account, me.seen))
    case CommitSuspend =>
      End(s.(row := d.(status := Suspended, online := false, available := false, version := next, userActive := d.userActive && !me.account)), a)
    case LockForCapabilities(wanted) => At(s.(owner := Some(a)), a, CapabilitiesLocked(wanted, d))
    case CheckCapabilities => At(s, a, CapabilitiesChecked(me.wanted, me.seen))
    case CommitCapabilities => End(s.(row := d.(capabilities := me.wanted, version := next)), a)
    case ReadForHome(home) => At(s, a, HomeSeen(home, d))
    case CheckHome => At(s, a, HomeChecked(me.home, me.seen))
    case CommitHome => End(s.(row := d.(home := me.home, version := next)), a)
    case RestoreAccount => s.(row := d.(userActive := true))
    case Abort => End(s, a)
  }

  // ----- the invariant -----

  /** Parcel tasks and trips never meet, and each finds its driver eligible. */
  predicate Safe(s: Sys) {
    && DriverOk(s.row)
    && |s.tasks| <= 1
    && (s.tasks != [] ==> s.trips == 0 && !s.row.available && s.row.userActive && s.row.status != Suspended && s.tasks[0].kind in s.row.capabilities && s.tasks[0].home == s.row.home)
    && (s.trips > 0 ==> DriverError(s.row) == None)
    && (forall i :: 0 <= i < |s.tasks| ==> s.tasks[i].kind in {Pickup, Delivery})
  }

  predicate Locking(me: Actor) {
    me.AssignLocked? || me.AssignChecked? || me.PrepareLocked? || me.PrepareChecked?
    || me.SuspendLocked? || me.SuspendChecked? || me.CapabilitiesLocked? || me.CapabilitiesChecked?
  }

  predicate HasSeen(me: Actor) {
    !me.Idle? && !me.PrepareLocked? && !me.PrepareChecked?
  }

  /** A row read earlier is the current row, or its version gives it away; only
      the account flag may have been restored meanwhile. */
  predicate Current(s: Sys, seen: Driver) {
    && seen.version <= s.row.version
    && (seen.version == s.row.version ==> s.row == seen.(userActive := s.row.userActive) && (seen.userActive ==> s.row.userActive))
  }

  predicate StillTrue(s: Sys, a: nat, me: Actor) {
    && (Locking(me) ==> s.owner == Some(a))
    && (HasSeen(me) ==> Current(s, me.seen))
    && (me.AssignSeen? || me.AssignLocked? || me.AssignChecked? ==> me.kind in {Pickup, Delivery})
    && (me.AssignChecked? ==> s.trips == 0 && CandidateError(me.seen, me.kind, true) == None)
    && (me.PrepareChecked? ==> s.tasks == [] && DriverError(s.row) == None)
    && (me.AvailabilityCounted? ==>
          && me.seen.status != Suspended && me.seen.userActive && (me.busy ==> me.online)
          && (me.seen.version == s.row.version ==> (me.busy <==> s.tasks != [])))
    && (me.EndSeen? && me.seen.version == s.row.version ==> s.tasks != [])
    && (me.RestoreSeen? ==> me.seen.userActive)
    && (me.SuspendLocked? || me.SuspendChecked? || me.CapabilitiesLocked? || me.CapabilitiesChecked? ==> me.seen.version == s.row.version)
    && (me.SuspendChecked? ==> s.tasks == [] && s.trips == 0)
    && (me.CapabilitiesChecked? ==>
          && (forall k :: k in s.tasks && k.kind in me.seen.capabilities ==> k.kind in me.wanted)
          && (LineHaul in me.seen.capabilities && LineHaul !in me.wanted ==> s.trips == 0))
    && (me.HomeChecked? && me.seen.version == s.row.version && me.home != me.seen.home ==> s.tasks == [])
  }

  predicate RaceInv(s: Sys) {
    Safe(s) && forall a :: 0 <= a < |s.actors| ==> StillTrue(s, a, s.actors[a])
  }

  /** What a transaction that does not hold the lock can do to another. */
  lemma OthersStillTrue(s: Sys, a: nat, m: Move, b: nat)
    requires RaceInv(s) && Enabled(s, a, m) && b < |s.actors| && b != a
    ensures StillTrue(Do(s, a, m), b, s.actors[b])
  {
    hide Safe, CandidateError;
    assert StillTrue(s, a, s.actors[a]) && StillTrue(s, b, s.actors[b]);
  }

  predicate Reads(m: Move) {
    m.ReadForAssign? || m.ReadForAvailability? || m.ReadForEnd? || m.ReadForRestore? || m.ReadForHome?
  }

  predicate Locks(m: Move) {
    m.LockForAssign? || m.LockForPrepare? || m.LockForSuspend? || m.LockForCapabilities?
  }

  predicate Checks(m: Move) {
    m.CheckAssign? || m.CheckPrepare? || m.CountTasks? || m.CheckSuspend? || m.CheckCapabilities? || m.CheckHome?
  }

  lemma ReadIsTrue(s: Sys, a: nat, m: Move)
    requires RaceInv(s) && Enabled(s, a, m) && Reads(m)
    ensures StillTrue(Do(s, a, m), a, Do(s, a, m).actors[a])
  {
    hide Safe;
  }

  lemma LockIsTrue(s: Sys, a: nat, m: Move)
    requires RaceInv(s) && Enabled(s, a, m) && Locks(m)
    ensures StillTrue(Do(s, a, m), a, Do(s, a, m).actors[a])
  {
    hide Safe;
    assert StillTrue(s, a, s.actors[a]);
  }

  lemma CheckIsTrue(s: Sys, a: nat, m: Move)
    requires RaceInv(s) && Enabled(s, a, m) && Checks(m)
    ensures StillTrue(Do(s, a, m), a, Do(s, a, m).actors[a])
  {
    hide Safe, CandidateError, DriverError;
    assert StillTrue(s, a, s.actors[a]);
  }

  /** A trip's end and a restored account leave every transaction where it is,
      the commits leave their own idle. */
  lemma OtherMoveIsTrue(s: Sys, a: nat, m: Move)
    requires RaceInv(s) && Enabled(s, a, m) && !Reads(m) && !Locks(m) && !Checks(m)
    ensures StillTrue(Do(s, a, m), a, Do(s, a, m).actors[a])
  {
    hide Safe, CandidateError;
    assert StillTrue(s, a, s.actors[a]);
  }

  lemma OwnStillTrue(s: Sys, a: nat, m: Move)
    requires RaceInv(s) && Enabled(s, a, m)
    ensures StillTrue(Do(s, a, m), a, Do(s, a, m).actors[a])
  {
    hide RaceInv, Enabled, Do, StillTrue;
    if Reads(m) {
      ReadIsTrue(s, a, m);
    } else if Locks(m) {
      LockIsTrue(s, a, m);
    } else if Checks(m) {
      CheckIsTrue(s, a, m);
    } else {
      OtherMoveIsTrue(s, a, m);
    }
  }

  /** Reads, locks, checks and aborts write nothing. */
  lemma QuietStaysSafe(s: Sys, a: nat, m: Move)
    requires Safe(s) && Enabled(s, a, m) && (Reads(m) || Locks(m) || Checks(m) || m.Abort?)
    ensures Safe(Do(s, a, m))
  {
    assert Safe(s);
    hide Safe;
    var r := Do(s, a, m);
    assert r.row == s.row && r.tasks == s.tasks && r.trips == s.trips;
    SameRowsSafe(s, r);
  }

  lemma SameRowsSafe(s: Sys, r: Sys)
    requires Safe(s) && r.row == s.row && r.tasks == s.tasks && r.trips == s.trips
    ensures Safe(r)
  {
  }

  predicate Assigns(m: Move) {
    m.CommitAssign? || m.CommitPrepare? || m.CommitEnd? || m.FinishTrip?
  }

  lemma TaskMoveStaysSafe(s: Sys, a: nat, m: Move)
    requires RaceInv(s) && Enabled(s, a, m) && Assigns(m)
    ensures Safe(Do(s, a, m))
  {
    assert StillTrue(s, a, s.actors[a]);
  }

  lemma RowMoveStaysSafe(s: Sys, a: nat, m: Move)
    requires RaceInv(s) && Enabled(s, a, m) && !Reads(m) && !Locks(m) && !Checks(m) && !m.Abort? && !Assigns(m)
    ensures Safe(Do(s, a, m))
  {
    hide CandidateError;
    assert StillTrue(s, a, s.actors[a]);
  }

  lemma StaysSafe(s: Sys, a: nat, m: Move)
    requires RaceInv(s) && Enabled(s, a, m)
    ensures Safe(Do(s, a, m))
  {
    assert Safe(s);
    hide RaceInv, Enabled, Do, Safe;
    if Reads(m) || Locks(m) || Checks(m) || m.Abort? {
      QuietStaysSafe(s, a, m);
    } else if Assigns(m) {
      TaskMoveStaysSafe(s, a, m);
    } else {
      RowMoveStaysSafe(s, a, m);
    }
  }

  lemma OthersUnmoved(s: Sys, a: nat, m: Move)
    requires Enabled(s, a, m)
    ensures |Do(s, a, m).actors| == |s.actors| && forall b :: 0 <= b < |s.actors| && b != a ==> Do(s, a, m).actors[b] == s.actors[b]
  {
  }

  lemma MoveKeeps(s: Sys, a: nat, m: Move)
    requires RaceInv(s) && Enabled(s, a, m)
    ensures RaceInv(Do(s, a, m))
  {
    assert a < |s.actors|;
    hide StillTrue, Safe, Enabled, Do;
    OthersUnmoved(s, a, m);
    StaysSafe(s, a, m);
    OwnStillTrue(s, a, m);
    forall b | 0 <= b < |s.actors| && b != a ensures StillTrue(Do(s, a, m), b, s.actors[b]) {
      OthersStillTrue(s, a, m, b);
    }
  }

  // ----- runs -----

  /** An interleaving: at each step some transaction makes an enabled move. */
  ghost predicate Execution(states: seq<Sys>, steps: seq<(nat, Move)>) {
    && |states| == |steps| + 1
    && forall i {:trigger steps[i]} :: 0 <= i < |steps| ==>
         Enabled(states[i], steps[i].0, steps[i].1) && states[i + 1] == Do(states[i], steps[i].0, steps[i].1)
  }

  lemma {:induction false} ExecutionKeeps(states: seq<Sys>, steps: seq<(nat, Move)>, n: nat)
    requires Execution(states, steps) && RaceInv(states[0]) && n <= |steps|
    ensures RaceInv(states[n])
  {
    hide RaceInv, Enabled, Do;
    if n > 0 {
      ExecutionKeeps(states, steps, n - 1);
      MoveKeeps(states[n - 1], steps[n - 1].0, steps[n - 1].1);
    }
  }

  /** A driver profile as it is created, with no transaction running. */
  predicate Fresh(s: Sys) {
    && DriverOk(s.row) && s.tasks == [] && s.trips == 0 && s.owner == None
    && forall a :: 0 <= a < |s.actors| ==> s.actors[a] == Idle
  }

  ghost predicate Reachable(s: Sys) {
    exists states: seq<Sys>, steps: seq<(nat, Move)> :: Execution(states, steps) && Fresh(states[0]) && states[|steps|] == s
  }

  lemma ReachableInv(s: Sys)
    requires Reachable(s)
    ensures RaceInv(s)
  {
    hide Enabled, Do;
    var states: seq<Sys>, steps: seq<(nat, Move)> :| Execution(states, steps) && Fresh(states[0]) && states[|steps|] == s;
    ExecutionKeeps(states, steps, |steps|);
  }

  /** Whatever the interleaving: at most one parcel task, never one beside a
      READY or IN_TRANSIT trip, never while available; suspension or capability
      changes never strand a task or a trip, and the operating warehouse, which
      is changed without a lock, never moves under a task. */
  lemma ExclusionHolds(s: Sys)
    requires Reachable(s)
    ensures |s.tasks| <= 1 && !(s.tasks != [] && s.trips > 0)
    ensures s.tasks != [] ==> !s.row.available && s.row.status != Suspended && s.row.userActive && s.tasks[0].kind in s.row.capabilities
    ensures s.tasks != [] ==> s.tasks[0].home == s.row.home
    ensures s.trips > 0 ==> DriverError(s.row) == None
  {
    hide Reachable, StillTrue;
    ReachableInv(s);
  }

  /** Under the row lock a compare-and-set cannot fail: suspensions and
      capability changes that passed their checks always commit. */
  lemma LockedChangesCommit(s: Sys, a: nat)
    requires Reachable(s) && a < |s.actors|
    ensures s.actors[a].SuspendChecked? ==> Enabled(s, a, CommitSuspend)
    ensures s.actors[a].CapabilitiesChecked? ==> Enabled(s, a, CommitCapabilities)
  {
    hide Reachable, Safe;
    ReachableInv(s);
    assert StillTrue(s, a, s.actors[a]);
  }

  /** The version check is needed as well as the lock: an assignment whose
      snapshot went stale before it got the lock passes every other check. */
  lemma StaleAssignmentIsCaught(s: Sys, a: nat)
    requires Reachable(s) && a < |s.actors| && s.actors[a].AssignChecked? && s.tasks != []
    ensures !Enabled(s, a, CommitAssign)
  {
    hide Reachable;
    ReachableInv(s);
    assert StillTrue(s, a, s.actors[a]);
  }
}

/** One user's refresh sessions under concurrency: sign-in, token rotation,
    sign-out, password reset and password change, and account suspension,
    interleaved statement by statement. `epoch` counts password changes. */
module Sessions {
  import opened Rows

  /** `busy` is the transaction that holds the row with an uncommitted update. */
  datatype Session = Session(epoch: nat, revoked: bool, parent: Option<Id>, busy: Option<nat>)

  datatype Token = Token(used: bool, busy: Option<nat>)

  datatype Actor =
    | Idle
    | SignInSeen(epoch: nat, version: nat)
    | SignInLocked
    | RefreshFound(session: Id)
    | RefreshSeen(session: Id, epoch: nat, version: nat)
    | RefreshLocked(session: Id)
    | RefreshRevoked(session: Id)
    | ResetSeen(token: Id)
    | ResetConsumed(token: Id)
    | ResetUser(token: Id)
    | ResetRevoked(token: Id)
    | ChangeSeen(epoch: nat, version: nat)
    | ChangeUser
    | ChangeRevoked

  datatype Sys = Sys(epoch: nat, version: nat, active: bool, owner: Option<nat>, sessions: seq<Session>, tokens: seq<Token>, actors: seq<Actor>)

  datatype Move =
    | VerifyPassword
    | LockForSignIn
    | CommitSignIn
    | ReadSession(session: Id)
    | ReadUserForRefresh
    | LockForRefresh
    | RevokeForRefresh
    | CommitRefresh
    | SignOut(session: Id)
    | RequestReset
    | ReadToken(token: Id)
    | ConsumeToken
    | WritePasswordForReset
    | RevokeAllForReset
    | CommitReset
    | VerifyCurrent
    | WritePasswordForChange
    | RevokeAllForChange
    | CommitChange
    | SetStatus(active: bool)
    | Abort

  /** The row re-read under the lock still shows the verified credential. */
  predicate Matches(s: Sys, epoch: nat, version: nat) {
    s.active && s.epoch == epoch && s.version == version
  }

  predicate NoneBusy(s: Sys) {
    forall i :: 0 <= i < |s.sessions| && !s.sessions[i].revoked ==> s.sessions[i].busy == None
  }

  predicate Enabled(s: Sys, a: nat, m: Move) {
    a < |s.actors| &&
    var me := s.actors[a];
    match m
    case VerifyPassword => me.Idle? && s.active
    case LockForSignIn => me.SignInSeen? && s.owner == None && Matches(s, me.epoch, me.version)
    case CommitSignIn => me.SignInLocked?
    case ReadSession(i) => me.Idle? && i < |s.sessions| && !s.sessions[i].revoked
    case ReadUserForRefresh => me.RefreshFound? && s.active
    case LockForRefresh => me.RefreshSeen? && s.owner == None && Matches(s, me.epoch, me.version)
    case RevokeForRefresh => me.RefreshLocked? && me.session < |s.sessions| && !s.sessions[me.session].revoked && s.sessions[me.session].busy == None
    case CommitRefresh => me.RefreshRevoked? && me.session < |s.sessions|
    case SignOut(i) => i < |s.sessions| && s.sessions[i].busy == None
    case RequestReset => s.active && forall t :: 0 <= t < |s.tokens| ==> s.tokens[t].busy == None
    case ReadToken(t) => me.Idle? && t < |s.tokens| && !s.tokens[t].used
    case ConsumeToken => me.ResetSeen? && me.token < |s.tokens| && !s.tokens[me.token].used && s.tokens[me.token].busy == None
    case WritePasswordForReset => me.ResetConsumed? && s.owner == None
    case RevokeAllForReset => me.ResetUser? && NoneBusy(s)
    case CommitReset => me.ResetRevoked? && me.token < |s.tokens|
    case VerifyCurrent => me.Idle? && s.active
    case WritePasswordForChange => me.ChangeSeen? && s.owner == None && Matches(s, me.epoch, me.version)
    case RevokeAllForChange => me.ChangeUser? && NoneBusy(s)
    case CommitChange => me.ChangeRevoked?
    case SetStatus(_) => s.owner == None
    case Abort => true
  }

  function Freed(o: Option<nat>, a: nat): Option<nat> {
    if o == Some(a) then None else o
  }

  /** The transaction ends: its row locks go, uncommitted updates with them. */
  function End(s: Sys, a: nat): (r: Sys)
    requires a < |s.actors|
    ensures |r.sessions| == |s.sessions| && forall i :: 0 <= i < |s.sessions| ==> r.sessions[i] == s.sessions[i].(busy := Freed(s.sessions[i].busy, a))
  {
    s.(owner := Freed(s.owner, a), actors := s.actors[a := Idle],
       sessions := seq(|s.sessions|, i requires 0 <= i < |s.sessions| => s.sessions[i].(busy := Freed(s.sessions[i].busy, a))),
       tokens := seq(|s.tokens|, i requires 0 <= i < |s.tokens| => s.tokens[i].(busy := Freed(s.tokens[i].busy, a))))
  }

  function At(s: Sys, a: nat, me: Actor): Sys
    requires a < |s.actors|
  {
    s.(actors := s.actors[a := me])
  }

  /** `UPDATE ... WHERE revokedAt IS NULL`: it holds every row it matched. */
  function HoldAll(s: Sys, a: nat): (r: Sys)
    ensures |r.sessions| == |s.sessions|
    ensures forall i :: 0 <= i < |s.sessions| ==> r.sessions[i] == if s.sessions[i].revoked then s.sessions[i] else s.sessions[i].(busy := Some(a))
  {
    s.(sessions := seq(|s.sessions|, i requires 0 <= i < |s.sessions| =>
         if s.sessions[i].revoked then s.sessions[i] else s.sessions[i].(busy := Some(a))))
  }

  /** The commit of a new password: exactly the sessions the revocation
      statement matched become revoked. */
  function NewPassword(s: Sys, a: nat): (r: Sys)
    ensures |r.sessions| == |s.sessions|
    ensures forall i :: 0 <= i < |s.sessions| ==> r.sessions[i] == if s.sessions[i].busy == Some(a) then s.sessions[i].(revoked := true) else s.sessions[i]
  {
    s.(epoch := s.epoch + 1, version := s.version + 1,
       sessions := seq(|s.sessions|, i requires 0 <= i < |s.sessions| =>
         if s.sessions[i].busy == Some(a) then s.sessions[i].(revoked := true) else s.sessions[i]))
  }

  function Do(s: Sys, a: nat, m: Move): Sys
    requires Enabled(s, a, m)
  {
    var me := s.actors[a];
    match m
    case VerifyPassword => At(s, a, SignInSeen(s.epoch, s.version))
    case LockForSignIn => At(s.(owner := Some(a)), a, SignInLocked)
    case CommitSignIn => End(s.(sessions := s.sessions + [Session(s.epoch, false, None, None)]), a)
    case ReadSession(i) => At(s, a, RefreshFound(i))
    case ReadUserForRefresh => At(s, a, RefreshSeen(me.session, s.epoch, s.version))
    case LockForRefresh => At(s.(owner := Some(a)), a, RefreshLocked(me.session))
    case RevokeForRefresh => At(s.(sessions := s.sessions[me.session := s.sessions[me.session].(busy := Some(a))]), a, RefreshRevoked(me.session))
    case CommitRefresh =>
      End(s.(sessions := s.sessions[me.session := s.sessions[me.session].(revoked := true)] + [Session(s.epoch, false, Some(me.session), None)]), a)
    case SignOut(i) => s.(sessions := s.sessions[i := s.sessions[i].(revoked := true)])
    case RequestReset =>
      s.(tokens := seq(|s.tokens|, t requires 0 <= t < |s.tokens| => s.tokens[t].(used := true)) + [Token(false, None)])
    case ReadToken(t) => At(s, a, ResetSeen(t))
    case ConsumeToken => At(s.(tokens := s.tokens[me.token := s.tokens[me.token].(busy := Some(a))]), a, ResetConsumed(me.token))
    case WritePasswordForReset => At(s.(owner := Some(a)), a, ResetUser(me.token))
    case RevokeAllForReset => At(HoldAll(s, a), a, ResetRevoked(me.token))
    case CommitReset =>
      var r := NewPassword(s, a);
      End(r.(tokens := r.tokens[me.token := r.tokens[me.token].(used := true)]), a)
    case VerifyCurrent => At(s, a, ChangeSeen(s.epoch, s.version))
    case WritePasswordForChange => At(s.(owner := Some(a)), a, ChangeUser)
    case RevokeAllForChange => At(HoldAll(s, a), a, ChangeRevoked)
    case CommitChange => End(NewPassword(s, a), a)
    case SetStatus(active) => s.(active := active, version := s.version + 1)
    case Abort => End(s, a)
  }

  // ----- the invariant -----

  predicate HasUser(me: Actor) {
    me.SignInLocked? || me.RefreshLocked? || me.RefreshRevoked? || me.ResetUser? || me.ResetRevoked? || me.ChangeUser? || me.ChangeRevoked?
  }

  predicate StillTrue(s: Sys, a: nat, me: Actor) {
    && (HasUser(me) ==> s.owner == Some(a))
    && (me.RefreshRevoked? ==> me.session < |s.sessions| && !s.sessions[me.session].revoked && s.sessions[me.session].busy == Some(a))
    && (me.ResetRevoked? || me.ChangeRevoked? ==> forall i :: 0 <= i < |s.sessions| && !s.sessions[i].revoked ==> s.sessions[i].busy == Some(a))
  }

  /** A session's row lock belongs to someone who has the user row as well. */
  predicate BusyOk(s: Sys, i: nat)
    requires i < |s.sessions|
  {
    s.sessions[i].busy.Some? && !s.sessions[i].revoked ==>
      var a := s.sessions[i].busy.value;
      a < |s.actors| && s.owner == Some(a) && (s.actors[a] == RefreshRevoked(i) || s.actors[a].ResetRevoked? || s.actors[a].ChangeRevoked?)
  }

  predicate SessionOk(s: Sys, i: nat)
    requires i < |s.sessions|
  {
    && (!s.sessions[i].revoked ==> s.sessions[i].epoch == s.epoch)
    && (s.sessions[i].parent.Some? ==> s.sessions[i].parent.value < i && s.sessions[s.sessions[i].parent.value].revoked)
  }

  predicate OneChild(sessions: seq<Session>) {
    forall i, j :: 0 <= i < j < |sessions| && sessions[i].parent.Some? ==> sessions[i].parent != sessions[j].parent
  }

  predicate SessionInv(s: Sys) {
    && (forall i :: 0 <= i < |s.sessions| ==> SessionOk(s, i) && BusyOk(s, i))
    && OneChild(s.sessions)
    && (forall a :: 0 <= a < |s.actors| ==> StillTrue(s, a, s.actors[a]))
  }

  predicate Commits(m: Move) {
    m.CommitReset? || m.CommitChange?
  }

  predicate Sessionless(m: Move) {
    !Commits(m) && !m.CommitSignIn? && !m.CommitRefresh? && !m.RevokeForRefresh? && !m.RevokeAllForReset? && !m.RevokeAllForChange? && !m.SignOut? && !m.Abort?
  }

  lemma OthersUnmoved(s: Sys, a: nat, m: Move)
    requires Enabled(s, a, m)
    ensures |Do(s, a, m).actors| == |s.actors| && forall b :: 0 <= b < |s.actors| && b != a ==> Do(s, a, m).actors[b] == s.actors[b]
  {
  }

  /** Moves that leave every session row alone. */
  lemma SessionlessKeeps(s: Sys, a: nat, m: Move)
    requires SessionInv(s) && Enabled(s, a, m) && Sessionless(m)
    ensures SessionInv(Do(s, a, m))
  {
    var r := Do(s, a, m);
    assert r.sessions == s.sessions && r.epoch == s.epoch;
    assert StillTrue(s, a, s.actors[a]);
    OthersUnmoved(s, a, m);
    forall i | 0 <= i < |r.sessions| ensures SessionOk(r, i) && BusyOk(r, i) {
      assert SessionOk(s, i) && BusyOk(s, i);
    }
    forall b | 0 <= b < |r.actors| ensures StillTrue(r, b, r.actors[b]) {
      assert StillTrue(s, b, s.actors[b]);
    }
  }

  lemma SignOutKeeps(s: Sys, a: nat, i: Id)
    requires SessionInv(s) && Enabled(s, a, SignOut(i))
    ensures SessionInv(Do(s, a, SignOut(i)))
  {
    var r := Do(s, a, SignOut(i));
    forall k | 0 <= k < |r.sessions| ensures SessionOk(r, k) && BusyOk(r, k) {
      assert SessionOk(s, k) && BusyOk(s, k);
    }
    forall b | 0 <= b < |r.actors| ensures StillTrue(r, b, r.actors[b]) {
      assert StillTrue(s, b, s.actors[b]);
    }
  }

  lemma RevokeForRefreshKeeps(s: Sys, a: nat)
    requires SessionInv(s) && Enabled(s, a, RevokeForRefresh)
    ensures SessionInv(Do(s, a, RevokeForRefresh))
  {
    var r := Do(s, a, RevokeForRefresh);
    assert StillTrue(s, a, s.actors[a]);
    forall k | 0 <= k < |r.sessions| ensures SessionOk(r, k) && BusyOk(r, k) {
      assert SessionOk(s, k) && BusyOk(s, k);
    }
    forall b | 0 <= b < |r.actors| ensures StillTrue(r, b, r.actors[b]) {
      assert StillTrue(s, b, s.actors[b]);
    }
  }

  lemma RevokeAllKeeps(s: Sys, a: nat, m: Move)
    requires SessionInv(s) && Enabled(s, a, m) && (m.RevokeAllForReset? || m.RevokeAllForChange?)
    ensures SessionInv(Do(s, a, m))
  {
    var r := Do(s, a, m);
    assert StillTrue(s, a, s.actors[a]);
    OthersUnmoved(s, a, m);
    forall k | 0 <= k < |r.sessions| ensures SessionOk(r, k) && BusyOk(r, k) {
      assert SessionOk(s, k) && BusyOk(s, k);
    }
    forall b | 0 <= b < |r.actors| ensures StillTrue(r, b, r.actors[b]) {
      assert StillTrue(s, b, s.actors[b]);
    }
  }

  /** Ending a transaction that leaves no unfinished rotation behind. */
  lemma EndKeeps(s: Sys, a: nat)
    requires a < |s.actors| && OneChild(s.sessions)
    requires forall i :: 0 <= i < |s.sessions| ==> SessionOk(s, i) && BusyOk(s, i)
    requires forall b :: 0 <= b < |s.actors| && b != a ==> StillTrue(s, b, s.actors[b])
    ensures SessionInv(End(s, a))
  {
    var r := End(s, a);
    forall k | 0 <= k < |r.sessions| ensures SessionOk(r, k) && BusyOk(r, k) {
      assert SessionOk(s, k) && BusyOk(s, k);
    }
    forall b | 0 <= b < |r.actors| ensures StillTrue(r, b, r.actors[b]) {
      if b != a { assert StillTrue(s, b, s.actors[b]); }
    }
  }

  lemma CommitSignInKeeps(s: Sys, a: nat)
    requires SessionInv(s) && Enabled(s, a, CommitSignIn)
    ensures SessionInv(Do(s, a, CommitSignIn))
  {
    var r := s.(sessions := s.sessions + [Session(s.epoch, false, None, None)]);
    assert StillTrue(s, a, s.actors[a]);
    forall k | 0 <= k < |r.sessions| ensures SessionOk(r, k) && BusyOk(r, k) {
      if k < |s.sessions| { assert SessionOk(s, k) && BusyOk(s, k); }
    }
    forall b | 0 <= b < |r.actors| && b != a ensures StillTrue(r, b, r.actors[b]) {
      assert StillTrue(s, b, s.actors[b]);
    }
    EndKeeps(r, a);
  }

  lemma CommitRefreshKeeps(s: Sys, a: nat)
    requires SessionInv(s) && Enabled(s, a, CommitRefresh)
    ensures SessionInv(Do(s, a, CommitRefresh))
  {
    var used := s.actors[a].session;
    assert StillTrue(s, a, s.actors[a]);
    var r := s.(sessions := s.sessions[used := s.sessions[used].(revoked := true)] + [Session(s.epoch, false, Some(used), None)]);
    forall k | 0 <= k < |r.sessions| ensures SessionOk(r, k) && BusyOk(r, k) {
      if k < |s.sessions| { assert SessionOk(s, k) && BusyOk(s, k); }
    }
    forall i | 0 <= i < |s.sessions| ensures s.sessions[i].parent != Some(used) {
      assert SessionOk(s, i);
    }
    forall b | 0 <= b < |r.actors| && b != a ensures StillTrue(r, b, r.actors[b]) {
      assert StillTrue(s, b, s.actors[b]);
    }
    EndKeeps(r, a);
  }

  /** The sessions the revocation statement held are all there are, so a
      committed password change leaves no session of the old password. */
  lemma NewPasswordKeeps(s: Sys, a: nat)
    requires SessionInv(s) && a < |s.actors| && (s.actors[a].ResetRevoked? || s.actors[a].ChangeRevoked?)
    ensures var r := NewPassword(s, a);
            && OneChild(r.sessions) && (forall i :: 0 <= i < |r.sessions| ==> SessionOk(r, i) && BusyOk(r, i))
            && (forall b :: 0 <= b < |r.actors| && b != a ==> StillTrue(r, b, r.actors[b]))
  {
    var r := NewPassword(s, a);
    assert StillTrue(s, a, s.actors[a]);
    forall k | 0 <= k < |r.sessions| ensures SessionOk(r, k) && BusyOk(r, k) {
      assert SessionOk(s, k) && BusyOk(s, k);
    }
    forall b | 0 <= b < |r.actors| && b != a ensures StillTrue(r, b, r.actors[b]) {
      assert StillTrue(s, b, s.actors[b]);
    }
  }

  lemma CommitPasswordKeeps(s: Sys, a: nat, m: Move)
    requires SessionInv(s) && Enabled(s, a, m) && Commits(m)
    ensures SessionInv(Do(s, a, m))
  {
    NewPasswordKeeps(s, a);
    var r := NewPassword(s, a);
    if m.CommitReset? {
      var t := s.actors[a].token;
      var r' := r.(tokens := r.tokens[t := r.tokens[t].(used := true)]);
      forall i | 0 <= i < |r'.sessions| ensures SessionOk(r', i) && BusyOk(r', i) {
        assert SessionOk(r, i) && BusyOk(r, i);
      }
      EndKeeps(r', a);
    } else {
      EndKeeps(r, a);
    }
  }

  lemma MoveKeeps(s: Sys, a: nat, m: Move)
    requires SessionInv(s) && Enabled(s, a, m)
    ensures SessionInv(Do(s, a, m))
  {
    if Sessionless(m) {
      SessionlessKeeps(s, a, m);
    } else if Commits(m) {
      CommitPasswordKeeps(s, a, m);
    } else {
      match m
      case SignOut(i) => SignOutKeeps(s, a, i);
      case RevokeForRefresh => RevokeForRefreshKeeps(s, a);
      case CommitSignIn => CommitSignInKeeps(s, a);
      case CommitRefresh => CommitRefreshKeeps(s, a);
      case Abort => EndKeeps(s, a);
      case _ => RevokeAllKeeps(s, a, m);
    }
  }

  // ----- runs -----

  /** An interleaving: at each step some transaction makes an enabled move. */
  ghost predicate Execution(states: seq<Sys>, steps: seq<(nat, Move)>) {
    && |states| == |steps| + 1
    && forall i {:trigger steps[i]} :: 0 <= i < |steps| ==>
         Enabled(states[i], steps[i].0, steps[i].1) && states[i + 1] == Do(states[i], steps[i].0, steps[i].1)
  }

  lemma {:induction false} ExecutionKeeps(states: seq<Sys>, steps: seq<(nat, Move)>, n: nat)
    requires Execution(states, steps) && SessionInv(states[0]) && n <= |steps|
    ensures SessionInv(states[n])
  {
    hide SessionInv, Enabled, Do;
    if n > 0 {
      ExecutionKeeps(states, steps, n - 1);
      MoveKeeps(states[n - 1], steps[n - 1].0, steps[n - 1].1);
    }
  }

  /** An account with no session yet and nothing running. */
  predicate Fresh(s: Sys) {
    s.sessions == [] && s.owner == None && forall a :: 0 <= a < |s.actors| ==> s.actors[a] == Idle
  }

  ghost predicate Reachable(s: Sys) {
    exists states: seq<Sys>, steps: seq<(nat, Move)> :: Execution(states, steps) && Fresh(states[0]) && states[|steps|] == s
  }

  lemma ReachableInv(s: Sys)
    requires Reachable(s)
    ensures SessionInv(s)
  {
    hide Enabled, Do;
    var states: seq<Sys>, steps: seq<(nat, Move)> :| Execution(states, steps) && Fresh(states[0]) && states[|steps|] == s;
    ExecutionKeeps(states, steps, |steps|);
  }

  /** The sign-in a session descends from. */
  function Root(sessions: seq<Session>, i: Id): Id
    requires i < |sessions|
    decreases i
  {
    match sessions[i].parent
    case None => i
    case Some(p) => if p < i then Root(sessions, p) else i
  }

  predicate Rotates(sessions: seq<Session>) {
    && OneChild(sessions)
    && forall i :: 0 <= i < |sessions| && sessions[i].parent.Some? ==> sessions[i].parent.value < i && sessions[sessions[i].parent.value].revoked
  }

  /** `i` is `j` or was rotated, step by step, into `j`. */
  predicate RotatedInto(sessions: seq<Session>, i: Id, j: Id)
    requires j < |sessions|
    decreases j
  {
    i == j || (sessions[j].parent.Some? && sessions[j].parent.value < j && RotatedInto(sessions, i, sessions[j].parent.value))
  }

  lemma {:induction false} RotatedIsRevoked(sessions: seq<Session>, i: Id, j: Id)
    requires Rotates(sessions) && j < |sessions| && i != j && RotatedInto(sessions, i, j)
    ensures i < j && sessions[i].revoked
    decreases j
  {
    var p := sessions[j].parent.value;
    if i != p { RotatedIsRevoked(sessions, i, p); }
  }

  /** The step after `p` on the way from `p` to `i`. */
  lemma {:induction false} NextOnTheWay(sessions: seq<Session>, p: Id, i: Id) returns (c: Id)
    requires Rotates(sessions) && i < |sessions| && p != i && RotatedInto(sessions, p, i)
    ensures c <= i && sessions[c].parent == Some(p) && RotatedInto(sessions, c, i)
    decreases i
  {
    var q := sessions[i].parent.value;
    if q == p {
      c := i;
    } else {
      c := NextOnTheWay(sessions, p, q);
    }
  }

  lemma NoSecondChild(sessions: seq<Session>, c: Id, j: Id)
    requires OneChild(sessions) && c < j < |sessions| && sessions[c].parent.Some?
    ensures sessions[c].parent != sessions[j].parent
  {
  }

  /** Two sessions of one chain: one was rotated into the other. */
  lemma {:induction false} ChainIsAPath(sessions: seq<Session>, i: Id, j: Id)
    requires Rotates(sessions) && i < j < |sessions| && Root(sessions, i) == Root(sessions, j)
    ensures RotatedInto(sessions, i, j)
    decreases i + j
  {
    RootIsEarlier(sessions, i);
    if sessions[j].parent.Some? {
      var p := sessions[j].parent.value;
      if i < p {
        ChainIsAPath(sessions, i, p);
      } else if p < i {
        ChainIsAPath(sessions, p, i);
        var c := NextOnTheWay(sessions, p, i);
        NoSecondChild(sessions, c, j);
      }
    }
  }

  lemma {:induction false} RootIsEarlier(sessions: seq<Session>, i: Id)
    requires i < |sessions|
    ensures Root(sessions, i) <= i
    decreases i
  {
    if sessions[i].parent.Some? && sessions[i].parent.value < i { RootIsEarlier(sessions, sessions[i].parent.value); }
  }

  /** In every committed state each live session was created under the current
      password, and each sign-in has at most one live session among all it was
      rotated into: a refresh token is exchanged at most once. */
  lemma SessionsAreCurrentAndSingle(s: Sys)
    requires Reachable(s)
    ensures forall i :: 0 <= i < |s.sessions| && !s.sessions[i].revoked ==> s.sessions[i].epoch == s.epoch
    ensures OneChild(s.sessions)
    ensures forall i: Id, j: Id :: i < j < |s.sessions| && !s.sessions[i].revoked && !s.sessions[j].revoked ==> Root(s.sessions, i) != Root(s.sessions, j)
  {
    hide Reachable, Root, StillTrue, BusyOk;
    ReachableInv(s);
    forall i | 0 <= i < |s.sessions|
      ensures !s.sessions[i].revoked ==> s.sessions[i].epoch == s.epoch
      ensures s.sessions[i].parent.Some? ==> s.sessions[i].parent.value < i && s.sessions[s.sessions[i].parent.value].revoked
    {
      assert SessionOk(s, i);
    }
    forall i: Id, j: Id | i < j < |s.sessions| && !s.sessions[i].revoked ensures Root(s.sessions, i) != Root(s.sessions, j) {
      if Root(s.sessions, i) == Root(s.sessions, j) {
        ChainIsAPath(s.sessions, i, j);
        RotatedIsRevoked(s.sessions, i, j);
      }
    }
  }

  /** A transaction that has written the new password is never stuck waiting
      for a session row: whoever could hold one would need the user row first. */
  lemma RevocationNeverWaits(s: Sys, a: nat)
    requires Reachable(s) && a < |s.actors|
    ensures s.actors[a].ResetUser? ==> Enabled(s, a, RevokeAllForReset)
    ensures s.actors[a].ChangeUser? ==> Enabled(s, a, RevokeAllForChange)
  {
    hide Reachable;
    ReachableInv(s);
    assert StillTrue(s, a, s.actors[a]);
    if s.actors[a].ResetUser? || s.actors[a].ChangeUser? {
      forall i | 0 <= i < |s.sessions| && !s.sessions[i].revoked ensures s.sessions[i].busy == None {
        assert BusyOk(s, i);
      }
    }
  }
}

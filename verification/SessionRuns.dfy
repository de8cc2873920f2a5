/** Transactions of the session protocol played to their end: what each comes to
    when nobody disturbs it, and that a reset token works once whoever does. */
module SessionRuns {
  import opened Rows
  import opened Sessions

  /** The state after one transaction made these moves, if it could. */
  function Play(s: Sys, a: nat, moves: seq<Move>): Option<Sys>
    decreases |moves|
  {
    if |moves| == 0 then Some(s)
    else if Enabled(s, a, moves[0]) then Play(Do(s, a, moves[0]), a, moves[1..])
    else None
  }

  lemma PlayOne(s: Sys, a: nat, moves: seq<Move>)
    requires |moves| > 0
    ensures Play(s, a, moves) == if Enabled(s, a, moves[0]) then Play(Do(s, a, moves[0]), a, moves[1..]) else None
  {
  }

  /** No row is locked and the caller has nothing under way. */
  predicate Quiet(s: Sys, a: nat) {
    && a < |s.actors| && s.actors[a] == Idle && s.owner == None
    && (forall i :: 0 <= i < |s.sessions| ==> s.sessions[i].busy == None) && (forall t :: 0 <= t < |s.tokens| ==> s.tokens[t].busy == None)
  }

  /** The end of a transaction that holds nothing but the user row. */
  lemma EndOfQuiet(s: Sys, a: nat)
    requires a < |s.actors| && s.owner == Some(a)
    requires (forall i :: 0 <= i < |s.sessions| ==> s.sessions[i].busy == None) && (forall t :: 0 <= t < |s.tokens| ==> s.tokens[t].busy == None)
    ensures End(s, a) == s.(owner := None, actors := s.actors[a := Idle])
  {
    assert End(s, a).sessions == s.sessions && End(s, a).tokens == s.tokens;
  }

  /** An active user with the right password gets a new live session. */
  lemma SignInAlone(s: Sys, a: nat)
    requires Quiet(s, a)
    ensures Play(s, a, [VerifyPassword, LockForSignIn, CommitSignIn]) ==
            if s.active then Some(s.(sessions := s.sessions + [Session(s.epoch, false, None, None)])) else None
  {
    hide End;
    if s.active {
      var seen := Do(s, a, VerifyPassword);
      var locked := Do(seen, a, LockForSignIn);
      var made := locked.(sessions := locked.sessions + [Session(s.epoch, false, None, None)]);
      EndOfQuiet(made, a);
      assert made.actors[a := Idle] == s.actors;
      PlayOne(locked, a, [CommitSignIn]);
      PlayOne(seen, a, [LockForSignIn, CommitSignIn]);
    }
  }

  /** A live session of an active user is exchanged for one new live session. */
  lemma RefreshAlone(s: Sys, a: nat, i: Id)
    requires Quiet(s, a) && i < |s.sessions|
    ensures Play(s, a, [ReadSession(i), ReadUserForRefresh, LockForRefresh, RevokeForRefresh, CommitRefresh]) ==
            if s.active && !s.sessions[i].revoked
            then Some(s.(sessions := s.sessions[i := s.sessions[i].(revoked := true)] + [Session(s.epoch, false, Some(i), None)]))
            else None
  {
    if !s.sessions[i].revoked {
      var found := Do(s, a, ReadSession(i));
      PlayOne(found, a, [ReadUserForRefresh, LockForRefresh, RevokeForRefresh, CommitRefresh]);
      if s.active {
        var seen := Do(found, a, ReadUserForRefresh);
        var locked := Do(seen, a, LockForRefresh);
        var revoked := Do(locked, a, RevokeForRefresh);
        var done := Do(revoked, a, CommitRefresh);
        PlayOne(seen, a, [LockForRefresh, RevokeForRefresh, CommitRefresh]);
        PlayOne(locked, a, [RevokeForRefresh, CommitRefresh]);
        PlayOne(revoked, a, [CommitRefresh]);
        assert done.actors == s.actors && done.tokens == s.tokens;
        assert done.sessions == s.sessions[i := s.sessions[i].(revoked := true)] + [Session(s.epoch, false, Some(i), None)];
      }
    }
  }

  /** Every session of the user is revoked. */
  function RevokedAll(sessions: seq<Session>): (r: seq<Session>)
    ensures |r| == |sessions| && forall i :: 0 <= i < |r| ==> r[i] == sessions[i].(revoked := true)
  {
    seq(|sessions|, i requires 0 <= i < |sessions| => sessions[i].(revoked := true))
  }

  /** A reset that has used its token and written the password. */
  function Written(s: Sys, a: nat, t: Id): Sys
    requires a < |s.actors| && t < |s.tokens|
  {
    s.(owner := Some(a), tokens := s.tokens[t := s.tokens[t].(busy := Some(a))], actors := s.actors[a := ResetUser(t)])
  }

  lemma ResetBegins(s: Sys, a: nat, t: Id)
    requires Quiet(s, a) && t < |s.tokens|
    ensures Play(s, a, [ReadToken(t), ConsumeToken, WritePasswordForReset, RevokeAllForReset, CommitReset]) ==
            if s.tokens[t].used then None else Play(Written(s, a, t), a, [RevokeAllForReset, CommitReset])
  {
    if !s.tokens[t].used {
      var seen := Do(s, a, ReadToken(t));
      var consumed := Do(seen, a, ConsumeToken);
      assert Do(consumed, a, WritePasswordForReset) == Written(s, a, t);
      PlayOne(seen, a, [ConsumeToken, WritePasswordForReset, RevokeAllForReset, CommitReset]);
      PlayOne(consumed, a, [WritePasswordForReset, RevokeAllForReset, CommitReset]);
    }
  }

  lemma ResetEnds(s: Sys, a: nat, t: Id)
    requires Quiet(s, a) && t < |s.tokens|
    ensures Play(Written(s, a, t), a, [RevokeAllForReset, CommitReset]) ==
            Some(s.(epoch := s.epoch + 1, version := s.version + 1, sessions := RevokedAll(s.sessions),
                    tokens := s.tokens[t := s.tokens[t].(used := true)]))
  {
    var written := Written(s, a, t);
    var revoked := Do(written, a, RevokeAllForReset);
    var done := Do(revoked, a, CommitReset);
    PlayOne(revoked, a, [CommitReset]);
    assert done.actors == s.actors && done.sessions == RevokedAll(s.sessions);
    assert done.tokens == s.tokens[t := s.tokens[t].(used := true)];
  }

  /** An unused reset token changes the password, revokes every session and is
      used up, whether or not the account is active. */
  lemma ResetAlone(s: Sys, a: nat, t: Id)
    requires Quiet(s, a) && t < |s.tokens|
    ensures Play(s, a, [ReadToken(t), ConsumeToken, WritePasswordForReset, RevokeAllForReset, CommitReset]) ==
            if s.tokens[t].used then None
            else Some(s.(epoch := s.epoch + 1, version := s.version + 1, sessions := RevokedAll(s.sessions),
                         tokens := s.tokens[t := s.tokens[t].(used := true)]))
  {
    hide Play, Quiet, Written, RevokedAll;
    ResetBegins(s, a, t);
    if !s.tokens[t].used { ResetEnds(s, a, t); }
  }

  /** A change that has written the password. */
  function Changed(s: Sys, a: nat): Sys
    requires a < |s.actors|
  {
    s.(owner := Some(a), actors := s.actors[a := ChangeUser])
  }

  lemma ChangeEnds(s: Sys, a: nat)
    requires Quiet(s, a)
    ensures Play(Changed(s, a), a, [RevokeAllForChange, CommitChange]) ==
            Some(s.(epoch := s.epoch + 1, version := s.version + 1, sessions := RevokedAll(s.sessions)))
  {
    var revoked := Do(Changed(s, a), a, RevokeAllForChange);
    var done := Do(revoked, a, CommitChange);
    PlayOne(revoked, a, [CommitChange]);
    assert done.actors == s.actors && done.sessions == RevokedAll(s.sessions) && done.tokens == s.tokens;
  }

  /** An active user who knows the current password changes it and ends every
      session. */
  lemma ChangeAlone(s: Sys, a: nat)
    requires Quiet(s, a)
    ensures Play(s, a, [VerifyCurrent, WritePasswordForChange, RevokeAllForChange, CommitChange]) ==
            if s.active then Some(s.(epoch := s.epoch + 1, version := s.version + 1, sessions := RevokedAll(s.sessions))) else None
  {
    if s.active {
      var seen := Do(s, a, VerifyCurrent);
      assert Do(seen, a, WritePasswordForChange) == Changed(s, a);
      PlayOne(seen, a, [WritePasswordForChange, RevokeAllForChange, CommitChange]);
      ChangeEnds(s, a);
    }
  }

  // ----- reset tokens -----

  /** A reset under way holds its token's row, which is not yet used. */
  predicate TokenHeld(s: Sys, a: nat)
    requires a < |s.actors|
  {
    var me := s.actors[a];
    me.ResetConsumed? || me.ResetUser? || me.ResetRevoked? ==>
      me.token < |s.tokens| && !s.tokens[me.token].used && s.tokens[me.token].busy == Some(a)
  }

  predicate TokenInv(s: Sys) {
    forall a :: 0 <= a < |s.actors| ==> TokenHeld(s, a)
  }

  /** A used token stays used, and one held by another transaction as it is. */
  lemma TokensAfter(s: Sys, a: nat, m: Move)
    requires TokenInv(s) && Enabled(s, a, m)
    ensures |s.tokens| <= |Do(s, a, m).tokens| && forall t :: 0 <= t < |s.tokens| && s.tokens[t].used ==> Do(s, a, m).tokens[t].used
    ensures forall t :: 0 <= t < |s.tokens| && s.tokens[t].busy.Some? && s.tokens[t].busy.value != a ==> Do(s, a, m).tokens[t] == s.tokens[t]
  {
    assert TokenHeld(s, a);
  }

  lemma OwnToken(s: Sys, a: nat, m: Move)
    requires TokenInv(s) && Enabled(s, a, m)
    ensures a < |Do(s, a, m).actors| && TokenHeld(Do(s, a, m), a)
    ensures m.CommitReset? ==> s.actors[a].token < |s.tokens| && !s.tokens[s.actors[a].token].used && Do(s, a, m).tokens[s.actors[a].token].used
  {
    assert TokenHeld(s, a);
  }

  lemma TokenMoveKeeps(s: Sys, a: nat, m: Move)
    requires TokenInv(s) && Enabled(s, a, m)
    ensures TokenInv(Do(s, a, m))
    ensures |s.tokens| <= |Do(s, a, m).tokens| && forall t :: 0 <= t < |s.tokens| && s.tokens[t].used ==> Do(s, a, m).tokens[t].used
    ensures m.CommitReset? ==> s.actors[a].token < |s.tokens| && !s.tokens[s.actors[a].token].used && Do(s, a, m).tokens[s.actors[a].token].used
  {
    hide Do, Enabled;
    OthersUnmoved(s, a, m);
    TokensAfter(s, a, m);
    OwnToken(s, a, m);
    var r := Do(s, a, m);
    forall b | 0 <= b < |r.actors| ensures TokenHeld(r, b) {
      assert b != a ==> TokenHeld(s, b);
    }
  }

  lemma {:induction false} UsedStaysUsed(states: seq<Sys>, steps: seq<(nat, Move)>, i: nat, j: nat, t: Id)
    requires Execution(states, steps) && TokenInv(states[0]) && i <= j <= |steps|
    requires t < |states[i].tokens| && states[i].tokens[t].used
    ensures t < |states[j].tokens| && states[j].tokens[t].used
    decreases j
  {
    hide Enabled, Do, TokenInv;
    if i < j {
      UsedStaysUsed(states, steps, i, j - 1, t);
      TokensKept(states, steps, j - 1);
      TokenMoveKeeps(states[j - 1], steps[j - 1].0, steps[j - 1].1);
    }
  }

  lemma {:induction false} TokensKept(states: seq<Sys>, steps: seq<(nat, Move)>, n: nat)
    requires Execution(states, steps) && TokenInv(states[0]) && n <= |steps|
    ensures TokenInv(states[n])
  {
    hide Enabled, Do, TokenInv;
    if n > 0 {
      TokensKept(states, steps, n - 1);
      TokenMoveKeeps(states[n - 1], steps[n - 1].0, steps[n - 1].1);
    }
  }

  lemma FreshTokens(s: Sys)
    requires Fresh(s)
    ensures TokenInv(s)
  {
  }

  /** Whatever is interleaved, a reset token changes the password at most once. */
  lemma ResetTokenOnce(states: seq<Sys>, steps: seq<(nat, Move)>, i: nat, j: nat)
    requires Execution(states, steps) && Fresh(states[0]) && i < j < |steps| && steps[i].1 == CommitReset && steps[j].1 == CommitReset
    ensures steps[i].0 < |states[i].actors| && steps[j].0 < |states[j].actors|
    ensures var (x, y) := (states[i].actors[steps[i].0], states[j].actors[steps[j].0]);
            x.ResetRevoked? && y.ResetRevoked? && x.token != y.token
  {
    FreshTokens(states[0]);
    hide TokenInv, Do;
    TokensKept(states, steps, i);
    TokensKept(states, steps, j);
    TokenMoveKeeps(states[i], steps[i].0, CommitReset);
    TokenMoveKeeps(states[j], steps[j].0, CommitReset);
    var t := states[i].actors[steps[i].0].token;
    UsedStaysUsed(states, steps, i + 1, j, t);
  }
}

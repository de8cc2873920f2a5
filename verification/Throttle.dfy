/** The rate-limit script: one expiring counter and one expiring block per key,
    read and written atomically on every request. Times are milliseconds. */
module Throttle {
  import opened Rows

  datatype Hits = Hits(count: nat, born: int)

  /** `hits` expires one ttl after it is born; `block` holds its expiry. */
  datatype State = State(hits: Option<Hits>, block: Option<int>)

  type Span = x: int | 0 < x witness 1

  datatype Limits = Limits(ttl: Span, limit: nat, duration: int)

  datatype Answer = Answer(hits: nat, expire: int, blocked: bool, blockExpire: int)

  /** A key is there through the very millisecond it expires at, with no time
      to live left; it is gone once the clock has passed it. */
  predicate Present(expiry: int, now: int) {
    now <= expiry
  }

  predicate LiveHits(s: State, l: Limits, now: int) {
    s.hits.Some? && Present(s.hits.value.born + l.ttl, now)
  }

  /** The block still has time to live. */
  predicate LiveBlock(s: State, now: int) {
    s.block.Some? && s.block.value - now > 0
  }

  function BlockFor(l: Limits): Span {
    if l.duration <= 0 then l.ttl else l.duration
  }

  /** The block is set only if its key is not there. */
  function Blocked(s: State, l: Limits, now: int): int {
    if s.block.Some? && Present(s.block.value, now) then s.block.value else now + BlockFor(l)
  }

  function Increment(s: State, l: Limits, now: int): (State, Answer) {
    if LiveBlock(s, now) then
      (s, if LiveHits(s, l, now) then Answer(s.hits.value.count, s.hits.value.born + l.ttl - now, true, s.block.value - now)
          else Answer(0, -2, true, s.block.value - now))
    else
      var h := if LiveHits(s, l, now) then Hits(s.hits.value.count + 1, s.hits.value.born) else Hits(1, now);
      if h.count > l.limit then
        (State(Some(h), Some(Blocked(s, l, now))), Answer(h.count, h.born + l.ttl - now, true, Blocked(s, l, now) - now))
      else
        (s.(hits := Some(h)), Answer(h.count, h.born + l.ttl - now, false, 0))
  }

  /** The script as Redis runs it, command by command. */
  class Limiter {
    var hits: Option<Hits>
    var block: Option<int>

    function Contents(): State
      reads this
    {
      State(hits, block)
    }

    constructor ()
      ensures Contents() == State(None, None)
    {
      hits, block := None, None;
    }

    method Run(l: Limits, now: int) returns (r: Answer)
      modifies this
      ensures (Contents(), r) == Increment(old(Contents()), l, now)
    {
      if block.Some? && block.value - now > 0 {
        var count, expire := 0, -2;
        if hits.Some? && now <= hits.value.born + l.ttl { count, expire := hits.value.count, hits.value.born + l.ttl - now; }
        return Answer(count, expire, true, block.value - now);
      }
      if hits == None || now > hits.value.born + l.ttl {
        hits := Some(Hits(1, now));
      } else {
        hits := Some(hits.value.(count := hits.value.count + 1));
      }
      var expire := hits.value.born + l.ttl - now;
      if hits.value.count > l.limit {
        var duration := l.duration;
        if duration <= 0 { duration := l.ttl; }
        if block == None || now > block.value { block := Some(now + duration); }
        return Answer(hits.value.count, expire, true, block.value - now);
      }
      return Answer(hits.value.count, expire, false, 0);
    }
  }

  // ----- request histories -----

  /** A request that was let through, and the lifetime of the counter it fell in. */
  datatype Admission = Admission(at: int, born: int)

  datatype History = History(state: State, admitted: seq<Admission>)

  function Serve(l: Limits, times: seq<int>): History {
    if |times| == 0 then History(State(None, None), [])
    else
      var h := Serve(l, times[..|times| - 1]);
      var now := times[|times| - 1];
      var (s, a) := Increment(h.state, l, now);
      History(s, if a.blocked || s.hits == None then h.admitted else h.admitted + [Admission(now, s.hits.value.born)])
  }

  predicate InOrder(times: seq<int>) {
    forall i, j :: 0 <= i < j < |times| ==> times[i] <= times[j]
  }

  function CountBorn(admitted: seq<Admission>, born: int): nat {
    if |admitted| == 0 then 0
    else CountBorn(admitted[..|admitted| - 1], born) + if admitted[|admitted| - 1].born == born then 1 else 0
  }

  function CountWithin(admitted: seq<Admission>, from: int, to: int): nat {
    if |admitted| == 0 then 0
    else CountWithin(admitted[..|admitted| - 1], from, to) + if from <= admitted[|admitted| - 1].at < to then 1 else 0
  }

  predicate InLifetime(l: Limits, admitted: seq<Admission>) {
    forall i :: 0 <= i < |admitted| ==> admitted[i].born <= admitted[i].at <= admitted[i].born + l.ttl
  }

  /** Lifetimes follow each other more than one ttl apart. */
  predicate Spaced(l: Limits, admitted: seq<Admission>) {
    forall i, j :: 0 <= i < j < |admitted| ==> admitted[i].born == admitted[j].born || admitted[i].born + l.ttl < admitted[j].born
  }

  ghost predicate Quotas(l: Limits, admitted: seq<Admission>) {
    forall b: int :: CountBorn(admitted, b) <= l.limit
  }

  predicate UpTo(l: Limits, admitted: seq<Admission>, born: int) {
    forall i :: 0 <= i < |admitted| ==> admitted[i].born == born || admitted[i].born + l.ttl < born
  }

  function Least(a: nat, b: nat): nat { if a < b then a else b }

  /** Each lifetime lets through what it counts, up to the limit. */
  ghost predicate HistoryOk(l: Limits, h: History, now: int) {
    && InLifetime(l, h.admitted) && Spaced(l, h.admitted) && Quotas(l, h.admitted)
    && match h.state.hits
       case None => h.admitted == []
       case Some(c) => c.born <= now && c.count >= 1 && UpTo(l, h.admitted, c.born) && CountBorn(h.admitted, c.born) == Least(c.count, l.limit)
  }

  lemma {:induction false} NotBornYet(admitted: seq<Admission>, born: int)
    requires forall i :: 0 <= i < |admitted| ==> admitted[i].born != born
    ensures CountBorn(admitted, born) == 0
  {
    if |admitted| > 0 { NotBornYet(admitted[..|admitted| - 1], born); }
  }

  lemma BornAppend(admitted: seq<Admission>, a: Admission, born: int)
    ensures CountBorn(admitted + [a], born) == CountBorn(admitted, born) + if a.born == born then 1 else 0
  {
    assert (admitted + [a])[..|admitted|] == admitted;
  }

  lemma AppendQuotas(l: Limits, admitted: seq<Admission>, a: Admission)
    requires Quotas(l, admitted) && CountBorn(admitted, a.born) < l.limit
    ensures Quotas(l, admitted + [a]) && CountBorn(admitted + [a], a.born) == CountBorn(admitted, a.born) + 1
  {
    hide CountBorn;
    BornAppend(admitted, a, a.born);
    forall b: int ensures CountBorn(admitted + [a], b) <= l.limit {
      BornAppend(admitted, a, b);
    }
  }

  lemma AppendOk(l: Limits, admitted: seq<Admission>, a: Admission)
    requires InLifetime(l, admitted) && Spaced(l, admitted) && Quotas(l, admitted) && UpTo(l, admitted, a.born)
    requires a.born <= a.at <= a.born + l.ttl && CountBorn(admitted, a.born) < l.limit
    ensures InLifetime(l, admitted + [a]) && Spaced(l, admitted + [a]) && Quotas(l, admitted + [a]) && UpTo(l, admitted + [a], a.born)
    ensures CountBorn(admitted + [a], a.born) == CountBorn(admitted, a.born) + 1
  {
    hide CountBorn, Quotas;
    AppendQuotas(l, admitted, a);
  }

  /** A counter born after the old one expired starts a lifetime of its own. */
  lemma NewLifetime(l: Limits, h: History, before: int, now: int)
    requires HistoryOk(l, h, before) && before <= now && !LiveHits(h.state, l, now)
    ensures UpTo(l, h.admitted, now) && CountBorn(h.admitted, now) == 0
  {
    NotBornYet(h.admitted, now);
  }

  lemma ServeOne(l: Limits, h: History, before: int, now: int)
    requires HistoryOk(l, h, before) && before <= now
    ensures var (s, a) := Increment(h.state, l, now);
            HistoryOk(l, History(s, if a.blocked || s.hits == None then h.admitted else h.admitted + [Admission(now, s.hits.value.born)]), now)
  {
    hide InLifetime, Spaced, Quotas, UpTo, CountBorn;
    var (s, a) := Increment(h.state, l, now);
    if !LiveBlock(h.state, now) {
      if !LiveHits(h.state, l, now) { NewLifetime(l, h, before, now); }
      if !a.blocked { AppendOk(l, h.admitted, Admission(now, s.hits.value.born)); }
    }
  }

  lemma {:induction false} ServeOk(l: Limits, times: seq<int>)
    requires InOrder(times)
    ensures |times| > 0 ==> HistoryOk(l, Serve(l, times), times[|times| - 1])
    ensures |times| == 0 ==> Serve(l, times) == History(State(None, None), [])
  {
    if |times| > 0 {
      var n := |times| - 1;
      ServeOk(l, times[..n]);
      var before := if n > 0 then times[n - 1] else times[n];
      assert HistoryOk(l, Serve(l, times[..n]), before);
      ServeOne(l, Serve(l, times[..n]), before, times[n]);
    }
  }

  // ----- blocks -----

  /** What the request at place `i` of the sequence is told. */
  function AnswerTo(l: Limits, times: seq<int>, i: nat): Answer
    requires i < |times|
  {
    Increment(Serve(l, times[..i]).state, l, times[i]).1
  }

  lemma ServeNext(l: Limits, times: seq<int>, i: nat)
    requires i < |times|
    ensures Serve(l, times[..i + 1]).state == Increment(Serve(l, times[..i]).state, l, times[i]).0
  {
    assert times[..i + 1][..i] == times[..i];
  }

  lemma {:induction false} BlockStays(l: Limits, times: seq<int>, i: nat, j: nat)
    requires InOrder(times) && i < j < |times| && LiveBlock(Serve(l, times[..i + 1]).state, times[j])
    ensures Serve(l, times[..j]).state == Serve(l, times[..i + 1]).state
    decreases j
  {
    hide Serve;
    if i + 1 < j {
      BlockStays(l, times, i, j - 1);
      ServeNext(l, times, j - 1);
    }
  }

  /** Whoever is told to wait is refused until that time is up, with everybody
      else on the key, and a refusal tells a full block's wait unless it comes
      while another block runs. */
  lemma BlockedWhileLive(l: Limits, times: seq<int>, i: nat, j: nat)
    requires InOrder(times) && i < j < |times|
    ensures times[j] < times[i] + AnswerTo(l, times, i).blockExpire ==>
              && AnswerTo(l, times, j).blocked
              && times[j] + AnswerTo(l, times, j).blockExpire == times[i] + AnswerTo(l, times, i).blockExpire
    ensures AnswerTo(l, times, i).blocked ==>
              AnswerTo(l, times, i).blockExpire == if Serve(l, times[..i]).state.block.Some? && Present(Serve(l, times[..i]).state.block.value, times[i])
                                                   then Serve(l, times[..i]).state.block.value - times[i]
                                                   else if l.duration > 0 then l.duration else l.ttl
  {
    hide Serve;
    ServeNext(l, times, i);
    if times[j] < times[i] + AnswerTo(l, times, i).blockExpire { BlockStays(l, times, i, j); }
  }

  /** A block that is stored was told to the request that set it. */
  lemma {:induction false} BlockWasTold(l: Limits, times: seq<int>)
    ensures var s := Serve(l, times).state;
            s.block.Some? ==> exists k :: 0 <= k < |times| && AnswerTo(l, times, k).blocked
                                          && times[k] + AnswerTo(l, times, k).blockExpire == s.block.value
  {
    hide InOrder;
    if |times| > 0 {
      var n := |times| - 1;
      var before := times[..n];
      BlockWasTold(l, before);
      forall k | 0 <= k < n ensures AnswerTo(l, times, k) == AnswerTo(l, before, k) && times[k] == before[k] {
        assert before[..k] == times[..k];
      }
      assert AnswerTo(l, times, n) == Increment(Serve(l, before).state, l, times[n]).1;
    }
  }

  /** A refusal that no earlier wait reaches starts a block of the configured
      length, or of one counter lifetime where none is configured. */
  lemma FullBlock(l: Limits, times: seq<int>, i: nat)
    requires i < |times| && AnswerTo(l, times, i).blocked
    requires forall k :: 0 <= k < i && AnswerTo(l, times, k).blocked ==> times[k] + AnswerTo(l, times, k).blockExpire < times[i]
    ensures AnswerTo(l, times, i).blockExpire == if l.duration > 0 then l.duration else l.ttl
  {
    var before := times[..i];
    BlockWasTold(l, before);
    forall k | 0 <= k < i ensures AnswerTo(l, times, k) == AnswerTo(l, before, k) && times[k] == before[k] {
      assert before[..k] == times[..k];
    }
  }

  /** A request is refused exactly while a block runs or when the counter's
      lifetime it falls in has already let the limit through. */
  lemma RefusedExactly(l: Limits, times: seq<int>, now: int)
    requires InOrder(times + [now])
    ensures var h := Serve(l, times);
            AnswerTo(l, times + [now], |times|).blocked <==>
            || LiveBlock(h.state, now)
            || l.limit == 0
            || (LiveHits(h.state, l, now) && CountBorn(h.admitted, h.state.hits.value.born) == l.limit)
  {
    hide CountBorn, Serve;
    var all := times + [now];
    assert all[..|times|] == times;
    forall i, j | 0 <= i < j < |times| ensures times[i] <= times[j] {
      assert all[i] <= all[j];
    }
    ServeOk(l, times);
  }

  lemma {:induction false} TwoLifetimes(admitted: seq<Admission>, from: int, to: int, b: int, c: int)
    requires forall i :: 0 <= i < |admitted| && from <= admitted[i].at < to ==> admitted[i].born == b || admitted[i].born == c
    ensures CountWithin(admitted, from, to) <= CountBorn(admitted, b) + CountBorn(admitted, c)
  {
    if |admitted| > 0 { TwoLifetimes(admitted[..|admitted| - 1], from, to, b, c); }
  }

  lemma {:induction false} NoneWithin(admitted: seq<Admission>, from: int, to: int)
    requires forall i :: 0 <= i < |admitted| ==> !(from <= admitted[i].at < to)
    ensures CountWithin(admitted, from, to) == 0
  {
    if |admitted| > 0 { NoneWithin(admitted[..|admitted| - 1], from, to); }
  }

  /** Between the first and the last lifetime an interval meets there is no
      room for a third. */
  lemma OnlyTwo(l: Limits, admitted: seq<Admission>, from: int, b: int, c: int)
    requires InLifetime(l, admitted) && Spaced(l, admitted)
    requires exists k :: 0 <= k < |admitted| && from <= admitted[k].at < from + l.ttl && admitted[k].born == b
    requires exists k :: 0 <= k < |admitted| && from <= admitted[k].at < from + l.ttl && admitted[k].born == c
    requires forall k :: 0 <= k < |admitted| && from <= admitted[k].at < from + l.ttl ==> b <= admitted[k].born <= c
    ensures forall k :: 0 <= k < |admitted| && from <= admitted[k].at < from + l.ttl ==> admitted[k].born == b || admitted[k].born == c
  {
    var i :| 0 <= i < |admitted| && from <= admitted[i].at < from + l.ttl && admitted[i].born == b;
    var j :| 0 <= j < |admitted| && from <= admitted[j].at < from + l.ttl && admitted[j].born == c;
    forall k | 0 <= k < |admitted| && from <= admitted[k].at < from + l.ttl ensures admitted[k].born == b || admitted[k].born == c {
      Apart(l, admitted, i, k);
      Apart(l, admitted, k, j);
    }
  }

  lemma Apart(l: Limits, admitted: seq<Admission>, i: nat, k: nat)
    requires Spaced(l, admitted) && i < |admitted| && k < |admitted| && admitted[i].born <= admitted[k].born
    ensures admitted[i].born == admitted[k].born || admitted[i].born + l.ttl < admitted[k].born
  {
  }

  /** One lifetime of the counter lets at most `limit` requests through; a
      half-open interval of length ttl meets at most two lifetimes, so it sees
      at most twice the limit. */
  lemma AtMostTwiceTheLimit(l: Limits, times: seq<int>, from: int)
    requires InOrder(times)
    ensures var admitted := Serve(l, times).admitted;
            && (forall b: int :: CountBorn(admitted, b) <= l.limit)
            && CountWithin(admitted, from, from + l.ttl) <= 2 * l.limit
  {
    hide CountWithin, Serve;
    ServeOk(l, times);
    var admitted := Serve(l, times).admitted;
    if i :| 0 <= i < |admitted| && from <= admitted[i].at < from + l.ttl {
      var b := Earliest(admitted, from, from + l.ttl, i);
      var c := Latest(admitted, from, from + l.ttl, i);
      OnlyTwo(l, admitted, from, b, c);
      TwoLifetimes(admitted, from, from + l.ttl, b, c);
    } else {
      NoneWithin(admitted, from, from + l.ttl);
    }
  }

  lemma {:induction false} Earliest(admitted: seq<Admission>, from: int, to: int, i: nat) returns (b: int)
    requires i < |admitted| && from <= admitted[i].at < to
    ensures exists k :: 0 <= k < |admitted| && from <= admitted[k].at < to && admitted[k].born == b
    ensures forall k :: 0 <= k < |admitted| && from <= admitted[k].at < to ==> b <= admitted[k].born
    decreases |admitted|
  {
    var n := |admitted| - 1;
    if k :| 0 <= k < n && from <= admitted[k].at < to {
      assert admitted[..n][k] == admitted[k];
      b := Earliest(admitted[..n], from, to, k);
      var w :| 0 <= w < n && from <= admitted[..n][w].at < to && admitted[..n][w].born == b;
      assert admitted[w].born == b;
      if from <= admitted[n].at < to && admitted[n].born < b { b := admitted[n].born; }
    } else {
      b := admitted[i].born;
    }
  }

  lemma {:induction false} Latest(admitted: seq<Admission>, from: int, to: int, i: nat) returns (b: int)
    requires i < |admitted| && from <= admitted[i].at < to
    ensures exists k :: 0 <= k < |admitted| && from <= admitted[k].at < to && admitted[k].born == b
    ensures forall k :: 0 <= k < |admitted| && from <= admitted[k].at < to ==> admitted[k].born <= b
    decreases |admitted|
  {
    var n := |admitted| - 1;
    if k :| 0 <= k < n && from <= admitted[k].at < to {
      assert admitted[..n][k] == admitted[k];
      b := Latest(admitted[..n], from, to, k);
      var w :| 0 <= w < n && from <= admitted[..n][w].at < to && admitted[..n][w].born == b;
      assert admitted[w].born == b;
      if from <= admitted[n].at < to && admitted[n].born > b { b := admitted[n].born; }
    } else {
      b := admitted[i].born;
    }
  }
}

/** A bounded pool of workers mapping a list: they share one next index and one
    result array, and interleave wherever the mapper is awaited. A mapper that
    throws ends its worker and rejects the whole map, while the others work on. */
module WorkerPool {
  import opened Rows

  datatype Worker = AtLoop | Mapping(index: nat) | Left | Threw(index: nat)

  /** `calls` lists the items the mapper has been called on, in order. */
  datatype Pool<R> = Pool(nextIndex: nat, results: seq<Option<R>>, workers: seq<Worker>, calls: seq<nat>)

  function Least(a: nat, b: nat): nat { if a < b then a else b }

  function Start<R>(items: nat, concurrency: nat): Pool<R> {
    Pool(0, seq(items, _ => None), seq(Least(concurrency, items), _ => AtLoop), [])
  }

  predicate Stopped(w: Worker) {
    w.Left? || w.Threw?
  }

  /** A worker moves: it leaves, it claims the next item, or its mapper settles. */
  predicate CanMove<R>(p: Pool<R>, w: nat) {
    w < |p.workers| && !Stopped(p.workers[w]) && (p.workers[w].Mapping? ==> p.workers[w].index < |p.results|)
  }

  function Move<T, R>(p: Pool<R>, items: seq<T>, mapper: T -> Result<R>, w: nat): Pool<R>
    requires CanMove(p, w) && |p.results| == |items|
  {
    match p.workers[w]
    case Mapping(i) =>
      (match mapper(items[i])
       case Ok(value) => p.(results := p.results[i := Some(value)], workers := p.workers[w := AtLoop])
       case Err(_) => p.(workers := p.workers[w := Threw(i)]))
    case _ =>
      if p.nextIndex < |items|
      then p.(nextIndex := p.nextIndex + 1, calls := p.calls + [p.nextIndex], workers := p.workers[w := Mapping(p.nextIndex)])
      else p.(workers := p.workers[w := Left])
  }

  /** The item a worker claimed and has not delivered. */
  function InHand(w: Worker): Option<nat> {
    match w
    case Mapping(i) => Some(i)
    case Threw(i) => Some(i)
    case _ => None
  }

  predicate HeldBy(workers: seq<Worker>, i: nat) {
    exists w :: 0 <= w < |workers| && InHand(workers[w]) == Some(i)
  }

  predicate Distinct(workers: seq<Worker>) {
    forall v, w :: 0 <= v < w < |workers| && InHand(workers[v]).Some? ==> InHand(workers[v]) != InHand(workers[w])
  }

  predicate WorkerOk<T, R>(p: Pool<R>, items: seq<T>, mapper: T -> Result<R>, w: Worker)
    requires |p.results| == |items| && p.nextIndex <= |items|
  {
    && (InHand(w).Some? ==> InHand(w).value < p.nextIndex && p.results[InHand(w).value] == None)
    && (w.Threw? ==> mapper(items[w.index]).Err?)
    && (w.Left? ==> p.nextIndex == |items|)
  }

  predicate ItemOk<T, R(==)>(p: Pool<R>, items: seq<T>, mapper: T -> Result<R>, i: nat)
    requires i < |p.results| == |items|
  {
    && (p.results[i].Some? ==> mapper(items[i]) == Ok(p.results[i].value))
    && (p.results[i] == None && i < p.nextIndex ==> HeldBy(p.workers, i))
    && (i >= p.nextIndex ==> p.results[i] == None)
  }

  /** Items below the next index are mapped or in one worker's hands; a worker
      leaves only when there is nothing left to claim. */
  ghost predicate PoolInv<T, R(!new)>(p: Pool<R>, items: seq<T>, mapper: T -> Result<R>, concurrency: nat) {
    && |p.results| == |items| && p.nextIndex <= |items| && |p.workers| == Least(concurrency, |items|)
    && p.calls == seq(p.nextIndex, i => i)
    && (forall w :: 0 <= w < |p.workers| ==> WorkerOk(p, items, mapper, p.workers[w]))
    && Distinct(p.workers)
    && (forall i :: 0 <= i < |items| ==> ItemOk(p, items, mapper, i))
  }

  /** One worker's place changes; what the others hold stays held. */
  lemma StillHeld(workers: seq<Worker>, w: nat, x: Worker, i: nat)
    requires w < |workers| && HeldBy(workers, i) && InHand(workers[w]) != Some(i)
    ensures HeldBy(workers[w := x], i)
  {
    var v :| 0 <= v < |workers| && InHand(workers[v]) == Some(i);
    assert InHand(workers[w := x][v]) == Some(i);
  }

  lemma NowHeld(workers: seq<Worker>, w: nat, x: Worker)
    requires w < |workers| && InHand(x).Some?
    ensures HeldBy(workers[w := x], InHand(x).value)
  {
    assert InHand(workers[w := x][w]) == InHand(x);
  }

  lemma ItemStaysOk<T, R(!new)>(p: Pool<R>, items: seq<T>, mapper: T -> Result<R>, concurrency: nat, w: nat, i: nat)
    requires PoolInv(p, items, mapper, concurrency) && CanMove(p, w) && i < |items|
    ensures ItemOk(Move(p, items, mapper, w), items, mapper, i)
  {
    hide Distinct, HeldBy;
    var q := Move(p, items, mapper, w);
    assert WorkerOk(p, items, mapper, p.workers[w]) && ItemOk(p, items, mapper, i);
    if InHand(q.workers[w]) == Some(i) {
      NowHeld(p.workers, w, q.workers[w]);
    } else if i < p.nextIndex && p.results[i] == None && InHand(p.workers[w]) != Some(i) {
      StillHeld(p.workers, w, q.workers[w], i);
    }
  }

  lemma WorkersStayOk<T, R(!new)>(p: Pool<R>, items: seq<T>, mapper: T -> Result<R>, concurrency: nat, w: nat, v: nat)
    requires PoolInv(p, items, mapper, concurrency) && CanMove(p, w) && v < |p.workers|
    ensures var q := Move(p, items, mapper, w);
      |q.workers| == |p.workers| && |q.results| == |items| && q.nextIndex <= |items| && WorkerOk(q, items, mapper, q.workers[v])
  {
    hide HeldBy;
    assert WorkerOk(p, items, mapper, p.workers[w]) && WorkerOk(p, items, mapper, p.workers[v]);
    if InHand(p.workers[w]).Some? && v != w {
      assert InHand(p.workers[w]) != InHand(p.workers[v]);
    }
    assert p.nextIndex < |items| ==> ItemOk(p, items, mapper, p.nextIndex);
  }

  lemma MoveKeeps<T, R(!new)>(p: Pool<R>, items: seq<T>, mapper: T -> Result<R>, concurrency: nat, w: nat)
    requires PoolInv(p, items, mapper, concurrency) && CanMove(p, w)
    ensures PoolInv(Move(p, items, mapper, w), items, mapper, concurrency)
  {
    hide ItemOk, HeldBy;
    var q := Move(p, items, mapper, w);
    assert q.calls == seq(q.nextIndex, i => i);
    forall i | 0 <= i < |items| ensures ItemOk(q, items, mapper, i) { ItemStaysOk(p, items, mapper, concurrency, w, i); }
    forall v | 0 <= v < |q.workers| ensures WorkerOk(q, items, mapper, q.workers[v]) { WorkersStayOk(p, items, mapper, concurrency, w, v); }
  }

  // ----- schedules -----

  predicate Schedule<T, R>(p: Pool<R>, items: seq<T>, mapper: T -> Result<R>, moves: seq<nat>)
    requires |p.results| == |items|
    decreases |moves|
  {
    |moves| > 0 ==> CanMove(p, moves[0]) && Schedule(Move(p, items, mapper, moves[0]), items, mapper, moves[1..])
  }

  function After<T, R>(p: Pool<R>, items: seq<T>, mapper: T -> Result<R>, moves: seq<nat>): Pool<R>
    requires |p.results| == |items| && Schedule(p, items, mapper, moves)
    decreases |moves|
  {
    if |moves| == 0 then p else After(Move(p, items, mapper, moves[0]), items, mapper, moves[1..])
  }

  lemma {:induction false} ScheduleKeeps<T, R(!new)>(p: Pool<R>, items: seq<T>, mapper: T -> Result<R>, concurrency: nat, moves: seq<nat>)
    requires PoolInv(p, items, mapper, concurrency) && Schedule(p, items, mapper, moves)
    ensures PoolInv(After(p, items, mapper, moves), items, mapper, concurrency)
    decreases |moves|
  {
    if |moves| > 0 {
      MoveKeeps(p, items, mapper, concurrency, moves[0]);
      ScheduleKeeps(Move(p, items, mapper, moves[0]), items, mapper, concurrency, moves[1..]);
    }
  }

  lemma StartOk<T, R(!new)>(items: seq<T>, mapper: T -> Result<R>, concurrency: nat)
    ensures PoolInv(Start<R>(|items|, concurrency), items, mapper, concurrency)
  {
    assert Start<R>(|items|, concurrency).calls == seq(0, i => i);
  }

  function BusyCount(workers: seq<Worker>): nat {
    if |workers| == 0 then 0 else BusyCount(workers[..|workers| - 1]) + if workers[|workers| - 1].Mapping? then 1 else 0
  }

  lemma {:induction false} BusyIsBounded(workers: seq<Worker>)
    ensures BusyCount(workers) <= |workers|
  {
    if |workers| > 0 { BusyIsBounded(workers[..|workers| - 1]); }
  }

  predicate AllStopped<R>(p: Pool<R>) {
    forall w :: 0 <= w < |p.workers| ==> Stopped(p.workers[w])
  }

  /** The map as a whole is rejected. */
  predicate Rejected<R>(p: Pool<R>) {
    exists w :: 0 <= w < |p.workers| && p.workers[w].Threw?
  }

  /** Whatever the schedule, the mapper is called at most once per item, in
      order, and never more than `concurrency` of its calls are open at once.
      Once every worker has stopped, the map is rejected exactly when some item
      cannot be mapped, and otherwise its results are the sequential map. */
  lemma PoolIsMap<T, R(!new)>(items: seq<T>, mapper: T -> Result<R>, concurrency: nat, moves: seq<nat>)
    requires concurrency > 0 && Schedule(Start<R>(|items|, concurrency), items, mapper, moves)
    ensures var p := After(Start<R>(|items|, concurrency), items, mapper, moves);
      && p.nextIndex <= |items| && p.calls == seq(p.nextIndex, i => i) && |p.results| == |items|
      && BusyCount(p.workers) <= concurrency
      && (Rejected(p) ==> exists i :: 0 <= i < p.nextIndex && mapper(items[i]).Err?)
      && (AllStopped(p) && !Rejected(p) ==>
            p.nextIndex == |items| && forall i :: 0 <= i < |items| ==> p.results[i].Some? && mapper(items[i]) == Ok(p.results[i].value))
  {
    StartOk(items, mapper, concurrency);
    var p := After(Start<R>(|items|, concurrency), items, mapper, moves);
    ScheduleKeeps(Start<R>(|items|, concurrency), items, mapper, concurrency, moves);
    BusyIsBounded(p.workers);
    if AllStopped(p) && !Rejected(p) {
      assert |items| > 0 ==> WorkerOk(p, items, mapper, p.workers[0]);
      forall i | 0 <= i < |items| ensures p.results[i].Some? && mapper(items[i]) == Ok(p.results[i].value) {
        assert ItemOk(p, items, mapper, i) && !HeldBy(p.workers, i);
      }
    } else if Rejected(p) {
      var w :| 0 <= w < |p.workers| && p.workers[w].Threw?;
      assert WorkerOk(p, items, mapper, p.workers[w]);
    }
  }

  /** The pool never stalls: until all workers have stopped, one can move, and
      every move brings the end nearer. */
  function ToGo<R>(p: Pool<R>): int {
    3 * (|p.results| - p.nextIndex) + Pending(p.workers)
  }

  function Cost(w: Worker): nat {
    match w case AtLoop => 1 case Mapping(_) => 2 case _ => 0
  }

  function Pending(workers: seq<Worker>): nat {
    if |workers| == 0 then 0 else Pending(workers[..|workers| - 1]) + Cost(workers[|workers| - 1])
  }

  lemma {:induction false} PendingUpdate(workers: seq<Worker>, w: nat, x: Worker)
    requires w < |workers|
    ensures Pending(workers[w := x]) == Pending(workers) - Cost(workers[w]) + Cost(x)
  {
    var n := |workers| - 1;
    if w < n {
      PendingUpdate(workers[..n], w, x);
      assert workers[w := x][..n] == workers[..n][w := x];
    } else {
      assert workers[w := x][..n] == workers[..n];
    }
  }

  lemma PoolProgresses<T, R(!new)>(p: Pool<R>, items: seq<T>, mapper: T -> Result<R>, concurrency: nat, w: nat)
    requires PoolInv(p, items, mapper, concurrency) && w < |p.workers| && !Stopped(p.workers[w])
    ensures CanMove(p, w) && 0 <= ToGo(Move(p, items, mapper, w)) < ToGo(p)
  {
    assert WorkerOk(p, items, mapper, p.workers[w]);
    var q := Move(p, items, mapper, w);
    PendingUpdate(p.workers, w, q.workers[w]);
    MoveKeeps(p, items, mapper, concurrency, w);
    assert q.workers == p.workers[w := q.workers[w]];
  }

  // ----- batches -----

  function Road<T>(requests: seq<T>, limit: nat): seq<T> {
    if limit < |requests| then requests[..limit] else requests
  }

  /** How a batch answers the request at place `i`: its first `limit` requests
      by the mapper, the rest by the fallback. */
  function AnswerAt<T, R>(requests: seq<T>, limit: nat, calculate: T -> Result<R>, fallback: T -> Result<R>, i: nat): Result<R>
    requires i < |requests|
  {
    if i < limit then calculate(requests[i]) else fallback(requests[i])
  }

  /** However the pool was scheduled: the mapper is called at most `limit`
      times; once the workers have stopped, the batch fails exactly when one of
      its requests has no answer, and otherwise holds one answer per request. */
  lemma BatchFromPool<T, R(!new)>(requests: seq<T>, limit: nat, concurrency: nat, calculate: T -> Result<R>, fallback: T -> Result<R>, moves: seq<nat>)
    requires concurrency > 0 && Schedule(Start<R>(|Road(requests, limit)|, concurrency), Road(requests, limit), calculate, moves)
    ensures var p := After(Start<R>(|Road(requests, limit)|, concurrency), Road(requests, limit), calculate, moves);
      && |p.calls| <= limit && |p.results| == Least(limit, |requests|)
      && (AllStopped(p) ==>
            && (Rejected(p) || (exists i :: limit <= i < |requests| && fallback(requests[i]).Err?)
                <==> exists i :: 0 <= i < |requests| && AnswerAt(requests, limit, calculate, fallback, i).Err?)
            && (!Rejected(p) ==>
                  forall i :: 0 <= i < |p.results| ==>
                    p.results[i].Some? && AnswerAt(requests, limit, calculate, fallback, i) == Ok(p.results[i].value)))
  {
    var road := Road(requests, limit);
    PoolIsMap(road, calculate, concurrency, moves);
    var p := After(Start<R>(|road|, concurrency), road, calculate, moves);
    if AllStopped(p) {
      if Rejected(p) {
        var i :| 0 <= i < p.nextIndex && calculate(road[i]).Err?;
        assert AnswerAt(requests, limit, calculate, fallback, i).Err?;
      } else if i :| limit <= i < |requests| && fallback(requests[i]).Err? {
        assert AnswerAt(requests, limit, calculate, fallback, i).Err?;
      }
    }
  }
}

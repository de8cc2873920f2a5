/** What the planner's list means to its reader: which recommendations there
    are, which come first, what a score is made of, and which transfers a load
    takes. */
module PlannerOrder {
  import opened Rows
  import opened Policies
  import opened Ordering
  import opened Planner
  import opened PlannerLaws

  // ----- which come first -----

  /** Higher scores first, then the fuller vehicle, then more transfers, then
      the earlier departure; codes and ids decide the rest. */
  predicate Ahead(a: Recommendation, b: Recommendation) {
    if a.score != b.score then a.score > b.score
    else if a.permille != b.permille then a.permille > b.permille
    else if |a.transfers| != |b.transfers| then |a.transfers| > |b.transfers|
    else if a.window.start != b.window.start then a.window.start < b.window.start
    else if a.driver.code != b.driver.code then a.driver.code < b.driver.code
    else if a.vehicle.code != b.vehicle.code then a.vehicle.code < b.vehicle.code
    else if a.driver.id != b.driver.id then a.driver.id < b.driver.id
    else a.vehicle.id < b.vehicle.id
  }

  /** The first columns decide, or else the rest does. */
  lemma FirstColumn(x: seq<int>, y: seq<int>, i: nat)
    requires i < |x| == |y|
    ensures Before(x[i..], y[i..]) == if x[i] != y[i] then x[i] < y[i] else Before(x[i + 1..], y[i + 1..])
  {
    assert x[i..][1..] == x[i + 1..] && y[i..][1..] == y[i + 1..];
  }

  lemma BeforeIsAhead(a: Recommendation, b: Recommendation)
    ensures Before(RankKey(a), RankKey(b)) <==> Ahead(a, b)
  {
    var x, y := RankKey(a), RankKey(b);
    forall i: nat | i < 8 ensures Before(x[i..], y[i..]) == if x[i] != y[i] then x[i] < y[i] else Before(x[i + 1..], y[i + 1..]) {
      FirstColumn(x, y, i);
    }
    assert x[0..] == x && y[0..] == y;
    hide Before;
    assert Before(x[4..], y[4..]) ==
           if x[4] != y[4] then x[4] < y[4] else if x[5] != y[5] then x[5] < y[5] else if x[6] != y[6] then x[6] < y[6] else x[7] < y[7];
  }

  /** A recommendation there can be: one of the vehicles and one of the drivers,
      a departure on the half-hour grid that ends within the range, no active
      trip of either in the way, and the load its vehicle is packed with. */
  ghost predicate Proposed(p: Plan, c: Recommendation, slot: nat) {
    && c.vehicle in p.vehicles && c.vehicle.capacity > 0 && c.driver in p.drivers
    && c.window.start == p.earliest + slot * SLOT_MS && c.window.end == c.window.start + Duration(p) <= p.latest
    && (forall x :: x in p.conflicts && (x.driver == c.driver.id || x.vehicle == c.vehicle.id)
          ==> x.schedule.Some? && (x.schedule.value.end <= c.window.start || c.window.end <= x.schedule.value.start))
    && c.transfers != [] && c.transfers == Select(p.transfers, c.vehicle.capacity)
    && c.grams == Weight(c.transfers) && c.permille == Permille(c.grams, c.vehicle.capacity)
    && c.score == Points(c.permille, |c.transfers|, slot, p.route, c.driver.home == p.origin)
  }

  lemma FreeOfConflicts(p: Plan, c: Recommendation)
    ensures (!VehicleBusy(p.conflicts, c.vehicle.id, c.window) && !DriverBusy(p.conflicts, c.driver.id, c.window)) <==>
            forall x :: x in p.conflicts && (x.driver == c.driver.id || x.vehicle == c.vehicle.id)
              ==> x.schedule.Some? && (x.schedule.value.end <= c.window.start || c.window.end <= x.schedule.value.start)
  {
    forall i | 0 <= i < |p.conflicts| ensures p.conflicts[i] in p.conflicts {}
  }

  lemma ProposedIsFeasible(p: Plan, c: Recommendation)
    requires Sound(p)
    ensures Feasible(p, c) <==> exists slot: nat :: Proposed(p, c, slot)
  {
    hide Select, Weight, Points, Permille, Duration, VehicleBusy, DriverBusy;
    FreeOfConflicts(p, c);
    forall n: nat ensures c.vehicle in p.vehicles && c.driver in p.drivers && FeasibleAt(p, c, n) <==> Proposed(p, c, n) {
    }
  }

  /** The list holds proposals alone, the better ahead of the worse: never a lower
      score before a higher one, and on equal scores the fuller, then the one
      with more transfers, then the earlier first. A proposal that is not listed
      is behind all that are, and left out only because the list is full. */
  lemma BestFirst(p: Plan)
    requires Sound(p) && UniqueIds(p)
    ensures var best := PlannerLaws.Result(p);
            && |best| <= p.limit
            && (forall c :: c in best ==> exists slot: nat :: Proposed(p, c, slot))
            && (forall i, j :: 0 <= i < j < |best| ==> best[i].score >= best[j].score && Ahead(best[i], best[j]))
            && (forall c, slot: nat, i :: Proposed(p, c, slot) && c !in best && 0 <= i < |best| ==> best[i].score >= c.score && Ahead(best[i], c))
            && (forall c, slot: nat :: Proposed(p, c, slot) && c !in best ==> |best| == p.limit)
  {
    hide PlannerLaws.Result, Feasible, Proposed, Before, RankKey, Sound, UniqueIds;
    ResultIsFirstFeasible(p);
    var best := PlannerLaws.Result(p);
    forall c ensures Feasible(p, c) <==> exists slot: nat :: Proposed(p, c, slot) { ProposedIsFeasible(p, c); }
    forall a, b ensures Before(RankKey(a), RankKey(b)) <==> Ahead(a, b) { BeforeIsAhead(a, b); }
  }

  // ----- what a score is made of -----

  /** `whole` is as near to the quotient as an integer can be. */
  predicate Nearest(whole: int, numerator: int, denominator: int) {
    -denominator <= 2 * (whole * denominator - numerator) <= denominator
  }

  lemma RoundsToNearest(numerator: int, denominator: int)
    requires denominator > 0
    ensures Nearest((2 * numerator + denominator) / (2 * denominator), numerator, denominator)
  {
    var y, d := 2 * numerator + denominator, 2 * denominator;
    var q := y / d;
    assert y == d * q + y % d;
    assert 2 * (q * denominator) == d * q;
  }

  /** Points a departure has left: twenty at the first, two fewer with each
      later one. */
  function Early(slot: nat): int {
    if slot >= 10 then 0 else 20 - 2 * slot
  }

  function Road(route: Option<Metric>): int {
    if route == None then 0 else if route.value.roadRoute then 10 else 5
  }

  /** Forty-five points for a full vehicle, by the share of its capacity that is
      used; four for each transfer, up to five of them; up to twenty for an
      early departure; ten for a road route, five for an estimated one; five for
      a driver based at the origin. */
  lemma ScoreIs(p: Plan, c: Recommendation, slot: nat)
    requires Sound(p) && Positive(p.transfers) && Proposed(p, c, slot)
    ensures var capacityPoints := c.score - (if |c.transfers| >= 5 then 20 else 4 * |c.transfers|) - Early(slot) - Road(p.route)
                                  - (if c.driver.home == p.origin then 5 else 0);
            && Nearest(c.permille, 1_000 * c.grams, c.vehicle.capacity) && 0 <= c.permille <= 1_000
            && Nearest(capacityPoints, 45 * c.permille, 1_000) && 0 <= capacityPoints <= 45
  {
    hide Permille;
    ProposedLoad(p, c, slot);
    PermilleInRange(c.grams, c.vehicle.capacity);
    ShareIsNearest(c.grams, c.vehicle.capacity);
    RoundsToNearest(45 * c.permille, 1_000);
  }

  lemma ShareIsNearest(grams: int, capacity: int)
    requires capacity > 0
    ensures Nearest(Permille(grams, capacity), 1_000 * grams, capacity)
  {
    RoundsToNearest(1_000 * grams, capacity);
  }

  lemma ProposedLoad(p: Plan, c: Recommendation, slot: nat)
    requires Sound(p) && Positive(p.transfers) && Proposed(p, c, slot)
    ensures c.vehicle.capacity > 0 && 0 < c.grams <= c.vehicle.capacity
  {
    hide Select, Weight, Points, Permille, Duration;
    SelectedArePositive(p.transfers, c.vehicle.capacity);
  }

  /** Between two proposals of one vehicle only the driver and the departure count:
      the driver based at the origin gains five, and each half hour later costs
      two until the tenth. */
  lemma SameVehicle(p: Plan, a: Recommendation, b: Recommendation, i: nat, j: nat)
    requires Sound(p) && Proposed(p, a, i) && Proposed(p, b, j) && a.vehicle == b.vehicle
    ensures a.score - b.score == Early(i) - Early(j)
                                 + (if a.driver.home == p.origin then 5 else 0) - (if b.driver.home == p.origin then 5 else 0)
  {
    hide Select, Weight, Permille, Duration;
  }

  /** The route's quality: a road route gains five over an estimate and ten over
      none. */
  lemma BetterRoute(p: Plan, route: Option<Metric>, a: Recommendation, b: Recommendation, slot: nat)
    requires Sound(p) && Proposed(p, a, slot) && Proposed(p.(route := route), b, slot)
    requires a.vehicle == b.vehicle && a.driver == b.driver
    ensures a.score - b.score == Road(p.route) - Road(route)
  {
    hide Select, Weight, Permille, Duration;
  }

  /** A vehicle that is at least as full, with at least as many transfers, never
      scores less at the same departure and with the same driver. */
  lemma FullerNeverLoses(p: Plan, a: Recommendation, b: Recommendation, slot: nat)
    requires Sound(p) && Proposed(p, a, slot) && Proposed(p, b, slot) && a.driver == b.driver
    requires |a.transfers| >= |b.transfers| && a.grams * b.vehicle.capacity >= b.grams * a.vehicle.capacity
    ensures a.permille >= b.permille && a.score >= b.score
  {
    hide Select, Weight, Permille, Duration;
    MoreIsMore(a.grams, a.vehicle.capacity, b.grams, b.vehicle.capacity);
  }

  lemma MoreIsMore(grams: int, capacity: int, less: int, other: int)
    requires capacity > 0 && other > 0 && grams * other >= less * capacity
    ensures Permille(grams, capacity) >= Permille(less, other)
  {
    var a, b := 2_000 * grams + capacity, 2_000 * less + other;
    assert a * (2 * other) == 4_000 * (grams * other) + 2 * (capacity * other);
    assert b * (2 * capacity) == 4_000 * (less * capacity) + 2 * (capacity * other);
    QuotientGrows(a, 2 * capacity, b, 2 * other);
  }

  lemma QuotientGrows(a: int, b: int, c: int, d: int)
    requires b > 0 && d > 0 && a * d >= c * b
    ensures a / b >= c / d
  {
    var x, y := a / b, c / d;
    Divides(a, b);
    Divides(c, d);
    assert d * y * b == b * y * d;
    if x < y {
      Times(x + 1, y, b);
      StrictTimes(a, b * y, d);
      Times(d * y, c, b);
    }
  }

  lemma Divides(a: int, b: int)
    requires b > 0
    ensures b * (a / b) <= a < b * (a / b + 1)
  {
    assert a == b * (a / b) + a % b;
  }

  lemma Times(a: int, b: int, k: int)
    requires a <= b && k > 0
    ensures a * k <= b * k && k * a <= k * b
  {
  }

  lemma StrictTimes(a: int, b: int, k: int)
    requires a < b && k > 0
    ensures a * k < b * k
  {
  }

  // ----- which transfers a load takes -----

  predicate Older(a: PlanTransfer, b: PlanTransfer) {
    a.createdAt < b.createdAt || (a.createdAt == b.createdAt && a.id < b.id)
  }

  lemma AgeIsOlder(a: PlanTransfer, b: PlanTransfer)
    ensures Before(AgeKey(a), AgeKey(b)) <==> Older(a, b)
  {
    FirstColumn(AgeKey(a), AgeKey(b), 0);
    FirstColumn(AgeKey(a), AgeKey(b), 1);
    assert AgeKey(a)[0..] == AgeKey(a) && AgeKey(b)[0..] == AgeKey(b);
  }

  lemma {:induction false} PackPrefix(ts: seq<PlanTransfer>, capacity: int, k: nat)
    requires k <= |ts|
    ensures Pack(ts[..k], capacity) <= Pack(ts, capacity)
    ensures forall i :: |Pack(ts[..k], capacity)| <= i < |Pack(ts, capacity)| ==> Pack(ts, capacity)[i] in ts[k..]
  {
    if k == |ts| {
      assert ts[..k] == ts;
    } else {
      var n := |ts| - 1;
      PackPrefix(ts[..n], capacity, k);
      PackStep(ts, capacity);
      assert ts[..n][..k] == ts[..k] && ts[k..] == ts[..n][k..] + [ts[n]];
    }
  }

  lemma {:induction false} PackOrdered(ts: seq<PlanTransfer>, capacity: int)
    requires Ordered(AgeKey, ts)
    ensures Ordered(AgeKey, Pack(ts, capacity))
  {
    if |ts| > 0 {
      hide Before, AgeKey, Weight, Pack;
      var n := |ts| - 1;
      var rest := Pack(ts[..n], capacity);
      PackOrdered(ts[..n], capacity);
      PackStep(ts, capacity);
      forall i | 0 <= i < |rest| ensures Before(AgeKey(rest[i]), AgeKey(ts[n])) {
        assert rest[i] in ts[..n];
      }
    } else {
      assert Pack(ts, capacity) == [];
    }
  }

  lemma AgesDiffer(ts: seq<PlanTransfer>)
    requires forall i, j :: 0 <= i < j < |ts| ==> ts[i].id != ts[j].id
    ensures Ordered(AgeKey, SortBy(AgeKey, ts))
  {
    forall i, j | 0 <= i < j < |ts| ensures AgeKey(ts[i]) != AgeKey(ts[j]) {
      assert AgeKey(ts[i])[1] != AgeKey(ts[j])[1];
    }
    SortOrdered(AgeKey, ts);
  }

  /** The oldest go first, and every transfer rides that still fits beside the
      older ones chosen before it. */
  lemma OldestFirst(ts: seq<PlanTransfer>, capacity: int, t: PlanTransfer)
    requires t in ts && forall i, j :: 0 <= i < j < |ts| ==> ts[i].id != ts[j].id
    ensures var chosen := Select(ts, capacity);
            && (forall i, j :: 0 <= i < j < |chosen| ==> Older(chosen[i], chosen[j]))
            && exists k :: 0 <= k <= |chosen|
                 && (forall i :: 0 <= i < |chosen| ==> (i < k <==> Older(chosen[i], t)))
                 && (t in chosen <==> Weight(chosen[..k]) + t.grams <= capacity)
  {
    hide SortBy, Before, AgeKey, Weight, Pack;
    var sorted, chosen := SortBy(AgeKey, ts), Select(ts, capacity);
    AgesDiffer(ts);
    MultisetMembers(sorted, ts);
    PackOrdered(sorted, capacity);
    forall a, b ensures Before(AgeKey(a), AgeKey(b)) <==> Older(a, b) { AgeIsOlder(a, b); }
    var n :| 0 <= n < |sorted| && sorted[n] == t;
    var before, upTo := Pack(sorted[..n], capacity), Pack(sorted[..n + 1], capacity);
    var k := |before|;
    PackPrefix(sorted, capacity, n);
    PackPrefix(sorted, capacity, n + 1);
    PackStep(sorted[..n + 1], capacity);
    assert sorted[..n + 1][..n] == sorted[..n];
    forall i | 0 <= i < |chosen| ensures i < k <==> Older(chosen[i], t) {
      if i < k { assert chosen[i] == before[i] && before[i] in sorted[..n]; } else { assert chosen[i] in sorted[n..]; }
    }
    assert chosen[..k] == before;
    forall i | |upTo| <= i < |chosen| ensures chosen[i] != t { assert chosen[i] in sorted[n + 1..]; }
    if |upTo| > k { assert chosen[k] == upTo[k] == t; } else { assert forall i :: 0 <= i < k ==> chosen[i] != t; }
  }
}

/** What the planner's loops compute, said without loops: the first few of all
    feasible recommendations, whatever order its inputs came in. */
module PlannerLaws {
  import opened Rows
  import opened Policies
  import opened Ordering
  import opened Planner

  function Result(p: Plan): seq<Recommendation>
    requires Sound(p)
  {
    if p.transfers == [] then [] else Best(RankKey, p.limit, Candidates(p))
  }

  function DepartureNo(p: Plan, n: nat): Departure {
    Departure(Window(p.earliest + n * SLOT_MS, p.earliest + n * SLOT_MS + Duration(p)), n)
  }

  predicate FeasibleAt(p: Plan, c: Recommendation, n: nat) {
    && c.vehicle.capacity > 0 && DepartureNo(p, n).window.end <= p.latest
    && !VehicleBusy(p.conflicts, c.vehicle.id, DepartureNo(p, n).window)
    && !DriverBusy(p.conflicts, c.driver.id, DepartureNo(p, n).window)
    && Select(p.transfers, c.vehicle.capacity) != []
    && c == Candidate(p, c.vehicle, DepartureNo(p, n), c.driver)
  }

  /** A vehicle, a driver and a half-hourly departure that fits the horizon,
      both free for it, and a non-empty greedy load. */
  ghost predicate Feasible(p: Plan, c: Recommendation) {
    c.vehicle in p.vehicles && c.driver in p.drivers && exists n: nat :: FeasibleAt(p, c, n)
  }

  lemma {:induction false} InForDrivers(p: Plan, v: PlanVehicle, d: Departure, drivers: seq<PlanDriver>, c: Recommendation)
    requires v.capacity > 0
    ensures c in ForDrivers(p, v, d, drivers) <==> c.driver in drivers && !DriverBusy(p.conflicts, c.driver.id, d.window) && c == Candidate(p, v, d, c.driver)
  {
    if |drivers| > 0 {
      var n := |drivers| - 1;
      InForDrivers(p, v, d, drivers[..n], c);
      assert drivers == drivers[..n] + [drivers[n]];
    }
  }

  predicate InWindow(p: Plan, v: PlanVehicle, d: Departure, drivers: seq<PlanDriver>, c: Recommendation)
    requires v.capacity > 0
  {
    !VehicleBusy(p.conflicts, v.id, d.window) && c.driver in drivers && !DriverBusy(p.conflicts, c.driver.id, d.window) && c == Candidate(p, v, d, c.driver)
  }

  lemma {:induction false} InForWindows(p: Plan, v: PlanVehicle, windows: seq<Departure>, drivers: seq<PlanDriver>, c: Recommendation)
    requires v.capacity > 0
    ensures c in ForWindows(p, v, windows, drivers) <==> exists i :: 0 <= i < |windows| && InWindow(p, v, windows[i], drivers, c)
  {
    hide Candidate, DriverBusy, VehicleBusy, ForDrivers;
    if |windows| > 0 {
      var n := |windows| - 1;
      InForWindows(p, v, windows[..n], drivers, c);
      InForDrivers(p, v, windows[n], drivers, c);
      if i :| 0 <= i < n && InWindow(p, v, windows[..n][i], drivers, c) { assert windows[..n][i] == windows[i]; }
      if i :| 0 <= i < n && InWindow(p, v, windows[i], drivers, c) { assert windows[..n][i] == windows[i]; }
    }
  }

  lemma {:induction false} InForVehicles(p: Plan, vehicles: seq<PlanVehicle>, windows: seq<Departure>, drivers: seq<PlanDriver>, c: Recommendation)
    requires forall i :: 0 <= i < |vehicles| ==> vehicles[i].capacity > 0
    ensures c in ForVehicles(p, vehicles, windows, drivers) <==>
            c.vehicle in vehicles && c.vehicle.capacity > 0 && Select(p.transfers, c.vehicle.capacity) != [] && c in ForWindows(p, c.vehicle, windows, drivers)
  {
    hide ForDrivers, Select;
    if |vehicles| > 0 {
      var n := |vehicles| - 1;
      InForVehicles(p, vehicles[..n], windows, drivers, c);
      assert vehicles == vehicles[..n] + [vehicles[n]];
      FromVehicle(p, vehicles[n], windows, drivers, c);
    }
  }

  lemma FromVehicle(p: Plan, v: PlanVehicle, windows: seq<Departure>, drivers: seq<PlanDriver>, c: Recommendation)
    requires v.capacity > 0
    ensures c in ForWindows(p, v, windows, drivers) ==> c.vehicle == v
  {
    hide DriverBusy, VehicleBusy, Select, Points;
    InForWindows(p, v, windows, drivers, c);
  }

  /** The loops meet exactly the feasible recommendations. */
  lemma CandidatesAreFeasible(p: Plan, c: Recommendation)
    requires Sound(p)
    ensures c in Candidates(p) <==> Feasible(p, c)
  {
    hide DriverBusy, VehicleBusy, Select, Candidate, Duration, ForVehicles, ForWindows, SortBy;
    var windows := Departures(p.earliest, p.latest, Duration(p), 0);
    var vehicles, drivers := SortBy(VehicleKey, p.vehicles), SortBy(DriverKey, p.drivers);
    SortedSound(p);
    MultisetMembers(vehicles, p.vehicles);
    MultisetMembers(drivers, p.drivers);
    InForVehicles(p, vehicles, windows, drivers, c);
    if c.vehicle.capacity > 0 {
      InForWindows(p, c.vehicle, windows, drivers, c);
      forall n: nat ensures n < |windows| <==> DepartureNo(p, n).window.end <= p.latest
        ensures n < |windows| ==> windows[n] == DepartureNo(p, n)
      {
        DepartureAt(p.earliest, p.latest, Duration(p), 0, n);
      }
      if c in ForWindows(p, c.vehicle, windows, drivers) && Select(p.transfers, c.vehicle.capacity) != [] {
        var i :| 0 <= i < |windows| && InWindow(p, c.vehicle, windows[i], drivers, c);
        assert windows[i] == DepartureNo(p, i);
        assert FeasibleAt(p, c, i);
      }
      if n: nat :| FeasibleAt(p, c, n) {
        assert windows[n] == DepartureNo(p, n);
        assert c.driver in drivers ==> InWindow(p, c.vehicle, windows[n], drivers, c);
      }
    }
  }

  // ----- no two candidates rank alike -----

  predicate DistinctDrivers(ds: seq<PlanDriver>) {
    forall i, j :: 0 <= i < j < |ds| ==> ds[i].id != ds[j].id
  }

  predicate DistinctVehicles(vs: seq<PlanVehicle>) {
    forall i, j :: 0 <= i < j < |vs| ==> vs[i].id != vs[j].id
  }

  predicate UniqueIds(p: Plan) {
    && DistinctDrivers(p.drivers) && DistinctVehicles(p.vehicles)
    && (forall i, j :: 0 <= i < j < |p.transfers| ==> p.transfers[i].id != p.transfers[j].id)
  }

  /** What tells two candidates apart. */
  predicate SameChoice(a: Recommendation, b: Recommendation) {
    a.driver.id == b.driver.id && a.vehicle.id == b.vehicle.id && a.window.start == b.window.start
  }

  ghost predicate Different(cs: seq<Recommendation>) {
    forall i, j :: 0 <= i < j < |cs| ==> !SameChoice(cs[i], cs[j])
  }

  lemma SameKeySameChoice(a: Recommendation, b: Recommendation)
    requires RankKey(a) == RankKey(b)
    ensures SameChoice(a, b)
  {
    assert RankKey(a)[3] == RankKey(b)[3] && RankKey(a)[6] == RankKey(b)[6] && RankKey(a)[7] == RankKey(b)[7];
  }

  lemma DifferentIsUnlike(cs: seq<Recommendation>)
    requires Different(cs)
    ensures Unlike(RankKey, cs)
  {
    forall i, j | 0 <= i < j < |cs| ensures RankKey(cs[i]) != RankKey(cs[j]) {
      if RankKey(cs[i]) == RankKey(cs[j]) { SameKeySameChoice(cs[i], cs[j]); }
    }
  }

  lemma DifferentAppend(xs: seq<Recommendation>, ys: seq<Recommendation>)
    requires Different(xs) && Different(ys)
    requires forall x, y :: x in xs && y in ys ==> !SameChoice(x, y)
    ensures Different(xs + ys)
  {
    var all := xs + ys;
    forall i, j | 0 <= i < j < |all| ensures !SameChoice(all[i], all[j]) {
      if i < |xs| <= j { assert all[i] in xs && all[j] in ys; }
    }
  }

  lemma {:induction false} DriversDifferent(p: Plan, v: PlanVehicle, d: Departure, drivers: seq<PlanDriver>)
    requires v.capacity > 0 && DistinctDrivers(drivers)
    ensures Different(ForDrivers(p, v, d, drivers))
  {
    hide Candidate, DriverBusy;
    if |drivers| > 0 {
      var n := |drivers| - 1;
      DriversDifferent(p, v, d, drivers[..n]);
      var front := ForDrivers(p, v, d, drivers[..n]);
      var last := Candidate(p, v, d, drivers[n]);
      CandidateDriver(p, v, d, drivers[n]);
      forall x | x in front ensures !SameChoice(x, last) {
        InForDrivers(p, v, d, drivers[..n], x);
        var i :| 0 <= i < n && drivers[..n][i] == x.driver;
      }
      DifferentAppend(front, [last]);
    }
  }

  lemma CandidateDriver(p: Plan, v: PlanVehicle, d: Departure, driver: PlanDriver)
    requires v.capacity > 0
    ensures var c := Candidate(p, v, d, driver); c.driver == driver && c.vehicle == v && c.window == d.window
  {
  }

  lemma {:induction false} WindowsDifferent(p: Plan, v: PlanVehicle, windows: seq<Departure>, drivers: seq<PlanDriver>)
    requires v.capacity > 0 && DistinctDrivers(drivers)
    requires forall i, j :: 0 <= i < j < |windows| ==> windows[i].window.start != windows[j].window.start
    ensures Different(ForWindows(p, v, windows, drivers))
  {
    hide Candidate, DriverBusy, VehicleBusy, ForDrivers;
    if |windows| > 0 {
      var n := |windows| - 1;
      WindowsDifferent(p, v, windows[..n], drivers);
      var front, back := ForWindows(p, v, windows[..n], drivers), ForDrivers(p, v, windows[n], drivers);
      DriversDifferent(p, v, windows[n], drivers);
      forall x, y | x in front && y in back ensures !SameChoice(x, y) {
        InForWindows(p, v, windows[..n], drivers, x);
        var i :| 0 <= i < n && InWindow(p, v, windows[..n][i], drivers, x);
        CandidateDriver(p, v, windows[i], x.driver);
        InForDrivers(p, v, windows[n], drivers, y);
        CandidateDriver(p, v, windows[n], y.driver);
      }
      DifferentAppend(front, back);
    }
  }

  lemma {:induction false} VehiclesDifferent(p: Plan, vehicles: seq<PlanVehicle>, windows: seq<Departure>, drivers: seq<PlanDriver>)
    requires forall i :: 0 <= i < |vehicles| ==> vehicles[i].capacity > 0
    requires DistinctVehicles(vehicles)
    requires DistinctDrivers(drivers)
    requires forall i, j :: 0 <= i < j < |windows| ==> windows[i].window.start != windows[j].window.start
    ensures Different(ForVehicles(p, vehicles, windows, drivers))
  {
    hide Candidate, DriverBusy, VehicleBusy, ForDrivers, ForWindows, Select;
    if |vehicles| > 0 {
      var n := |vehicles| - 1;
      VehiclesDifferent(p, vehicles[..n], windows, drivers);
      var front, back := ForVehicles(p, vehicles[..n], windows, drivers), ForWindows(p, vehicles[n], windows, drivers);
      WindowsDifferent(p, vehicles[n], windows, drivers);
      forall x, y | x in front && y in back ensures !SameChoice(x, y) {
        InForVehicles(p, vehicles[..n], windows, drivers, x);
        FromVehicle(p, vehicles[n], windows, drivers, y);
        var i :| 0 <= i < n && vehicles[..n][i] == x.vehicle;
      }
      DifferentAppend(front, back);
    }
  }

  lemma SortedUnique<T(!new)>(key: T -> seq<int>, xs: seq<T>)
    requires Uniform(key) && Unlike(key, xs)
    ensures Ordered(key, SortBy(key, xs)) && forall i, j :: 0 <= i < j < |xs| ==> SortBy(key, xs)[i] != SortBy(key, xs)[j]
  {
    SortOrdered(key, xs);
    var ys := SortBy(key, xs);
    forall i, j | 0 <= i < j < |ys| ensures ys[i] != ys[j] {
      BeforeTotal(key(ys[i]), key(ys[j]));
      assert Before(key(ys[i]), key(ys[j]));
    }
  }

  lemma SortedDriverIds(p: Plan)
    requires UniqueIds(p)
    ensures DistinctDrivers(SortBy(DriverKey, p.drivers))
  {
    var ys := SortBy(DriverKey, p.drivers);
    forall i, j | 0 <= i < j < |p.drivers| ensures DriverKey(p.drivers[i]) != DriverKey(p.drivers[j]) {
      assert DriverKey(p.drivers[i])[1] != DriverKey(p.drivers[j])[1];
    }
    SortedUnique(DriverKey, p.drivers);
    MultisetMembers(ys, p.drivers);
    forall i, j | 0 <= i < j < |ys| ensures ys[i].id != ys[j].id {
      assert ys[i] in ys && ys[j] in ys && ys[i] != ys[j];
    }
  }

  lemma SortedVehicleIds(p: Plan)
    requires UniqueIds(p)
    ensures DistinctVehicles(SortBy(VehicleKey, p.vehicles))
  {
    var ys := SortBy(VehicleKey, p.vehicles);
    forall i, j | 0 <= i < j < |p.vehicles| ensures VehicleKey(p.vehicles[i]) != VehicleKey(p.vehicles[j]) {
      assert VehicleKey(p.vehicles[i])[1] != VehicleKey(p.vehicles[j])[1];
    }
    SortedUnique(VehicleKey, p.vehicles);
    MultisetMembers(ys, p.vehicles);
    forall i, j | 0 <= i < j < |ys| ensures ys[i].id != ys[j].id {
      assert ys[i] in ys && ys[j] in ys && ys[i] != ys[j];
    }
  }

  lemma CandidatesUnlike(p: Plan)
    requires Sound(p) && UniqueIds(p)
    ensures Unlike(RankKey, Candidates(p))
  {
    hide Candidate, ForVehicles, Duration;
    var windows := Departures(p.earliest, p.latest, Duration(p), 0);
    var vehicles, drivers := SortBy(VehicleKey, p.vehicles), SortBy(DriverKey, p.drivers);
    SortedSound(p);
    SortedDriverIds(p);
    SortedVehicleIds(p);
    forall i, j | 0 <= i < j < |windows| ensures windows[i].window.start != windows[j].window.start {
      DepartureAt(p.earliest, p.latest, Duration(p), 0, i);
      DepartureAt(p.earliest, p.latest, Duration(p), 0, j);
    }
    VehiclesDifferent(p, vehicles, windows, drivers);
    DifferentIsUnlike(Candidates(p));
  }

  // ----- the main results -----

  lemma RankUniform()
    ensures Uniform(RankKey)
  {
  }

  lemma NothingToLoad(p: Plan, c: Recommendation)
    requires p.transfers == []
    ensures !Feasible(p, c)
  {
    assert SortBy(AgeKey, p.transfers) == [];
  }

  /** The recommendations are exactly the first `limit` of all feasible ones
      under a strict total order. */
  lemma ResultIsFirstFeasible(p: Plan)
    requires Sound(p) && UniqueIds(p)
    ensures var best := Result(p);
            && Ordered(RankKey, best) && |best| <= p.limit
            && (forall c :: c in best ==> Feasible(p, c))
            && (forall c :: Feasible(p, c) && c !in best ==> |best| == p.limit && forall i :: 0 <= i < |best| ==> Before(RankKey(best[i]), RankKey(c)))
  {
    hide Candidates, Feasible, Best, RankKey, Before;
    RankUniform();
    if p.transfers == [] {
      forall c ensures !Feasible(p, c) { NothingToLoad(p, c); }
    } else {
      CandidatesUnlike(p);
      BestIsFirst(RankKey, p.limit, Candidates(p));
      forall c ensures c in Candidates(p) <==> Feasible(p, c) { CandidatesAreFeasible(p, c); }
    }
  }

  /** The same request with its inputs in another order. */
  predicate Reordered(p: Plan, q: Plan) {
    && multiset(q.drivers) == multiset(p.drivers) && multiset(q.vehicles) == multiset(p.vehicles)
    && multiset(q.transfers) == multiset(p.transfers) && multiset(q.conflicts) == multiset(p.conflicts)
    && q == p.(drivers := q.drivers, vehicles := q.vehicles, transfers := q.transfers, conflicts := q.conflicts)
  }

  lemma SameSelection(p: Plan, q: Plan, capacity: int)
    requires UniqueIds(p) && UniqueIds(q) && multiset(q.transfers) == multiset(p.transfers)
    ensures Select(q.transfers, capacity) == Select(p.transfers, capacity)
  {
    AgesUnlike(p);
    AgesUnlike(q);
    SortOrdered(AgeKey, p.transfers);
    SortOrdered(AgeKey, q.transfers);
    var a, b := SortBy(AgeKey, p.transfers), SortBy(AgeKey, q.transfers);
    assert multiset(a) == multiset(b);
    MultisetMembers(a, b);
    OrderedUnique(AgeKey, a, b);
  }

  lemma AgesUnlike(p: Plan)
    requires UniqueIds(p)
    ensures Unlike(AgeKey, p.transfers)
  {
    forall i, j | 0 <= i < j < |p.transfers| ensures AgeKey(p.transfers[i]) != AgeKey(p.transfers[j]) {
      assert AgeKey(p.transfers[i])[1] != AgeKey(p.transfers[j])[1];
    }
  }

  lemma SameConflicts(xs: seq<Conflict>, ys: seq<Conflict>, id: Id, w: Window)
    requires forall c :: c in xs ==> c in ys
    ensures DriverBusy(xs, id, w) ==> DriverBusy(ys, id, w)
    ensures VehicleBusy(xs, id, w) ==> VehicleBusy(ys, id, w)
  {
    if DriverBusy(xs, id, w) {
      var i :| 0 <= i < |xs| && xs[i].driver == id && Overlaps(xs[i], w);
      assert xs[i] in ys;
    }
    if VehicleBusy(xs, id, w) {
      var i :| 0 <= i < |xs| && xs[i].vehicle == id && Overlaps(xs[i], w);
      assert xs[i] in ys;
    }
  }

  lemma SameFeasible(p: Plan, q: Plan, c: Recommendation)
    requires UniqueIds(p) && UniqueIds(q) && Reordered(p, q)
    ensures Feasible(q, c) ==> Feasible(p, c)
  {
    hide Select, Points, DriverBusy, VehicleBusy, Weight, UniqueIds;
    MultisetMembers(q.drivers, p.drivers);
    MultisetMembers(q.vehicles, p.vehicles);
    MultisetMembers(q.conflicts, p.conflicts);
    if Feasible(q, c) {
      var n: nat :| FeasibleAt(q, c, n);
      SameSelection(p, q, c.vehicle.capacity);
      SameConflicts(p.conflicts, q.conflicts, c.driver.id, DepartureNo(p, n).window);
      SameConflicts(p.conflicts, q.conflicts, c.vehicle.id, DepartureNo(p, n).window);
      assert FeasibleAt(p, c, n);
    }
  }

  /** The answer does not depend on the order in which rows were read. */
  lemma OrderDoesNotMatter(p: Plan, q: Plan)
    requires Sound(p) && Sound(q) && UniqueIds(p) && UniqueIds(q) && Reordered(p, q)
    ensures Result(q) == Result(p)
  {
    hide Candidates, Feasible, Best, RankKey, UniqueIds, Sound;
    RankUniform();
    assert |p.transfers| == |multiset(p.transfers)| && |q.transfers| == |multiset(q.transfers)|;
    if p.transfers != [] {
      CandidatesUnlike(p);
      CandidatesUnlike(q);
      BestIsFirst(RankKey, p.limit, Candidates(p));
      BestIsFirst(RankKey, q.limit, Candidates(q));
      forall c ensures c in Candidates(p) <==> c in Candidates(q) {
        CandidatesAreFeasible(p, c);
        CandidatesAreFeasible(q, c);
        SameFeasible(p, q, c);
        SameFeasible(q, p, c);
      }
      FirstUnique(RankKey, p.limit, Result(p), Result(q), Candidates(p), Candidates(q));
    }
  }

  lemma {:induction false} PositiveWeight(ts: seq<PlanTransfer>)
    requires Positive(ts)
    ensures Weight(ts) >= 0 && (ts != [] ==> Weight(ts) > 0)
  {
    if |ts| > 0 { PositiveWeight(ts[..|ts| - 1]); }
  }

  /** Every recommendation fits its vehicle, leaves nothing behind that would
      still fit, and scores between 0 and 100. */
  lemma RecommendationsAreSane(p: Plan, c: Recommendation)
    requires Feasible(p, c) && Positive(p.transfers)
    ensures 0 < c.grams == Weight(c.transfers) <= c.vehicle.capacity
    ensures forall t :: t in c.transfers ==> t in p.transfers
    ensures forall t :: t in p.transfers && t !in c.transfers ==> c.grams + t.grams > c.vehicle.capacity
    ensures 0 <= c.score <= 100
  {
    hide DriverBusy, VehicleBusy, Points, Permille, Select;
    var n: nat :| FeasibleAt(p, c, n);
    var capacity := c.vehicle.capacity;
    var chosen := Select(p.transfers, capacity);
    forall t | t in p.transfers ensures t !in chosen ==> Weight(chosen) + t.grams > capacity { SelectIsMaximal(p.transfers, capacity, t); }
    SelectedArePositive(p.transfers, capacity);
    PointsInRange(Weight(chosen), capacity, |chosen|, n, p.route, c.driver.home == p.origin);
  }

  lemma SelectedArePositive(ts: seq<PlanTransfer>, capacity: int)
    requires Positive(ts) && capacity > 0 && Select(ts, capacity) != []
    ensures 0 < Weight(Select(ts, capacity)) <= capacity && forall t :: t in Select(ts, capacity) ==> t in ts
  {
    var chosen := Select(ts, capacity);
    MultisetMembers(SortBy(AgeKey, ts), ts);
    forall i | 0 <= i < |chosen| ensures chosen[i].grams > 0 {
      assert chosen[i] in chosen;
    }
    PositiveWeight(chosen);
  }
}

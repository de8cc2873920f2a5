/** The advisory line-haul planner: departure windows, greedy packing and a
    bounded search for the best recommendations. Instants are milliseconds,
    codes are positions in their collation order, and shares of capacity are
    counted in thousandths, so the two roundings are exact. */
module Planner {
  import opened Rows
  import opened Policies
  import opened Ordering

  const SLOT_MS := 1_800_000
  const BUFFER_SECONDS := 1_800
  const SLOT_SECONDS := 1_800
  const MIN_DURATION_MINUTES := 60
  const FALLBACK_DURATION_MINUTES := 180

  datatype PlanDriver = PlanDriver(id: Id, code: int, home: Id)

  datatype PlanVehicle = PlanVehicle(id: Id, code: int, capacity: int)

  datatype PlanTransfer = PlanTransfer(id: Id, grams: int, createdAt: int)

  datatype Conflict = Conflict(driver: Id, vehicle: Id, schedule: Option<Window>)

  datatype Metric = Metric(durationSeconds: Option<nat>, roadRoute: bool)

  datatype Departure = Departure(window: Window, slot: nat)

  datatype Plan = Plan(origin: Id, earliest: int, latest: int, drivers: seq<PlanDriver>, vehicles: seq<PlanVehicle>,
                       transfers: seq<PlanTransfer>, conflicts: seq<Conflict>, route: Option<Metric>, limit: nat)

  datatype Recommendation = Recommendation(driver: PlanDriver, vehicle: PlanVehicle, window: Window,
                                           transfers: seq<PlanTransfer>, grams: int, permille: int, score: int)

  // ----- durations and windows -----

  function DurationMinutes(seconds: Option<nat>): (r: nat)
    ensures r % 30 == 0 && r >= MIN_DURATION_MINUTES
    ensures seconds == None ==> r == 180
    ensures seconds.Some? ==> r * 60 >= seconds.value + BUFFER_SECONDS
    ensures seconds.Some? && r > MIN_DURATION_MINUTES ==> (r - 30) * 60 < seconds.value + BUFFER_SECONDS
  {
    match seconds
    case None => FALLBACK_DURATION_MINUTES
    case Some(d) =>
      var slots := (d + BUFFER_SECONDS + SLOT_SECONDS - 1) / SLOT_SECONDS;
      if slots * 30 > MIN_DURATION_MINUTES then slots * 30 else MIN_DURATION_MINUTES
  }

  function Duration(p: Plan): nat {
    60_000 * DurationMinutes(if p.route.Some? then p.route.value.durationSeconds else None)
  }

  /** The departures from `start` on, one every half hour while they still fit. */
  function Departures(start: int, latest: int, duration: nat, slot: nat): (r: seq<Departure>)
    decreases latest - start
  {
    if start + duration > latest then []
    else [Departure(Window(start, start + duration), slot)] + Departures(start + SLOT_MS, latest, duration, slot + 1)
  }

  /** The n-th departure leaves n half hours after the earliest start, and every
      departure that still ends in time is listed. */
  lemma {:induction false} DepartureAt(start: int, latest: int, duration: nat, slot: nat, n: nat)
    ensures var ds := Departures(start, latest, duration, slot);
            var from := start + n * SLOT_MS;
            && (n < |ds| <==> from + duration <= latest)
            && (n < |ds| ==> ds[n] == Departure(Window(from, from + duration), slot + n))
    decreases n
  {
    if start + duration <= latest && n > 0 {
      DepartureAt(start + SLOT_MS, latest, duration, slot + 1, n - 1);
      assert start + SLOT_MS + (n - 1) * SLOT_MS == start + n * SLOT_MS;
    }
  }

  method BuildWindows(earliest: int, latest: int, duration: nat) returns (windows: seq<Departure>)
    ensures windows == Departures(earliest, latest, duration, 0)
  {
    windows := [];
    var start, slot := earliest, 0;
    assert windows + Departures(start, latest, duration, slot) == Departures(earliest, latest, duration, 0);
    while start + duration <= latest
      invariant windows + Departures(start, latest, duration, slot) == Departures(earliest, latest, duration, 0)
      decreases latest - start
    {
      ghost var rest := Departures(start + SLOT_MS, latest, duration, slot + 1);
      var w := Departure(Window(start, start + duration), slot);
      assert windows + ([w] + rest) == windows + [w] + rest;
      windows := windows + [w];
      start, slot := start + SLOT_MS, slot + 1;
    }
  }

  // ----- greedy packing -----

  function AgeKey(t: PlanTransfer): seq<int> { [t.createdAt, t.id] }

  function Weight(ts: seq<PlanTransfer>): int {
    if |ts| == 0 then 0 else Weight(ts[..|ts| - 1]) + ts[|ts| - 1].grams
  }

  function Pack(ts: seq<PlanTransfer>, capacity: int): (r: seq<PlanTransfer>)
    ensures forall t :: t in r ==> t in ts
    ensures capacity >= 0 ==> Weight(r) <= capacity
  {
    if |ts| == 0 then []
    else
      var rest := Pack(ts[..|ts| - 1], capacity);
      var last := ts[|ts| - 1];
      if Weight(rest) + last.grams > capacity then rest
      else assert (rest + [last])[..|rest|] == rest; rest + [last]
  }

  function Select(ts: seq<PlanTransfer>, capacity: int): seq<PlanTransfer> {
    Pack(SortBy(AgeKey, ts), capacity)
  }

  predicate Positive(ts: seq<PlanTransfer>) {
    forall i :: 0 <= i < |ts| ==> ts[i].grams > 0
  }

  lemma PackStep(ts: seq<PlanTransfer>, capacity: int)
    requires |ts| > 0
    ensures var rest, last := Pack(ts[..|ts| - 1], capacity), ts[|ts| - 1];
            if Weight(rest) + last.grams > capacity then Pack(ts, capacity) == rest
            else Pack(ts, capacity) == rest + [last] && Weight(Pack(ts, capacity)) == Weight(rest) + last.grams
  {
    var rest, last := Pack(ts[..|ts| - 1], capacity), ts[|ts| - 1];
    assert (rest + [last])[..|rest|] == rest;
  }

  /** Packing never leaves behind a transfer that would still fit: not at the
      end, and not even next to the older ones alone. */
  lemma {:induction false} PackIsMaximal(ts: seq<PlanTransfer>, capacity: int, k: nat)
    requires Positive(ts) && k < |ts| && ts[k] !in Pack(ts, capacity)
    ensures Weight(Pack(ts[..k], capacity)) + ts[k].grams > capacity
    ensures Weight(Pack(ts, capacity)) + ts[k].grams > capacity
  {
    hide Pack, Weight;
    var n := |ts| - 1;
    PackStep(ts, capacity);
    if k < n {
      assert ts[..n][k] == ts[k] && ts[..n][..k] == ts[..k];
      PackIsMaximal(ts[..n], capacity, k);
    }
  }

  lemma SelectIsMaximal(ts: seq<PlanTransfer>, capacity: int, t: PlanTransfer)
    requires Positive(ts) && capacity >= 0 && t in ts
    ensures var chosen := Select(ts, capacity);
            && Weight(chosen) <= capacity && (forall u :: u in chosen ==> u in ts)
            && (t !in chosen ==> Weight(chosen) + t.grams > capacity)
  {
    var sorted := SortBy(AgeKey, ts);
    MultisetMembers(sorted, ts);
    forall i | 0 <= i < |sorted| ensures sorted[i].grams > 0 {
      assert sorted[i] in sorted;
    }
    var k :| 0 <= k < |sorted| && sorted[k] == t;
    if t !in Select(ts, capacity) { PackIsMaximal(sorted, capacity, k); }
  }

  method SelectTransfers(ts: seq<PlanTransfer>, capacity: int) returns (selected: seq<PlanTransfer>, total: int)
    ensures selected == Select(ts, capacity) && total == Weight(selected)
  {
    hide SortBy;
    var ordered := SortBy(AgeKey, ts);
    selected, total := [], 0;
    var i := 0;
    while i < |ordered|
      invariant 0 <= i <= |ordered|
      invariant selected == Pack(ordered[..i], capacity) && total == Weight(selected)
    {
      var t := ordered[i];
      assert ordered[..i + 1][..i] == ordered[..i];
      if total + t.grams <= capacity {
        assert (selected + [t])[..|selected|] == selected;
        selected := selected + [t];
        total := total + t.grams;
      }
      i := i + 1;
    }
    assert ordered[..i] == ordered;
  }

  // ----- scoring -----

  function Permille(grams: int, capacity: int): int
    requires capacity > 0
  {
    (2_000 * grams + capacity) / (2 * capacity)
  }

  function Least(a: int, b: int): int { if a < b then a else b }

  function Points(permille: int, transfers: nat, slot: nat, route: Option<Metric>, home: bool): int {
    var capacityPoints := Least(45, (permille * 90 + 1_000) / 2_000);
    var consolidation := Least(20, 4 * transfers);
    var early := if 20 - 2 * slot > 0 then 20 - 2 * slot else 0;
    var quality := match route case None => 0 case Some(m) => if m.roadRoute then 10 else 5;
    capacityPoints + consolidation + early + quality + if home then 5 else 0
  }

  /** Rounding a share of at most one whole gives at most a thousand. */
  lemma PermilleInRange(grams: int, capacity: int)
    requires 0 <= grams <= capacity && capacity > 0
    ensures 0 <= Permille(grams, capacity) <= 1_000
  {
    var y, d := 2_000 * grams + capacity, 2 * capacity;
    var x := y / d;
    assert d * x <= y < d * 1_001;
    assert x < 1_001 by {
      if x >= 1_001 { MulGrows(d, 1_001, x); }
    }
  }

  lemma MulGrows(d: int, a: int, b: int)
    requires d > 0 && a <= b
    ensures d * a <= d * b
  {
  }

  lemma PointsInRange(grams: int, capacity: int, transfers: nat, slot: nat, route: Option<Metric>, home: bool)
    requires 0 <= grams <= capacity && capacity > 0
    ensures 0 <= Permille(grams, capacity) <= 1_000
    ensures 0 <= Points(Permille(grams, capacity), transfers, slot, route, home) <= 100
  {
    hide Permille;
    PermilleInRange(grams, capacity);
  }

  predicate Overlaps(c: Conflict, w: Window) {
    match c.schedule
    case None => true
    case Some(s) => w.start < s.end && w.end > s.start
  }

  predicate DriverBusy(conflicts: seq<Conflict>, driver: Id, w: Window) {
    exists i :: 0 <= i < |conflicts| && conflicts[i].driver == driver && Overlaps(conflicts[i], w)
  }

  predicate VehicleBusy(conflicts: seq<Conflict>, vehicle: Id, w: Window) {
    exists i :: 0 <= i < |conflicts| && conflicts[i].vehicle == vehicle && Overlaps(conflicts[i], w)
  }

  function Candidate(p: Plan, v: PlanVehicle, d: Departure, driver: PlanDriver): Recommendation
    requires v.capacity > 0
  {
    var chosen := Select(p.transfers, v.capacity);
    var permille := Permille(Weight(chosen), v.capacity);
    Recommendation(driver, v, d.window, chosen, Weight(chosen), permille, Points(permille, |chosen|, d.slot, p.route, driver.home == p.origin))
  }

  /** Best score first, then fuller, then more transfers, then earlier; codes
      and ids break what ties remain. */
  function RankKey(r: Recommendation): seq<int> {
    [-r.score, -r.permille, -|r.transfers|, r.window.start, r.driver.code, r.vehicle.code, r.driver.id, r.vehicle.id]
  }

  function DriverKey(d: PlanDriver): seq<int> { [d.code, d.id] }

  function VehicleKey(v: PlanVehicle): seq<int> { [v.code, v.id] }

  predicate Sound(p: Plan) {
    forall i :: 0 <= i < |p.vehicles| ==> p.vehicles[i].capacity > 0
  }

  // ----- the search -----

  /** The candidates in the order the loops meet them. */
  function ForDrivers(p: Plan, v: PlanVehicle, d: Departure, drivers: seq<PlanDriver>): seq<Recommendation>
    requires v.capacity > 0
  {
    if |drivers| == 0 then []
    else
      var front := ForDrivers(p, v, d, drivers[..|drivers| - 1]);
      if DriverBusy(p.conflicts, drivers[|drivers| - 1].id, d.window) then front
      else front + [Candidate(p, v, d, drivers[|drivers| - 1])]
  }

  function ForWindows(p: Plan, v: PlanVehicle, windows: seq<Departure>, drivers: seq<PlanDriver>): seq<Recommendation>
    requires v.capacity > 0
  {
    if |windows| == 0 then []
    else
      var front := ForWindows(p, v, windows[..|windows| - 1], drivers);
      var last := windows[|windows| - 1];
      if VehicleBusy(p.conflicts, v.id, last.window) then front else front + ForDrivers(p, v, last, drivers)
  }

  function ForVehicles(p: Plan, vehicles: seq<PlanVehicle>, windows: seq<Departure>, drivers: seq<PlanDriver>): seq<Recommendation>
    requires forall i :: 0 <= i < |vehicles| ==> vehicles[i].capacity > 0
  {
    if |vehicles| == 0 then []
    else
      var front := ForVehicles(p, vehicles[..|vehicles| - 1], windows, drivers);
      var last := vehicles[|vehicles| - 1];
      if Select(p.transfers, last.capacity) == [] then front else front + ForWindows(p, last, windows, drivers)
  }

  function Candidates(p: Plan): seq<Recommendation>
    requires Sound(p)
  {
    SortedSound(p);
    ForVehicles(p, SortBy(VehicleKey, p.vehicles), Departures(p.earliest, p.latest, Duration(p), 0), SortBy(DriverKey, p.drivers))
  }

  lemma SortedSound(p: Plan)
    requires Sound(p)
    ensures forall i :: 0 <= i < |SortBy(VehicleKey, p.vehicles)| ==> SortBy(VehicleKey, p.vehicles)[i].capacity > 0
  {
    var sorted := SortBy(VehicleKey, p.vehicles);
    MultisetMembers(sorted, p.vehicles);
    forall i | 0 <= i < |sorted| ensures sorted[i].capacity > 0 {
      assert sorted[i] in sorted;
    }
  }

  /** Push, sort, pop: the loop's step on the list of recommendations. */
  function Push(best: seq<Recommendation>, c: Recommendation, limit: nat): seq<Recommendation> {
    var pushed := Place(RankKey, best, c);
    if |pushed| > limit then pushed[..|pushed| - 1] else pushed
  }

  lemma {:induction false} BestOfAppend(seen: seq<Recommendation>, c: Recommendation, limit: nat)
    ensures Best(RankKey, limit, seen + [c]) == Push(Best(RankKey, limit, seen), c, limit)
  {
    assert (seen + [c])[..|seen|] == seen;
  }

  lemma DriverStep(p: Plan, v: PlanVehicle, d: Departure, drivers: seq<PlanDriver>, j: nat)
    requires v.capacity > 0 && j < |drivers|
    ensures ForDrivers(p, v, d, drivers[..j + 1]) ==
            if DriverBusy(p.conflicts, drivers[j].id, d.window) then ForDrivers(p, v, d, drivers[..j])
            else ForDrivers(p, v, d, drivers[..j]) + [Candidate(p, v, d, drivers[j])]
  {
    assert drivers[..j + 1][..j] == drivers[..j];
  }

  lemma WindowStep(p: Plan, v: PlanVehicle, windows: seq<Departure>, drivers: seq<PlanDriver>, n: nat)
    requires v.capacity > 0 && n < |windows|
    ensures ForWindows(p, v, windows[..n + 1], drivers) ==
            if VehicleBusy(p.conflicts, v.id, windows[n].window) then ForWindows(p, v, windows[..n], drivers)
            else ForWindows(p, v, windows[..n], drivers) + ForDrivers(p, v, windows[n], drivers)
  {
    assert windows[..n + 1][..n] == windows[..n];
  }

  lemma NoDrivers(p: Plan, v: PlanVehicle, d: Departure, seen: seq<Recommendation>)
    requires v.capacity > 0
    ensures seen + ForDrivers(p, v, d, []) == seen
  {
  }

  lemma NoWindows(p: Plan, v: PlanVehicle, drivers: seq<PlanDriver>, seen: seq<Recommendation>)
    requires v.capacity > 0
    ensures seen + ForWindows(p, v, [], drivers) == seen
  {
  }

  lemma ConcatAssociates(a: seq<Recommendation>, b: seq<Recommendation>, c: seq<Recommendation>)
    ensures (a + b) + c == a + (b + c)
  {
  }

  method SearchDrivers(p: Plan, v: PlanVehicle, d: Departure, drivers: seq<PlanDriver>, transfers: seq<PlanTransfer>, grams: int,
                       best0: seq<Recommendation>, ghost seen: seq<Recommendation>) returns (best: seq<Recommendation>)
    requires v.capacity > 0 && transfers == Select(p.transfers, v.capacity) && grams == Weight(transfers)
    requires best0 == Best(RankKey, p.limit, seen)
    ensures best == Best(RankKey, p.limit, seen + ForDrivers(p, v, d, drivers))
  {
    hide Best, ForDrivers, Select, Weight, Permille, Points, Place, DriverBusy;
    best := best0;
    var j := 0;
    NoDrivers(p, v, d, seen);
    assert drivers[..0] == [];
    while j < |drivers|
      invariant 0 <= j <= |drivers|
      invariant best == Best(RankKey, p.limit, seen + ForDrivers(p, v, d, drivers[..j]))
    {
      var driver := drivers[j];
      DriverStep(p, v, d, drivers, j);
      if !DriverBusy(p.conflicts, driver.id, d.window) {
        var permille := Permille(grams, v.capacity);
        var score := Points(permille, |transfers|, d.slot, p.route, driver.home == p.origin);
        var candidate := Recommendation(driver, v, d.window, transfers, grams, permille, score);
        assert candidate == Candidate(p, v, d, driver);
        ghost var front := ForDrivers(p, v, d, drivers[..j]);
        BestOfAppend(seen + front, candidate, p.limit);
        ConcatAssociates(seen, front, [candidate]);
        best := Place(RankKey, best, candidate);
        if |best| > p.limit { best := best[..|best| - 1]; }
      }
      j := j + 1;
    }
    assert drivers[..j] == drivers;
  }

  method SearchWindows(p: Plan, v: PlanVehicle, windows: seq<Departure>, drivers: seq<PlanDriver>, transfers: seq<PlanTransfer>, grams: int,
                       best0: seq<Recommendation>, ghost seen: seq<Recommendation>) returns (best: seq<Recommendation>)
    requires v.capacity > 0 && transfers == Select(p.transfers, v.capacity) && grams == Weight(transfers)
    requires best0 == Best(RankKey, p.limit, seen)
    ensures best == Best(RankKey, p.limit, seen + ForWindows(p, v, windows, drivers))
  {
    hide Best, ForWindows, ForDrivers, Select, Weight, VehicleBusy;
    best := best0;
    var n := 0;
    NoWindows(p, v, drivers, seen);
    assert windows[..0] == [];
    while n < |windows|
      invariant 0 <= n <= |windows|
      invariant best == Best(RankKey, p.limit, seen + ForWindows(p, v, windows[..n], drivers))
    {
      WindowStep(p, v, windows, drivers, n);
      if !VehicleBusy(p.conflicts, v.id, windows[n].window) {
        ghost var front := ForWindows(p, v, windows[..n], drivers);
        best := SearchDrivers(p, v, windows[n], drivers, transfers, grams, best, seen + front);
        ConcatAssociates(seen, front, ForDrivers(p, v, windows[n], drivers));
      }
      n := n + 1;
    }
    assert windows[..n] == windows;
  }

  lemma VehicleStep(p: Plan, vehicles: seq<PlanVehicle>, windows: seq<Departure>, drivers: seq<PlanDriver>, i: nat)
    requires i < |vehicles| && forall k :: 0 <= k < |vehicles| ==> vehicles[k].capacity > 0
    ensures ForVehicles(p, vehicles[..i + 1], windows, drivers) ==
            if Select(p.transfers, vehicles[i].capacity) == [] then ForVehicles(p, vehicles[..i], windows, drivers)
            else ForVehicles(p, vehicles[..i], windows, drivers) + ForWindows(p, vehicles[i], windows, drivers)
  {
    assert vehicles[..i + 1][..i] == vehicles[..i];
  }

  /** The planner's loops over vehicles, windows and drivers. */
  method Recommend(p: Plan) returns (best: seq<Recommendation>)
    requires Sound(p)
    ensures best == if p.transfers == [] then [] else Best(RankKey, p.limit, Candidates(p))
  {
    hide Best, ForWindows, Select, Weight, SortBy, Departures, Duration, ForDrivers;
    if |p.transfers| == 0 { return []; }
    var windows := BuildWindows(p.earliest, p.latest, Duration(p));
    var drivers := SortBy(DriverKey, p.drivers);
    var vehicles := SortBy(VehicleKey, p.vehicles);
    SortedSound(p);
    best := SearchVehicles(p, vehicles, windows, drivers);
  }

  lemma NothingSeen(p: Plan, windows: seq<Departure>, drivers: seq<PlanDriver>)
    ensures Best(RankKey, p.limit, ForVehicles(p, [], windows, drivers)) == []
  {
  }

  method SearchVehicles(p: Plan, vehicles: seq<PlanVehicle>, windows: seq<Departure>, drivers: seq<PlanDriver>) returns (best: seq<Recommendation>)
    requires forall k :: 0 <= k < |vehicles| ==> vehicles[k].capacity > 0
    ensures best == Best(RankKey, p.limit, ForVehicles(p, vehicles, windows, drivers))
  {
    hide ForWindows, ForVehicles, Best, Select, Weight;
    best := [];
    var i := 0;
    NothingSeen(p, windows, drivers);
    assert vehicles[..0] == [];
    while i < |vehicles|
      invariant 0 <= i <= |vehicles|
      invariant best == Best(RankKey, p.limit, ForVehicles(p, vehicles[..i], windows, drivers))
    {
      var v := vehicles[i];
      VehicleStep(p, vehicles, windows, drivers, i);
      var transfers, grams := SelectTransfers(p.transfers, v.capacity);
      if |transfers| > 0 {
        best := SearchWindows(p, v, windows, drivers, transfers, grams, best, ForVehicles(p, vehicles[..i], windows, drivers));
      }
      i := i + 1;
    }
    assert vehicles[..i] == vehicles;
  }
}

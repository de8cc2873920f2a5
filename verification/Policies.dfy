/** The pure guards of the services: status sets, eligibility, capacity,
    schedule overlap and the shipment transition table. */
module Policies {
  import opened Rows
  import opened Ledgers

  const MAX_CAPACITY_GRAMS := 100_000_000

  predicate ActiveTrip(s: TripStatus) {
    s in {Planned, Ready, Underway}
  }

  predicate ExecutingTrip(s: TripStatus) {
    s in {Ready, Underway}
  }

  /** From READY on the manifest is frozen. */
  predicate FrozenTrip(s: TripStatus) {
    s in {Ready, Underway, Arrived}
  }

  predicate ActiveAssignment(s: AssignmentStatus) {
    s in {Offered, Accepted}
  }

  predicate ValidCapacity(grams: int) {
    0 < grams <= MAX_CAPACITY_GRAMS
  }

  predicate SafeWeight(grams: int) {
    0 < grams <= MAX_SAFE_INTEGER
  }

  predicate ValidWindow(w: Window) {
    w.start < w.end
  }

  predicate Overlap(a: Window, b: Window) {
    a.start < b.end && b.start < a.end
  }

  /** Row ids in the order every multi-row lock takes them. */
  predicate Ascending(ids: seq<Id>) {
    forall i, j :: 0 <= i < j < |ids| ==> ids[i] < ids[j]
  }

  function DriverError(d: Driver): Option<Error> {
    if !d.userActive || d.status == Suspended then Some(DriverInactive)
    else if LineHaul !in d.capabilities then Some(CapabilityRequired)
    else None
  }

  function VehicleError(v: Vehicle): Option<Error> {
    if v.status != Available then Some(VehicleNotAvailable)
    else if !ValidCapacity(v.capacity) then Some(CapacityRequired)
    else None
  }

  function CapacityError(grams: int, capacity: int): Option<Error> {
    if !ValidCapacity(capacity) then Some(CapacityRequired)
    else if grams > capacity then Some(CapacityExceeded)
    else None
  }

  /** The weight that counts is the one verified at check-in, if any. */
  function LoadGrams(s: Shipment): int {
    match s.verifiedGrams case Some(w) => w case None => s.declaredGrams
  }

  function DispatchableError(t: Transfer, s: Shipment, origin: Id, destination: Id): Option<Error> {
    if t.from != origin || t.to != destination then Some(RouteMismatch)
    else if t.status != Waiting then Some(TransferNotPending)
    else if s.current != Some(origin) then Some(ShipmentNotAtWarehouse)
    else if s.destination != Some(destination) then Some(TransferDestinationMismatch)
    else if s.status !in {AtOrigin, AtDestination} then Some(TransitionInvalid)
    else None
  }

  /** Standalone dispatch and receipt stop at the line-haul cutover. */
  predicate Enforced(cutover: Option<int>, now: int) {
    cutover.Some? && now >= cutover.value
  }

  predicate LegacyStandalone(cutover: Option<int>, dispatchedAt: Option<int>) {
    cutover.Some? && dispatchedAt.Some? && dispatchedAt.value < cutover.value
  }

  /** An assignment candidate must be free; `located` stands for the current
      position and the operating-area match, which come from outside. */
  function CandidateError(d: Driver, kind: Capability, located: bool): Option<Error> {
    if !d.userActive || d.status == Suspended then Some(DriverSuspended)
    else if d.status != Free || !d.online || !d.available then Some(DriverNotAvailable)
    else if kind !in d.capabilities then Some(CapabilityRequired)
    else if !located then Some(DriverIneligible)
    else None
  }
}

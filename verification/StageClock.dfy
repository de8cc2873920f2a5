/** When a shipment entered its current stage, as the Control Tower query works
    it out from the tracking history, and the service level that follows. */
module StageClock {
  import opened Rows

  datatype Stage =
    | AwaitingConfirmation | PickupStage | OriginDwell | TransitStage | DestinationDwell | DeliveryStage
    | FailedStage | ReturnRequestedStage | ReturnInTransitStage | Terminal

  function StageOf(s: ShipmentStatus): Stage {
    match s
    case Pending => AwaitingConfirmation
    case Confirmed | AwaitingPickup | PickupAssigned | PickupInProgress | PickedUp => PickupStage
    case AtOrigin => OriginDwell
    case InTransit => TransitStage
    case AtDestination | AwaitingDelivery | DeliveryAssigned => DestinationDwell
    case OutForDelivery => DeliveryStage
    case DeliveryFailed => FailedStage
    case ReturnRequested => ReturnRequestedStage
    case ReturnInTransit => ReturnInTransitStage
    case Delivered | Cancelled | Returned => Terminal
  }

  datatype Event = Event(at: int, status: ShipmentStatus)

  predicate Increasing(es: seq<Event>) {
    forall i, j :: 0 <= i < j < |es| ==> es[i].at < es[j].at
  }

  // ----- the query's aggregates -----

  function Later(a: Option<int>, b: int): Option<int> {
    if a == None || a.value < b then Some(b) else a
  }

  function Sooner(a: Option<int>, b: int): Option<int> {
    if a == None || b < a.value then Some(b) else a
  }

  function Newest(es: seq<Event>, chosen: Event -> bool): Option<int> {
    if |es| == 0 then None
    else
      var rest := Newest(es[1..], chosen);
      if chosen(es[0]) then Later(rest, es[0].at) else rest
  }

  /** The newest event outside the stage. */
  function Boundary(es: seq<Event>, stage: Stage): Option<int> {
    Newest(es, (e: Event) => StageOf(e.status) != stage)
  }

  /** The oldest event of the stage after the boundary. */
  function OldestAfter(es: seq<Event>, stage: Stage, boundary: Option<int>): Option<int> {
    if |es| == 0 then None
    else
      var rest := OldestAfter(es[1..], stage, boundary);
      if StageOf(es[0].status) == stage && (boundary == None || es[0].at > boundary.value) then Sooner(rest, es[0].at) else rest
  }

  function Started(es: seq<Event>, stage: Stage): Option<int> {
    OldestAfter(es, stage, Boundary(es, stage))
  }

  // ----- what they compute -----

  /** Where the longest run of stage events at the end of the history begins. */
  function RunStart(es: seq<Event>, stage: Stage): (r: nat)
    ensures r <= |es|
    ensures forall i :: r <= i < |es| ==> StageOf(es[i].status) == stage
    ensures r > 0 ==> StageOf(es[r - 1].status) != stage
  {
    if |es| == 0 || StageOf(es[|es| - 1].status) != stage then |es| else RunStart(es[..|es| - 1], stage)
  }

  lemma {:induction false} BoundaryBefore(es: seq<Event>, stage: Stage)
    requires Increasing(es)
    ensures var r := RunStart(es, stage); Boundary(es, stage) == if r == 0 then None else Some(es[r - 1].at)
  {
    if |es| > 0 {
      BoundaryBefore(es[1..], stage);
      RunStartTail(es, stage);
    }
  }

  lemma {:induction false} RunStartTail(es: seq<Event>, stage: Stage)
    requires |es| > 0
    ensures RunStart(es, stage) == (if RunStart(es[1..], stage) == 0 && StageOf(es[0].status) == stage then 0 else RunStart(es[1..], stage) + 1)
  {
  }

  lemma {:induction false} OldestIs(es: seq<Event>, stage: Stage, boundary: Option<int>, k: nat)
    requires Increasing(es) && k <= |es|
    requires forall i :: 0 <= i < k ==> StageOf(es[i].status) != stage || (boundary.Some? && es[i].at <= boundary.value)
    requires forall i :: k <= i < |es| ==> StageOf(es[i].status) == stage && (boundary == None || es[i].at > boundary.value)
    ensures OldestAfter(es, stage, boundary) == if k < |es| then Some(es[k].at) else None
  {
    if |es| > 0 {
      OldestIs(es[1..], stage, boundary, if k > 0 then k - 1 else 0);
    }
  }

  /** For histories with increasing times, however often a stage was left and
      entered again, the aggregates give the time of the first event of the
      current visit. */
  lemma StartedIsFirstOfVisit(es: seq<Event>, stage: Stage)
    requires Increasing(es)
    ensures var r := RunStart(es, stage); Started(es, stage) == if r < |es| then Some(es[r].at) else None
  {
    BoundaryBefore(es, stage);
    var r := RunStart(es, stage);
    OldestIs(es, stage, Boundary(es, stage), r);
  }

  /** Events within the stage never move its start; entering it anew starts at
      the entering event; leaving it leaves no start. */
  lemma NextEvent(es: seq<Event>, e: Event, stage: Stage)
    requires Increasing(es + [e])
    ensures Started(es + [e], stage) ==
            if StageOf(e.status) != stage then None
            else if Started(es, stage).Some? then Started(es, stage)
            else Some(e.at)
  {
    var all := es + [e];
    assert all[..|es|] == es;
    forall i, j | 0 <= i < j < |es| ensures es[i].at < es[j].at {
      assert all[i].at < all[j].at;
    }
    StartedIsFirstOfVisit(es, stage);
    StartedIsFirstOfVisit(all, stage);
    assert RunStart(all, stage) == if StageOf(e.status) != stage then |all| else RunStart(es, stage);
  }

  lemma {:induction false} StayingKeepsStart(es: seq<Event>, more: seq<Event>, stage: Stage)
    requires Increasing(es + more) && Started(es, stage).Some?
    requires forall i :: 0 <= i < |more| ==> StageOf(more[i].status) == stage
    ensures Started(es + more, stage) == Started(es, stage)
    decreases |more|
  {
    if |more| == 0 {
      assert es + more == es;
    } else {
      var n := |more| - 1;
      var front := es + more[..n];
      assert es + more == front + [more[n]];
      forall i, j | 0 <= i < j < |front| ensures front[i].at < front[j].at {
        assert (es + more)[i].at < (es + more)[j].at;
      }
      StayingKeepsStart(es, more[..n], stage);
      NextEvent(front, more[n], stage);
    }
  }

  // ----- service level -----

  /** The shipment's own columns, each written as its stage is entered: when it
      was created and confirmed, when its transfer left, when its open delivery
      attempt started. */
  datatype Columns = Columns(createdAt: int, confirmedAt: Option<int>, dispatchedAt: Option<int>, attemptAt: Option<int>)

  function OrElse(a: Option<int>, b: Option<int>): Option<int> {
    if a.Some? then a else b
  }

  /** The start of the stage: the stage's own column where it has one, or else
      what the tracking history says. */
  function StageStart(c: Columns, es: seq<Event>, stage: Stage): Option<int> {
    match stage
    case AwaitingConfirmation => Some(c.createdAt)
    case PickupStage => OrElse(c.confirmedAt, Started(es, stage))
    case TransitStage => OrElse(c.dispatchedAt, Started(es, stage))
    case DeliveryStage => OrElse(c.attemptAt, Started(es, stage))
    case _ => Started(es, stage)
  }

  /** Events outside the shipment's life so far, a newest event that is not of
      the current status, or a stage left without being entered again. */
  predicate Inconsistent(c: Columns, es: seq<Event>, status: ShipmentStatus, now: int) {
    var latest := Newest(es, (e: Event) => true);
    var current := Newest(es, (e: Event) => e.status == status);
    || (exists i :: 0 <= i < |es| && (es[i].at > now || es[i].at < c.createdAt))
    || (latest.Some? && (current == None || current.value < latest.value))
    || (Boundary(es, StageOf(status)).Some? && Started(es, StageOf(status)) == None)
  }

  datatype Quality = Valid | Missing | Contradictory

  function QualityOf(c: Columns, es: seq<Event>, status: ShipmentStatus, now: int): Quality {
    var started := StageStart(c, es, StageOf(status));
    if Inconsistent(c, es, status, now) || (started.Some? && (started.value < c.createdAt || started.value > now)) then Contradictory
    else if started == None then Missing
    else Valid
  }

  datatype Sla = OnTime | AtRisk | Overdue

  /** Budgets are minutes, the clock is milliseconds, the threshold a percentage.
      Without a valid start there is no service level. */
  function SlaAt(c: Columns, es: seq<Event>, status: ShipmentStatus, minutes: nat, percent: nat, now: int): Option<Sla> {
    if QualityOf(c, es, status, now) != Valid then None
    else
      var started := StageStart(c, es, StageOf(status)).value;
      if now >= started + minutes * 60_000 then Some(Overdue)
      else if (now - started) * 100 >= minutes * 60_000 * percent then Some(AtRisk)
      else Some(OnTime)
  }

  function Severity(s: Sla): nat {
    match s case OnTime => 0 case AtRisk => 1 case Overdue => 2
  }

  lemma {:induction false} NewestIsLast(es: seq<Event>, chosen: Event -> bool)
    requires Increasing(es) && |es| > 0 && chosen(es[|es| - 1])
    ensures Newest(es, chosen) == Some(es[|es| - 1].at)
  {
    if |es| > 1 { NewestIsLast(es[1..], chosen); }
  }

  /** A history that ends at the current status, with no event outside the
      shipment's life so far, is consistent. */
  lemma EndsConsistently(c: Columns, es: seq<Event>, status: ShipmentStatus, now: int)
    requires Increasing(es) && |es| > 0 && es[|es| - 1].status == status
    requires forall i :: 0 <= i < |es| ==> c.createdAt <= es[i].at <= now
    ensures !Inconsistent(c, es, status, now) && Started(es, StageOf(status)).Some?
  {
    NewestIsLast(es, (e: Event) => true);
    NewestIsLast(es, (e: Event) => e.status == status);
    StartedIsFirstOfVisit(es, StageOf(status));
  }

  /** While the shipment stays in its stage, every event of it tracked as it
      happens, a service level once shown stays shown, counts from the same
      start and never goes back as the clock advances. */
  lemma SlaNeverImproves(c: Columns, es: seq<Event>, more: seq<Event>, minutes: nat, percent: nat, now: int, later: int)
    requires Increasing(es + more) && |es| > 0 && now <= later
    requires forall i :: 0 <= i < |more| ==> StageOf(more[i].status) == StageOf(es[|es| - 1].status) && c.createdAt <= more[i].at <= later
    requires SlaAt(c, es, es[|es| - 1].status, minutes, percent, now).Some?
    ensures var status := (es + more)[|es + more| - 1].status;
            && StageStart(c, es + more, StageOf(status)) == StageStart(c, es, StageOf(es[|es| - 1].status))
            && SlaAt(c, es + more, status, minutes, percent, later).Some?
            && Severity(SlaAt(c, es, es[|es| - 1].status, minutes, percent, now).value)
               <= Severity(SlaAt(c, es + more, status, minutes, percent, later).value)
  {
    hide Started, Boundary;
    var all := es + more;
    var stage := StageOf(es[|es| - 1].status);
    assert StageOf(all[|all| - 1].status) == stage;
    forall i, j | 0 <= i < j < |es| ensures es[i].at < es[j].at {
      assert all[i].at < all[j].at;
    }
    EndsConsistently(c, es, es[|es| - 1].status, now);
    StayingKeepsStart(es, more, stage);
    EndsConsistently(c, all, all[|all| - 1].status, later);
  }

  /** When the current stage began: its own column where there is one, or else
      the first event of the current visit. */
  function Began(c: Columns, es: seq<Event>, status: ShipmentStatus): int
    requires |es| > 0 && es[|es| - 1].status == status
  {
    var first := es[RunStart(es, StageOf(status))].at;
    if status == Pending then c.createdAt
    else if status in {Confirmed, AwaitingPickup, PickupAssigned, PickupInProgress, PickedUp} && c.confirmedAt.Some? then c.confirmedAt.value
    else if status == ShipmentStatus.InTransit && c.dispatchedAt.Some? then c.dispatchedAt.value
    else if status == OutForDelivery && c.attemptAt.Some? then c.attemptAt.value
    else first
  }

  /** For a history in order that ends at the current status, however often the
      stage was left and entered again: the stage is overdue from the instant
      its budget is used up, at risk from the instant the given percentage of it
      is, and on time before; only a column outside the shipment's life leaves
      no service level. */
  lemma SlaExact(c: Columns, es: seq<Event>, status: ShipmentStatus, minutes: nat, percent: nat, now: int)
    requires Increasing(es) && |es| > 0 && es[|es| - 1].status == status
    requires forall i :: 0 <= i < |es| ==> c.createdAt <= es[i].at <= now
    ensures var began := Began(c, es, status);
            SlaAt(c, es, status, minutes, percent, now) ==
            if began < c.createdAt || began > now then None
            else if now >= began + 60_000 * minutes then Some(Overdue)
            else if now >= began + 600 * minutes * percent then Some(AtRisk)
            else Some(OnTime)
  {
    hide Inconsistent, Started, RunStart;
    EndsConsistently(c, es, status, now);
    StartedIsFirstOfVisit(es, StageOf(status));
    RunIsNotEmpty(es, status);
    assert 100 * (600 * minutes * percent) == minutes * 60_000 * percent;
  }

  lemma RunIsNotEmpty(es: seq<Event>, status: ShipmentStatus)
    requires |es| > 0 && es[|es| - 1].status == status
    ensures RunStart(es, StageOf(status)) < |es|
  {
  }
}

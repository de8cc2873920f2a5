/** The rows the logistics back end keeps, one datatype per table, and the
    replies its commands give. Rows are created and updated but never deleted,
    so a table is a sequence and a row's id is its index. */
module Rows {
  type Id = nat

  datatype Option<+T> = None | Some(value: T)

  datatype Result<+T> = Ok(value: T) | Err(error: Error)

  /** What a command answers: it wrote something, it recognised a replay and
      wrote nothing, or it refused and its transaction rolled back. */
  datatype Reply = Done | Unchanged | Refused(error: Error)

  // One constructor per error code of the services; several services share a code.
  datatype Error =
    | NotFound
    | SameWarehouse
    | WarehouseInactive
    | DriverInactive
    | CapabilityRequired
    | VehicleNotAvailable
    | CapacityRequired
    | CapacityExceeded
    | ShipmentWeightInvalid
    | ManifestWeightInvalid
    | TripNotConfigurable
    | TripNotSchedulable
    | ScheduleRangeInvalid
    | ScheduleRequired
    | TripAlreadyScheduled
    | TripNotScheduled
    | TripNotPreparable
    | TripNotDispatchable
    | TripNotArrivable
    | TripNotCancellable
    | DriverScheduleConflict
    | VehicleScheduleConflict
    | ManifestEmpty
    | ManifestOwnershipInvalid
    | RouteMismatch
    | TransferNotPending
    | TransferNotInTransit
    | TransferOwned
    | TransferAssignmentNotFound
    | TransferOriginMismatch
    | TransferDestinationMismatch
    | ActiveTransferExists
    | DestinationRequired
    | TransferRequired
    | TripRequired
    | TripNotArrived
    | LegacyReceiveNotEligible
    | ShipmentNotAtWarehouse
    | TransitionInvalid
    | ConcurrentModification
    | KeyReused
    | RerouteNotInTransit
    | CurrentRouteRequired
    | RerouteDestinationChanged
    | CurrentGpsRequired
    | VehicleInUse
    | VehicleHasActiveTrip
    | DriverHasActiveAssignment
    | DriverHasActiveTrip
    | DriverUserSuspended
    | DriverSuspended
    | DriverNotAvailable
    | CapabilityInUse
    | ActiveAssignmentExists
    | ActiveAssignmentNotFound
    | DriverAlreadyAssigned
    | DriverIneligible
    | AssignmentStateInvalid
    | AttemptInvalid
    | OriginWarehouseMismatch
    | OriginWarehouseRequired
    | PackageVerificationRequired
    | InvalidInput
    | ReturnWarehouseInvalid
    | ReturnAttemptNotFound
    | ReturnOwnershipSuperseded
    | FeeNotDue
    | FeePaymentPending
    | FeeAlreadyPaid
    | FeeAmountMismatch
    | FeeStateInvalid
    | FeeNotCollected
    | FeeCollectionConflict
    | FeeRemittanceConflict
    | FeeDisputeActive
    | FeeDisputeNotActive
    | FeeDisputeInconsistent
    | CodAmountMismatch
    | CodStateInvalid
    | CodRetryConflict
    | CodHandoverPending
    | CodReasonRequired
    | CodReferenceRequired
    | CodReferenceMismatch

  datatype ShipmentStatus =
    | Pending
    | Confirmed
    | AwaitingPickup
    | PickupAssigned
    | PickupInProgress
    | PickedUp
    | AtOrigin
    | InTransit
    | AtDestination
    | AwaitingDelivery
    | DeliveryAssigned
    | OutForDelivery
    | Delivered
    | DeliveryFailed
    | ReturnRequested
    | ReturnInTransit
    | Returned
    | Cancelled

  datatype TripStatus = Planned | Ready | Underway | Arrived | Withdrawn

  datatype TransferStatus = Waiting | Moving | Completed

  datatype VehicleStatus = Available | InUse | Maintenance | Inactive

  datatype DriverStatus = Offline | Free | Busy | Suspended

  datatype Capability = Pickup | Delivery | LineHaul

  datatype AssignmentStatus = Offered | Accepted | Finished | Rejected | Replaced

  datatype AttemptStatus = Outgoing | Handed | Failed

  datatype Warehouse = Warehouse(active: bool, place: Option<int>)

  datatype Driver = Driver(userActive: bool, status: DriverStatus, online: bool, available: bool,
                           capabilities: set<Capability>, home: Id, version: nat)

  datatype Vehicle = Vehicle(status: VehicleStatus, capacity: int, version: nat)

  datatype Shipment = Shipment(key: Id, status: ShipmentStatus, customer: Id,
                               origin: Option<Id>, destination: Option<Id>, current: Option<Id>, returnTo: Option<Id>,
                               declaredGrams: int, verifiedGrams: Option<int>, version: nat)

  datatype Transfer = Transfer(key: Id, shipment: Id, from: Id, to: Id, status: TransferStatus, dispatchedAt: Option<int>)

  /** A half-open interval of time. */
  datatype Window = Window(start: int, end: int)

  datatype Trip = Trip(key: Id, origin: Id, destination: Id, driver: Id, vehicle: Id, status: TripStatus,
                       schedule: Option<Window>, preparedGrams: Option<int>, preparedCapacity: Option<int>,
                       route: Option<Id>, version: nat)

  /** A transfer's place on a trip's manifest; removal only clears `active`. */
  datatype Link = Link(trip: Id, transfer: Id, active: bool)

  datatype Route = Route(trip: Id, version: nat)

  datatype Assignment = Assignment(key: Id, shipment: Id, driver: Id, kind: Capability, status: AssignmentStatus, proof: bool)

  datatype Attempt = Attempt(shipment: Id, assignment: Id, number: nat, status: AttemptStatus)
}

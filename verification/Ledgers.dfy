/** The money of one shipment: its shipping fee with the fee's disputes, and
    its cash on delivery with remittances and payout. Commands are pure
    transitions here; `LedgerService` applies them to the rows. */
module Ledgers {
  import opened Rows

  const MAX_SAFE_INTEGER := 9007199254740991

  datatype Payer = Sender | Receiver

  datatype Point = AtPickup | AtDelivery

  datatype FeeStatus = FeePending | PaymentPending | Paid | Collected | Remitted | Settled | Disputed | FeeCancelled

  /** What the shipment row fixes at creation. */
  datatype Terms = Terms(customer: Id, payer: Payer, totalFee: int, codAmount: int)

  datatype Fee = Fee(payer: Payer, expected: int, status: FeeStatus,
                     collected: Option<int>, collector: Option<Id>, collectedAt: Option<int>,
                     remitted: Option<int>, remitter: Option<Id>, remittedAt: Option<int>,
                     settler: Option<Id>, settledAt: Option<int>,
                     paid: Option<int>, paidAt: Option<int>)

  datatype Dispute = Dispute(fromStatus: FeeStatus, reason: string, openedBy: Id, resolution: Option<(Id, string)>)

  datatype CodStatus = CodCollected | CodRemitted | CodSettled

  datatype Cod = Cod(expected: int, collected: Option<int>, collector: Id, status: CodStatus, remitted: Option<int>, version: nat)

  datatype RemittanceStatus = Submitted | Verified | Declined

  datatype Remittance = Remittance(driver: Id, amount: int, key: Id, note: Option<string>,
                                   status: RemittanceStatus, version: int, reviewer: Option<Id>, reason: Option<string>)

  datatype PayoutStatus = Prepared | Sent | PaidOut | Contested

  datatype PayoutRequest = PayoutRequest(amount: int, bankTransfer: bool, reference: string, note: Option<string>)

  datatype Payout = Payout(request: PayoutRequest, customer: Id, creator: Id, status: PayoutStatus, version: int,
                           sender: Option<Id>, complaint: Option<string>)

  datatype Ledger = Ledger(terms: Terms, fee: Fee, disputes: seq<Dispute>,
                           cod: Option<Cod>, remittances: seq<Remittance>, payout: Option<Payout>)

  // ----- shipping fee -----

  function OpenLedger(terms: Terms): Ledger {
    Ledger(terms, Fee(terms.payer, terms.totalFee, FeePending, None, None, None, None, None, None, None, None, None, None),
           [], None, [], None)
  }

  predicate PositiveInteger(amount: int) {
    0 < amount <= MAX_SAFE_INTEGER
  }

  predicate SnapshotMatches(l: Ledger) {
    l.fee.payer == l.terms.payer && l.fee.expected == l.terms.totalFee && PositiveInteger(l.fee.expected)
  }

  predicate CollectedIntegrity(f: Fee) {
    PositiveInteger(f.expected) && f.collected == Some(f.expected) && f.collector.Some? && f.collectedAt.Some?
  }

  predicate RemittedIntegrity(f: Fee) {
    CollectedIntegrity(f) && f.remitted == Some(f.expected) && f.remitter.Some? && f.remittedAt.Some?
  }

  predicate PaidIntegrity(f: Fee) {
    && PositiveInteger(f.expected) && f.paid == Some(f.expected) && f.paidAt.Some?
    && f.collected == None && f.collector == None && f.collectedAt == None
    && f.remitted == None && f.remitter == None && f.remittedAt == None
    && f.settler == None && f.settledAt == None
  }

  /** The single evidence policy every delivery and collection retry uses. */
  function ObligationError(f: Fee): Option<Error> {
    match f.status
    case Paid => if PaidIntegrity(f) then None else Some(FeeAmountMismatch)
    case Collected => if CollectedIntegrity(f) then None else Some(FeeAmountMismatch)
    case Remitted | Settled =>
      if !RemittedIntegrity(f) then Some(FeeAmountMismatch)
      else if f.remitter != f.collector || (f.status == Settled && (f.settledAt == None || f.settler == None)) then Some(FeeStateInvalid)
      else None
    case _ => Some(FeeNotCollected)
  }

  function DuePoint(payer: Payer): Point {
    if payer == Sender then AtPickup else AtDelivery
  }

  function CollectAt(l: Ledger, point: Point, driver: Id, amount: Option<int>, now: int): Result<Ledger> {
    var f := l.fee;
    if !SnapshotMatches(l) then Err(FeeStateInvalid)
    else if point != DuePoint(f.payer) then
      if amount.Some? then Err(FeeNotDue)
      else if point == AtDelivery && ObligationError(f).Some? then Err(ObligationError(f).value)
      else Ok(l)
    else if f.status == PaymentPending then Err(FeePaymentPending)
    else if f.status == Paid then
      if amount.Some? then Err(FeeAlreadyPaid)
      else if ObligationError(f).Some? then Err(ObligationError(f).value)
      else Ok(l)
    else if amount != Some(f.expected) then Err(FeeAmountMismatch)
    else if f.status == Collected || f.status == Remitted || f.status == Settled then
      if ObligationError(f).Some? then Err(ObligationError(f).value)
      else if f.collected != amount || f.collector != Some(driver) then Err(FeeCollectionConflict)
      else Ok(l)
    else if f.status != FeePending then Err(FeeStateInvalid)
    else if f.collected != None || f.collector != None then Err(FeeCollectionConflict)
    else Ok(l.(fee := f.(status := Collected, collected := amount, collector := Some(driver), collectedAt := Some(now))))
  }

  function CancelFee(l: Ledger): Result<Ledger> {
    if !SnapshotMatches(l) then Err(FeeStateInvalid)
    else if l.fee.status == FeeCancelled then Ok(l)
    else if l.fee.status != FeePending then Err(FeeStateInvalid)
    else Ok(l.(fee := l.fee.(status := FeeCancelled)))
  }

  /** Steps of the online payment service, known only by its contract. */
  datatype PaymentEvent = PaymentOpened | PaymentFailed | PaymentSucceeded

  function PayOnline(l: Ledger, event: PaymentEvent, now: int): (Ledger, Reply) {
    match event
    case PaymentOpened =>
      if l.fee.status != FeePending then (l, Refused(FeeStateInvalid))
      else (l.(fee := l.fee.(status := PaymentPending)), Done)
    case PaymentFailed =>
      if l.fee.status != PaymentPending then (l, Refused(FeeStateInvalid))
      else (l.(fee := l.fee.(status := FeePending)), Done)
    case PaymentSucceeded =>
      if l.fee.status != PaymentPending then (l, Refused(FeeStateInvalid))
      else (l.(fee := l.fee.(status := Paid, paid := Some(l.fee.expected), paidAt := Some(now))), Done)
  }

  function RemitFee(l: Ledger, driver: Id, amount: int, now: int): (Ledger, Reply) {
    var f := l.fee;
    if f.collector != Some(driver) then (l, Refused(NotFound))
    else if amount != f.expected || !CollectedIntegrity(f) then (l, Refused(FeeAmountMismatch))
    else if f.status == Remitted || f.status == Settled || f.status == Disputed then
      if f.remitted == Some(amount) && f.remitter == Some(driver) && f.remittedAt.Some? then (l, Unchanged)
      else (l, Refused(FeeRemittanceConflict))
    else if f.status != Collected then (l, Refused(FeeStateInvalid))
    else if f.remitted != None || f.remitter != None || f.remittedAt != None then (l, Refused(ConcurrentModification))
    else (l.(fee := f.(status := Remitted, remitted := Some(amount), remitter := Some(driver), remittedAt := Some(now))), Done)
  }

  function SettleFee(l: Ledger, admin: Id, now: int): (Ledger, Reply) {
    var f := l.fee;
    if f.status == Settled then if RemittedIntegrity(f) then (l, Unchanged) else (l, Refused(FeeAmountMismatch))
    else if f.status == Disputed then (l, Refused(FeeDisputeActive))
    else if f.status != Remitted then (l, Refused(FeeStateInvalid))
    else if !RemittedIntegrity(f) then (l, Refused(FeeAmountMismatch))
    else if f.settler != None || f.settledAt != None then (l, Refused(ConcurrentModification))
    else (l.(fee := f.(status := Settled, settler := Some(admin), settledAt := Some(now))), Done)
  }

  predicate ReasonText(text: string) {
    3 <= |text| <= 500
  }

  /** The first unresolved dispute, if any. */
  function OpenDispute(disputes: seq<Dispute>): (r: Option<nat>)
    ensures r.Some? ==> r.value < |disputes| && disputes[r.value].resolution == None
    ensures r == None ==> forall i :: 0 <= i < |disputes| ==> disputes[i].resolution.Some?
  {
    if |disputes| == 0 then None
    else if OpenDispute(disputes[..|disputes| - 1]).Some? then OpenDispute(disputes[..|disputes| - 1])
    else if disputes[|disputes| - 1].resolution == None then Some(|disputes| - 1)
    else None
  }

  function DisputeFee(l: Ledger, admin: Id, reason: string): (Ledger, Reply) {
    var f := l.fee;
    var open := OpenDispute(l.disputes);
    if !ReasonText(reason) then (l, Refused(InvalidInput))
    else if f.status == Disputed then
      if open.Some? && l.disputes[open.value].openedBy == admin && l.disputes[open.value].reason == reason then (l, Unchanged)
      else (l, Refused(FeeDisputeActive))
    else if f.status != Collected && f.status != Remitted then (l, Refused(FeeStateInvalid))
    else if !CollectedIntegrity(f) || (f.status == Remitted && !RemittedIntegrity(f)) then (l, Refused(FeeAmountMismatch))
    else if open.Some? then (l, Refused(FeeDisputeInconsistent))
    else (l.(fee := f.(status := Disputed), disputes := l.disputes + [Dispute(f.status, reason, admin, None)]), Done)
  }

  function ResolveFee(l: Ledger, admin: Id, note: string): (Ledger, Reply) {
    var f := l.fee;
    var open := OpenDispute(l.disputes);
    if !ReasonText(note) then (l, Refused(InvalidInput))
    else if f.status != Disputed || open == None then
      if |l.disputes| > 0 && l.disputes[|l.disputes| - 1].resolution == Some((admin, note)) then (l, Unchanged)
      else (l, Refused(FeeDisputeNotActive))
    else
      var d := l.disputes[open.value];
      if d.fromStatus != Collected && d.fromStatus != Remitted then (l, Refused(FeeDisputeInconsistent))
      else if !CollectedIntegrity(f) || (d.fromStatus == Remitted && !RemittedIntegrity(f)) then (l, Refused(FeeAmountMismatch))
      else if d.fromStatus == Collected && (f.remitted != None || f.remitter != None || f.remittedAt != None) then
        (l, Refused(FeeDisputeInconsistent))
      else (l.(fee := f.(status := d.fromStatus), disputes := l.disputes[open.value := d.(resolution := Some((admin, note)))]), Done)
  }

  // ----- cash on delivery -----

  predicate AmountMatches(c: Cod, amount: Option<int>) {
    amount == Some(c.expected) && PositiveInteger(c.expected) && c.collected == Some(c.expected)
  }

  /** Completing a delivery opens the COD row when the shipment carries one. */
  function OpenCod(l: Ledger, driver: Id): Ledger {
    if l.terms.codAmount > 0
    then l.(cod := Some(Cod(l.terms.codAmount, Some(l.terms.codAmount), driver, CodCollected, None, 0)))
    else l
  }

  function FindRemittance(rs: seq<Remittance>, key: Id): (r: Option<nat>)
    ensures r.Some? ==> r.value < |rs| && rs[r.value].key == key
    ensures r == None ==> forall i :: 0 <= i < |rs| ==> rs[i].key != key
  {
    if |rs| == 0 then None
    else if FindRemittance(rs[..|rs| - 1], key).Some? then FindRemittance(rs[..|rs| - 1], key)
    else if rs[|rs| - 1].key == key then Some(|rs| - 1)
    else None
  }

  function RemitCod(l: Ledger, driver: Id, amount: int, key: Id, note: Option<string>): (Ledger, Reply) {
    if l.cod == None || l.cod.value.collector != driver then (l, Refused(NotFound))
    else if !AmountMatches(l.cod.value, Some(amount)) then (l, Refused(CodAmountMismatch))
    else
      var existing := FindRemittance(l.remittances, key);
      if existing.Some? then
        var r := l.remittances[existing.value];
        if r.amount != amount || r.driver != driver || r.note != note then (l, Refused(CodRetryConflict)) else (l, Unchanged)
      else if l.cod.value.status != CodCollected then (l, Refused(CodStateInvalid))
      else if exists i :: 0 <= i < |l.remittances| && l.remittances[i].status == Submitted then (l, Refused(CodHandoverPending))
      else (l.(remittances := l.remittances + [Remittance(driver, amount, key, note, Submitted, 0, None, None)]), Done)
  }

  /** An admin confirms (`reason == None`) or rejects a remittance. */
  function ReviewRemittance(l: Ledger, id: Id, admin: Id, expectedVersion: int, confirm: bool, reason: Option<string>): (Ledger, Reply) {
    if id >= |l.remittances| || l.cod == None then (l, Refused(NotFound))
    else
      var r := l.remittances[id];
      var c := l.cod.value;
      var next := if confirm then Verified else Declined;
      if !confirm && reason in {None, Some("")} then (l, Refused(CodReasonRequired))
      else if r.status == next && r.version == expectedVersion + 1 && r.reviewer == Some(admin) && r.reason == reason then (l, Unchanged)
      else if r.status != Submitted || c.status != CodCollected then (l, Refused(CodStateInvalid))
      else if r.version != expectedVersion then (l, Refused(ConcurrentModification))
      else if !AmountMatches(c, Some(r.amount)) then (l, Refused(CodAmountMismatch))
      else
        var reviewed := l.remittances[id := r.(status := next, reviewer := Some(admin), reason := reason, version := r.version + 1)];
        if confirm
        then (l.(remittances := reviewed, cod := Some(c.(status := CodRemitted, remitted := Some(r.amount), version := c.version + 1))), Done)
        else (l.(remittances := reviewed), Done)
  }

  function SettleCod(l: Ledger): (Ledger, Reply) {
    if l.cod == None then (l, Refused(NotFound))
    else
      var c := l.cod.value;
      if !AmountMatches(c, c.remitted) then (l, Refused(CodAmountMismatch))
      else if c.status == CodSettled then (l, Unchanged)
      else if c.status != CodRemitted then (l, Refused(CodStateInvalid))
      else (l.(cod := Some(c.(status := CodSettled, version := c.version + 1))), Done)
  }

  function CreatePayout(l: Ledger, admin: Id, request: PayoutRequest): (Ledger, Reply) {
    if l.cod == None then (l, Refused(NotFound))
    else
      var c := l.cod.value;
      if c.status != CodSettled then (l, Refused(CodStateInvalid))
      else if !AmountMatches(c, Some(request.amount)) || !AmountMatches(c, c.remitted) then (l, Refused(CodAmountMismatch))
      else if request.reference == "" then (l, Refused(CodReferenceRequired))
      else if l.payout.Some? then
        if l.payout.value.request != request || l.payout.value.creator != admin then (l, Refused(CodRetryConflict)) else (l, Unchanged)
      else (l.(payout := Some(Payout(request, l.terms.customer, admin, Prepared, 0, None, None))), Done)
  }

  function SendPayout(l: Ledger, admin: Id, reference: string, expectedVersion: int): (Ledger, Reply) {
    if l.cod == None || l.payout == None then (l, Refused(NotFound))
    else
      var c := l.cod.value;
      var p := l.payout.value;
      if c.status != CodSettled then (l, Refused(CodStateInvalid))
      else if !AmountMatches(c, Some(p.request.amount)) then (l, Refused(CodAmountMismatch))
      else if reference == "" || p.request.reference != reference then (l, Refused(CodReferenceMismatch))
      else if p.sender == Some(admin) && expectedVersion == 0 then (l, Unchanged)
      else if p.status != Prepared then (l, Refused(CodStateInvalid))
      else if p.version != expectedVersion then (l, Refused(ConcurrentModification))
      else (l.(payout := Some(p.(status := Sent, sender := Some(admin), version := p.version + 1))), Done)
  }

  function AcknowledgePayout(l: Ledger, customer: Id, expectedVersion: int, received: bool, reason: Option<string>): (Ledger, Reply) {
    if l.cod == None || l.payout == None || l.payout.value.customer != customer || l.terms.customer != customer then (l, Refused(NotFound))
    else
      var c := l.cod.value;
      var p := l.payout.value;
      var next := if received then PaidOut else Contested;
      if !received && reason in {None, Some("")} then (l, Refused(CodReasonRequired))
      else if p.status == next && p.version == expectedVersion + 1 && p.complaint == reason then (l, Unchanged)
      else if c.status != CodSettled || p.status != Sent then (l, Refused(CodStateInvalid))
      else if !AmountMatches(c, Some(p.request.amount)) then (l, Refused(CodAmountMismatch))
      else if p.version != expectedVersion then (l, Refused(ConcurrentModification))
      else (l.(payout := Some(p.(status := next, complaint := reason, version := p.version + 1))), Done)
  }

  /** The commands on a ledger that leave the shipment row alone. */
  datatype MoneyCommand =
    | OnlinePayment(event: PaymentEvent, now: int)
    | FeeRemit(driver: Id, amount: int, now: int)
    | FeeSettle(admin: Id, now: int)
    | FeeDispute(admin: Id, reason: string)
    | FeeResolve(admin: Id, note: string)
    | CodRemit(driver: Id, amount: int, key: Id, memo: Option<string>)
    | CodReview(remittance: Id, admin: Id, expectedVersion: int, confirm: bool, grounds: Option<string>)
    | CodSettle
    | PayoutCreate(admin: Id, request: PayoutRequest)
    | PayoutSend(admin: Id, reference: string, expectedVersion: int)
    | PayoutAcknowledge(customer: Id, expectedVersion: int, received: bool, grounds: Option<string>)

  function MoneyStep(l: Ledger, c: MoneyCommand): (Ledger, Reply) {
    match c
    case OnlinePayment(event, now) => PayOnline(l, event, now)
    case FeeRemit(driver, amount, now) => RemitFee(l, driver, amount, now)
    case FeeSettle(admin, now) => SettleFee(l, admin, now)
    case FeeDispute(admin, reason) => DisputeFee(l, admin, reason)
    case FeeResolve(admin, note) => ResolveFee(l, admin, note)
    case CodRemit(driver, amount, key, memo) => RemitCod(l, driver, amount, key, memo)
    case CodReview(id, admin, version, confirm, grounds) => ReviewRemittance(l, id, admin, version, confirm, grounds)
    case CodSettle => SettleCod(l)
    case PayoutCreate(admin, request) => CreatePayout(l, admin, request)
    case PayoutSend(admin, reference, version) => SendPayout(l, admin, reference, version)
    case PayoutAcknowledge(customer, version, received, grounds) => AcknowledgePayout(l, customer, version, received, grounds)
  }
}

/** The money services as they run: a ledger row read under its lock, checked,
    and its fee, dispute, COD, remittance or payout columns rewritten. */
module LedgerService {
  import opened Rows
  import opened Ledgers
  import opened Tables
  import opened Invariants
  import opened Storage
  import opened Reachability
  import KeepParcels

  /** Collects a fee at pickup or delivery, or recognises that it was. */
  method Collect(s: Store, id: Id, point: Point, driver: Id, amount: Option<int>, now: int) returns (e: Option<Error>)
    requires id < |s.ledgers|
    modifies s`ledgers
    ensures match CollectAt(old(s.ledgers[id]), point, driver, amount, now)
            case Err(refusal) => e == Some(refusal) && s.ledgers == old(s.ledgers)
            case Ok(l) => e == None && s.ledgers == old(s.ledgers)[id := l]
  {
    var l := s.ledgers[id];
    var f := l.fee;
    assert s.ledgers[id := l] == s.ledgers;
    if !SnapshotMatches(l) { return Some(FeeStateInvalid); }
    if point != DuePoint(f.payer) {
      if amount.Some? { return Some(FeeNotDue); }
      return if point == AtDelivery then ObligationError(f) else None;
    }
    if f.status == PaymentPending { return Some(FeePaymentPending); }
    if f.status == Paid {
      if amount.Some? { return Some(FeeAlreadyPaid); }
      return ObligationError(f);
    }
    if amount != Some(f.expected) { return Some(FeeAmountMismatch); }
    if f.status in {Collected, Remitted, Settled} {
      e := ObligationError(f);
      if e == None && (f.collected != amount || f.collector != Some(driver)) { e := Some(FeeCollectionConflict); }
      return;
    }
    if f.status != FeePending { return Some(FeeStateInvalid); }
    if f.collected != None || f.collector != None { return Some(FeeCollectionConflict); }
    f := f.(status := Collected, collected := amount, collector := Some(driver), collectedAt := Some(now));
    s.ledgers := s.ledgers[id := l.(fee := f)];
    return None;
  }

  /** A retried pickup or delivery checks its collection again. */
  method Recollect(s: Store, id: Id, point: Point, driver: Id, amount: Option<int>, now: int) returns (r: Reply)
    requires id < |s.ledgers|
    modifies s`ledgers
    ensures match CollectAt(old(s.ledgers[id]), point, driver, amount, now)
            case Err(refusal) => r == Refused(refusal) && s.ledgers == old(s.ledgers)
            case Ok(l) => r == (if l == old(s.ledgers[id]) then Unchanged else Done) && s.ledgers == old(s.ledgers)[id := l]
  {
    var before := s.ledgers[id];
    var e := Collect(s, id, point, driver, amount, now);
    if e.Some? { return Refused(e.value); }
    return if s.ledgers[id] == before then Unchanged else Done;
  }

  /** A completed delivery opens the COD row of a shipment that carries one. */
  method RecordCod(s: Store, id: Id, driver: Id)
    requires id < |s.ledgers|
    modifies s`ledgers
    ensures s.ledgers == old(s.ledgers)[id := OpenCod(old(s.ledgers[id]), driver)]
  {
    var l := s.ledgers[id];
    if l.terms.codAmount > 0 {
      l := l.(cod := Some(Cod(l.terms.codAmount, Some(l.terms.codAmount), driver, CodCollected, None, 0)));
    }
    s.ledgers := s.ledgers[id := l];
  }

  method RemitFee(s: Store, id: Id, driver: Id, amount: int, now: int) returns (r: Reply)
    requires s.Valid()
    modifies s
    ensures s.Valid() && (s.Db(), r) == Settle(old(s.Db()), id, FeeRemit(driver, amount, now))
  {
    hide Inv;
    Resolves(s.Db());
    if id >= |s.ledgers| { return Refused(NotFound); }
    KeepParcels.MoneyKeeps(s.Db(), id, FeeRemit(driver, amount, now));
    var l := s.ledgers[id];
    var f := l.fee;
    assert s.ledgers[id := l] == s.ledgers;
    if f.collector != Some(driver) { return Refused(NotFound); }
    if amount != f.expected || !CollectedIntegrity(f) { return Refused(FeeAmountMismatch); }
    if f.status in {Remitted, Settled, Disputed} {
      if f.remitted == Some(amount) && f.remitter == Some(driver) && f.remittedAt.Some? { return Unchanged; }
      return Refused(FeeRemittanceConflict);
    }
    if f.status != Collected { return Refused(FeeStateInvalid); }
    if f.remitted != None || f.remitter != None || f.remittedAt != None { return Refused(ConcurrentModification); }
    f := f.(status := Remitted, remitted := Some(amount), remitter := Some(driver), remittedAt := Some(now));
    s.ledgers := s.ledgers[id := l.(fee := f)];
    return Done;
  }

  method SettleFee(s: Store, id: Id, admin: Id, now: int) returns (r: Reply)
    requires s.Valid()
    modifies s
    ensures s.Valid() && (s.Db(), r) == Settle(old(s.Db()), id, FeeSettle(admin, now))
  {
    hide Inv;
    Resolves(s.Db());
    if id >= |s.ledgers| { return Refused(NotFound); }
    KeepParcels.MoneyKeeps(s.Db(), id, FeeSettle(admin, now));
    var l := s.ledgers[id];
    var f := l.fee;
    assert s.ledgers[id := l] == s.ledgers;
    if f.status == Settled {
      return if RemittedIntegrity(f) then Unchanged else Refused(FeeAmountMismatch);
    }
    if f.status == Disputed { return Refused(FeeDisputeActive); }
    if f.status != Remitted { return Refused(FeeStateInvalid); }
    if !RemittedIntegrity(f) { return Refused(FeeAmountMismatch); }
    if f.settler != None || f.settledAt != None { return Refused(ConcurrentModification); }
    f := f.(status := Settled, settler := Some(admin), settledAt := Some(now));
    s.ledgers := s.ledgers[id := l.(fee := f)];
    return Done;
  }

  method DisputeFee(s: Store, id: Id, admin: Id, reason: string) returns (r: Reply)
    requires s.Valid()
    modifies s
    ensures s.Valid() && (s.Db(), r) == Settle(old(s.Db()), id, FeeDispute(admin, reason))
  {
    hide Inv;
    Resolves(s.Db());
    if id >= |s.ledgers| { return Refused(NotFound); }
    KeepParcels.MoneyKeeps(s.Db(), id, FeeDispute(admin, reason));
    var l := s.ledgers[id];
    var f := l.fee;
    assert s.ledgers[id := l] == s.ledgers;
    if !ReasonText(reason) { return Refused(InvalidInput); }
    var open := OpenDispute(l.disputes);
    if f.status == Disputed {
      if open.Some? && l.disputes[open.value].openedBy == admin && l.disputes[open.value].reason == reason { return Unchanged; }
      return Refused(FeeDisputeActive);
    }
    if f.status !in {Collected, Remitted} { return Refused(FeeStateInvalid); }
    if !CollectedIntegrity(f) || (f.status == Remitted && !RemittedIntegrity(f)) { return Refused(FeeAmountMismatch); }
    if open.Some? { return Refused(FeeDisputeInconsistent); }
    l := l.(disputes := l.disputes + [Dispute(f.status, reason, admin, None)]);
    l := l.(fee := f.(status := Disputed));
    s.ledgers := s.ledgers[id := l];
    return Done;
  }

  method ResolveDispute(s: Store, id: Id, admin: Id, note: string) returns (r: Reply)
    requires s.Valid()
    modifies s
    ensures s.Valid() && (s.Db(), r) == Settle(old(s.Db()), id, FeeResolve(admin, note))
  {
    hide Inv;
    Resolves(s.Db());
    if id >= |s.ledgers| { return Refused(NotFound); }
    KeepParcels.MoneyKeeps(s.Db(), id, FeeResolve(admin, note));
    var l := s.ledgers[id];
    var f := l.fee;
    assert s.ledgers[id := l] == s.ledgers;
    if !ReasonText(note) { return Refused(InvalidInput); }
    var open := OpenDispute(l.disputes);
    if f.status != Disputed || open == None {
      if |l.disputes| > 0 && l.disputes[|l.disputes| - 1].resolution == Some((admin, note)) { return Unchanged; }
      return Refused(FeeDisputeNotActive);
    }
    var d := l.disputes[open.value];
    if d.fromStatus !in {Collected, Remitted} { return Refused(FeeDisputeInconsistent); }
    if !CollectedIntegrity(f) || (d.fromStatus == Remitted && !RemittedIntegrity(f)) { return Refused(FeeAmountMismatch); }
    if d.fromStatus == Collected && (f.remitted != None || f.remitter != None || f.remittedAt != None) { return Refused(FeeDisputeInconsistent); }
    l := l.(disputes := l.disputes[open.value := d.(resolution := Some((admin, note)))]);
    l := l.(fee := f.(status := d.fromStatus));
    s.ledgers := s.ledgers[id := l];
    return Done;
  }

  method RemitCod(s: Store, id: Id, driver: Id, amount: int, key: Id, memo: Option<string>) returns (r: Reply)
    requires s.Valid()
    modifies s
    ensures s.Valid() && (s.Db(), r) == Settle(old(s.Db()), id, CodRemit(driver, amount, key, memo))
  {
    hide Inv;
    Resolves(s.Db());
    if id >= |s.ledgers| { return Refused(NotFound); }
    KeepParcels.MoneyKeeps(s.Db(), id, CodRemit(driver, amount, key, memo));
    var l := s.ledgers[id];
    assert s.ledgers[id := l] == s.ledgers;
    if l.cod == None || l.cod.value.collector != driver { return Refused(NotFound); }
    var c := l.cod.value;
    if !AmountMatches(c, Some(amount)) { return Refused(CodAmountMismatch); }
    var existing := FindRemittance(l.remittances, key);
    if existing.Some? {
      var sent := l.remittances[existing.value];
      return if sent.amount != amount || sent.driver != driver || sent.note != memo then Refused(CodRetryConflict) else Unchanged;
    }
    if c.status != CodCollected { return Refused(CodStateInvalid); }
    if exists i :: 0 <= i < |l.remittances| && l.remittances[i].status == Submitted { return Refused(CodHandoverPending); }
    l := l.(remittances := l.remittances + [Remittance(driver, amount, key, memo, Submitted, 0, None, None)]);
    s.ledgers := s.ledgers[id := l];
    return Done;
  }

  method ReviewCod(s: Store, id: Id, remittance: Id, admin: Id, expectedVersion: int, confirm: bool, grounds: Option<string>) returns (r: Reply)
    requires s.Valid()
    modifies s
    ensures s.Valid() && (s.Db(), r) == Settle(old(s.Db()), id, CodReview(remittance, admin, expectedVersion, confirm, grounds))
  {
    hide Inv;
    Resolves(s.Db());
    if id >= |s.ledgers| { return Refused(NotFound); }
    KeepParcels.MoneyKeeps(s.Db(), id, CodReview(remittance, admin, expectedVersion, confirm, grounds));
    var l := s.ledgers[id];
    assert s.ledgers[id := l] == s.ledgers;
    if remittance >= |l.remittances| || l.cod == None { return Refused(NotFound); }
    var row, c := l.remittances[remittance], l.cod.value;
    var next := if confirm then Verified else Declined;
    if !confirm && grounds in {None, Some("")} { return Refused(CodReasonRequired); }
    if row.status == next && row.version == expectedVersion + 1 && row.reviewer == Some(admin) && row.reason == grounds { return Unchanged; }
    if row.status != Submitted || c.status != CodCollected { return Refused(CodStateInvalid); }
    if row.version != expectedVersion { return Refused(ConcurrentModification); }
    if !AmountMatches(c, Some(row.amount)) { return Refused(CodAmountMismatch); }
    row := row.(status := next, reviewer := Some(admin), reason := grounds, version := row.version + 1);
    l := l.(remittances := l.remittances[remittance := row]);
    if confirm {
      l := l.(cod := Some(c.(status := CodRemitted, remitted := Some(row.amount), version := c.version + 1)));
    }
    s.ledgers := s.ledgers[id := l];
    return Done;
  }

  method SettleCod(s: Store, id: Id) returns (r: Reply)
    requires s.Valid()
    modifies s
    ensures s.Valid() && (s.Db(), r) == Settle(old(s.Db()), id, CodSettle)
  {
    hide Inv;
    Resolves(s.Db());
    if id >= |s.ledgers| { return Refused(NotFound); }
    KeepParcels.MoneyKeeps(s.Db(), id, CodSettle);
    var l := s.ledgers[id];
    assert s.ledgers[id := l] == s.ledgers;
    if l.cod == None { return Refused(NotFound); }
    var c := l.cod.value;
    if !AmountMatches(c, c.remitted) { return Refused(CodAmountMismatch); }
    if c.status == CodSettled { return Unchanged; }
    if c.status != CodRemitted { return Refused(CodStateInvalid); }
    s.ledgers := s.ledgers[id := l.(cod := Some(c.(status := CodSettled, version := c.version + 1)))];
    return Done;
  }

  method CreatePayout(s: Store, id: Id, admin: Id, request: PayoutRequest) returns (r: Reply)
    requires s.Valid()
    modifies s
    ensures s.Valid() && (s.Db(), r) == Settle(old(s.Db()), id, PayoutCreate(admin, request))
  {
    hide Inv;
    Resolves(s.Db());
    if id >= |s.ledgers| { return Refused(NotFound); }
    KeepParcels.MoneyKeeps(s.Db(), id, PayoutCreate(admin, request));
    var l := s.ledgers[id];
    assert s.ledgers[id := l] == s.ledgers;
    if l.cod == None { return Refused(NotFound); }
    var c := l.cod.value;
    if c.status != CodSettled { return Refused(CodStateInvalid); }
    if !AmountMatches(c, Some(request.amount)) || !AmountMatches(c, c.remitted) { return Refused(CodAmountMismatch); }
    if request.reference == "" { return Refused(CodReferenceRequired); }
    if l.payout.Some? {
      return if l.payout.value.request != request || l.payout.value.creator != admin then Refused(CodRetryConflict) else Unchanged;
    }
    s.ledgers := s.ledgers[id := l.(payout := Some(Payout(request, l.terms.customer, admin, Prepared, 0, None, None)))];
    return Done;
  }

  method SendPayout(s: Store, id: Id, admin: Id, reference: string, expectedVersion: int) returns (r: Reply)
    requires s.Valid()
    modifies s
    ensures s.Valid() && (s.Db(), r) == Settle(old(s.Db()), id, PayoutSend(admin, reference, expectedVersion))
  {
    hide Inv;
    Resolves(s.Db());
    if id >= |s.ledgers| { return Refused(NotFound); }
    KeepParcels.MoneyKeeps(s.Db(), id, PayoutSend(admin, reference, expectedVersion));
    var l := s.ledgers[id];
    assert s.ledgers[id := l] == s.ledgers;
    if l.cod == None || l.payout == None { return Refused(NotFound); }
    var c, p := l.cod.value, l.payout.value;
    if c.status != CodSettled { return Refused(CodStateInvalid); }
    if !AmountMatches(c, Some(p.request.amount)) { return Refused(CodAmountMismatch); }
    if reference == "" || p.request.reference != reference { return Refused(CodReferenceMismatch); }
    if p.sender == Some(admin) && expectedVersion == 0 { return Unchanged; }
    if p.status != Prepared { return Refused(CodStateInvalid); }
    if p.version != expectedVersion { return Refused(ConcurrentModification); }
    s.ledgers := s.ledgers[id := l.(payout := Some(p.(status := Sent, sender := Some(admin), version := p.version + 1)))];
    return Done;
  }

  method AcknowledgePayout(s: Store, id: Id, customer: Id, expectedVersion: int, received: bool, grounds: Option<string>) returns (r: Reply)
    requires s.Valid()
    modifies s
    ensures s.Valid() && (s.Db(), r) == Settle(old(s.Db()), id, PayoutAcknowledge(customer, expectedVersion, received, grounds))
  {
    hide Inv;
    Resolves(s.Db());
    if id >= |s.ledgers| { return Refused(NotFound); }
    KeepParcels.MoneyKeeps(s.Db(), id, PayoutAcknowledge(customer, expectedVersion, received, grounds));
    var l := s.ledgers[id];
    assert s.ledgers[id := l] == s.ledgers;
    if l.cod == None || l.payout == None || l.payout.value.customer != customer || l.terms.customer != customer { return Refused(NotFound); }
    var c, p := l.cod.value, l.payout.value;
    var next := if received then PaidOut else Contested;
    if !received && grounds in {None, Some("")} { return Refused(CodReasonRequired); }
    if p.status == next && p.version == expectedVersion + 1 && p.complaint == grounds { return Unchanged; }
    if c.status != CodSettled || p.status != Sent { return Refused(CodStateInvalid); }
    if !AmountMatches(c, Some(p.request.amount)) { return Refused(CodAmountMismatch); }
    if p.version != expectedVersion { return Refused(ConcurrentModification); }
    s.ledgers := s.ledgers[id := l.(payout := Some(p.(status := next, complaint := grounds, version := p.version + 1)))];
    return Done;
  }
}

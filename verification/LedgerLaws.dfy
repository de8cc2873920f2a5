/** What every command keeps true of a ledger, and what a run of commands
    can never do to it. */
module LedgerLaws {
  import opened Rows
  import opened Ledgers

  predicate NothingCollected(f: Fee) {
    f.collected == None && f.collector == None && f.collectedAt == None
  }

  predicate NothingRemitted(f: Fee) {
    f.remitted == None && f.remitter == None && f.remittedAt == None
  }

  predicate NothingSettled(f: Fee) {
    f.settler == None && f.settledAt == None
  }

  predicate NothingPaid(f: Fee) {
    f.paid == None && f.paidAt == None
  }

  predicate HandedOver(f: Fee) {
    RemittedIntegrity(f) && f.remitter == f.collector
  }

  predicate FeeShape(f: Fee) {
    match f.status
    case FeePending | PaymentPending | FeeCancelled =>
      NothingCollected(f) && NothingRemitted(f) && NothingSettled(f) && NothingPaid(f)
    case Paid => PaidIntegrity(f)
    case Collected => CollectedIntegrity(f) && NothingRemitted(f) && NothingSettled(f) && NothingPaid(f)
    case Remitted => HandedOver(f) && NothingSettled(f) && NothingPaid(f)
    case Settled => HandedOver(f) && f.settler.Some? && f.settledAt.Some? && NothingPaid(f)
    case Disputed => CollectedIntegrity(f) && (NothingRemitted(f) || HandedOver(f)) && NothingSettled(f) && NothingPaid(f)
  }

  /** Paid online in full or collected in full by one driver, never both. */
  predicate Satisfied(f: Fee) {
    || (f.paid == Some(f.expected) && NothingCollected(f))
    || (CollectedIntegrity(f) && NothingPaid(f))
  }

  /** A disputed fee has exactly one open dispute, the newest one, and that
      dispute remembers the status the fee came from. */
  predicate DisputesOk(l: Ledger) {
    && (forall i :: 0 <= i < |l.disputes| - 1 ==> l.disputes[i].resolution.Some?)
    && (l.fee.status == Disputed <==> |l.disputes| > 0 && l.disputes[|l.disputes| - 1].resolution == None)
    && (l.fee.status == Disputed ==>
          l.disputes[|l.disputes| - 1].fromStatus == if NothingRemitted(l.fee) then Collected else Remitted)
  }

  predicate RemittanceOk(c: Cod, r: Remittance) {
    r.amount == c.expected && r.driver == c.collector && r.version == if r.status == Submitted then 0 else 1
  }

  predicate PayoutOk(l: Ledger, c: Cod, p: Payout) {
    && c.status == CodSettled && p.request.amount == c.expected && p.customer == l.terms.customer
    && p.version == (match p.status case Prepared => 0 case Sent => 1 case _ => 2)
    && (p.status == Prepared <==> p.sender == None)
  }

  predicate CodOk(l: Ledger) {
    match l.cod
    case None => l.remittances == [] && l.payout == None
    case Some(c) =>
      && c.expected == l.terms.codAmount && PositiveInteger(c.expected) && c.collected == Some(c.expected)
      && (forall i :: 0 <= i < |l.remittances| ==> RemittanceOk(c, l.remittances[i]))
      && (forall i, j :: 0 <= i < j < |l.remittances| ==> l.remittances[i].key != l.remittances[j].key)
      && (forall i, j :: 0 <= i < j < |l.remittances| ==>
            l.remittances[i].status == l.remittances[j].status ==> l.remittances[i].status == Declined)
      && c.remitted == (if c.status == CodCollected then None else Some(c.expected))
      && (c.status == CodCollected ==> forall i :: 0 <= i < |l.remittances| ==> l.remittances[i].status != Verified)
      && (c.status != CodCollected ==> forall i :: 0 <= i < |l.remittances| ==> l.remittances[i].status != Submitted)
      && (c.status != CodCollected ==> exists i :: 0 <= i < |l.remittances| && l.remittances[i].status == Verified)
      && (l.payout.Some? ==> PayoutOk(l, c, l.payout.value))
  }

  predicate CollectedFromSender(s: ShipmentStatus) {
    s !in {Pending, Confirmed, AwaitingPickup, PickupAssigned, PickupInProgress, Cancelled}
  }

  predicate LedgerOk(s: ShipmentStatus, l: Ledger) {
    && SnapshotMatches(l) && FeeShape(l.fee) && DisputesOk(l) && CodOk(l)
    && 0 <= l.terms.codAmount <= MAX_SAFE_INTEGER
    && (l.fee.status == FeeCancelled <==> s == Cancelled)
    && (l.terms.payer == Sender && CollectedFromSender(s) ==> Satisfied(l.fee))
    && (l.terms.payer == Sender && !CollectedFromSender(s) ==> NothingCollected(l.fee))
    && (l.terms.payer == Receiver && s != Delivered ==> NothingCollected(l.fee))
    && (s == Delivered ==> Satisfied(l.fee))
    && (l.cod.Some? <==> s == Delivered && l.terms.codAmount > 0)
  }

  // ----- keeping the invariant -----

  lemma OpenDisputeIsNewest(l: Ledger)
    requires DisputesOk(l)
    ensures OpenDispute(l.disputes) == if l.fee.status == Disputed then Some(|l.disputes| - 1) else None
  {
  }

  lemma CollectionStepKeeps(s: ShipmentStatus, l: Ledger, c: MoneyCommand)
    requires LedgerOk(s, l) && (c.OnlinePayment? || c.FeeRemit? || c.FeeSettle?)
    ensures LedgerOk(s, MoneyStep(l, c).0) && (MoneyStep(l, c).1 != Done ==> MoneyStep(l, c).0 == l)
  {
    hide CodOk;
    CodIgnoresFee(l, MoneyStep(l, c).0);
  }

  lemma DisputeStepKeeps(s: ShipmentStatus, l: Ledger, c: MoneyCommand)
    requires LedgerOk(s, l) && (c.FeeDispute? || c.FeeResolve?)
    ensures LedgerOk(s, MoneyStep(l, c).0) && (MoneyStep(l, c).1 != Done ==> MoneyStep(l, c).0 == l)
  {
    hide CodOk;
    OpenDisputeIsNewest(l);
    CodIgnoresFee(l, MoneyStep(l, c).0);
  }

  lemma CodIgnoresFee(l: Ledger, l': Ledger)
    requires l' == l.(fee := l'.fee, disputes := l'.disputes)
    ensures CodOk(l') <==> CodOk(l)
  {
  }

  lemma CodStepKeeps(s: ShipmentStatus, l: Ledger, c: MoneyCommand)
    requires LedgerOk(s, l) && (c.CodRemit? || c.CodReview? || c.CodSettle?)
    ensures LedgerOk(s, MoneyStep(l, c).0) && (MoneyStep(l, c).1 != Done ==> MoneyStep(l, c).0 == l)
  {
    hide FeeShape, SnapshotMatches, Satisfied, DisputesOk, ReasonText;
    var l' := MoneyStep(l, c).0;
    assert l'.fee == l.fee && l'.disputes == l.disputes;
    SameFeeSameDisputes(l, l');
    if c.CodReview? && c.confirm && l' != l {
      assert l'.remittances[c.remittance].status == Verified;
    }
    if c.CodSettle? && l' != l {
      assert l'.remittances == l.remittances;
    }
  }

  lemma SameFeeSameDisputes(l: Ledger, l': Ledger)
    requires l'.fee == l.fee && l'.disputes == l.disputes && l'.terms == l.terms
    ensures DisputesOk(l') <==> DisputesOk(l)
    ensures SnapshotMatches(l') <==> SnapshotMatches(l)
  {
  }

  lemma PayoutStepKeeps(s: ShipmentStatus, l: Ledger, c: MoneyCommand)
    requires LedgerOk(s, l) && (c.PayoutCreate? || c.PayoutSend? || c.PayoutAcknowledge?)
    ensures LedgerOk(s, MoneyStep(l, c).0) && (MoneyStep(l, c).1 != Done ==> MoneyStep(l, c).0 == l)
  {
    hide FeeShape, SnapshotMatches, Satisfied, DisputesOk, ReasonText;
    SameFeeSameDisputes(l, MoneyStep(l, c).0);
  }

  lemma MoneyStepKeeps(s: ShipmentStatus, l: Ledger, c: MoneyCommand)
    requires LedgerOk(s, l)
    ensures LedgerOk(s, MoneyStep(l, c).0)
    ensures MoneyStep(l, c).1 != Done ==> MoneyStep(l, c).0 == l
  {
    hide MoneyStep, LedgerOk;
    match c
    case OnlinePayment(_, _) => CollectionStepKeeps(s, l, c);
    case FeeRemit(_, _, _) => CollectionStepKeeps(s, l, c);
    case FeeSettle(_, _) => CollectionStepKeeps(s, l, c);
    case FeeDispute(_, _) => DisputeStepKeeps(s, l, c);
    case FeeResolve(_, _) => DisputeStepKeeps(s, l, c);
    case CodRemit(_, _, _, _) => CodStepKeeps(s, l, c);
    case CodReview(_, _, _, _, _) => CodStepKeeps(s, l, c);
    case CodSettle => CodStepKeeps(s, l, c);
    case PayoutCreate(_, _) => PayoutStepKeeps(s, l, c);
    case PayoutSend(_, _, _) => PayoutStepKeeps(s, l, c);
    case PayoutAcknowledge(_, _, _, _) => PayoutStepKeeps(s, l, c);
  }

  // ----- runs -----

  function RunMoney(l: Ledger, cs: seq<MoneyCommand>): Ledger
    decreases |cs|
  {
    if |cs| == 0 then l else RunMoney(MoneyStep(l, cs[0]).0, cs[1..])
  }

  lemma {:induction false} RunMoneyKeeps(s: ShipmentStatus, l: Ledger, cs: seq<MoneyCommand>)
    requires LedgerOk(s, l)
    ensures LedgerOk(s, RunMoney(l, cs))
    decreases |cs|
  {
    if |cs| > 0 {
      MoneyStepKeeps(s, l, cs[0]);
      RunMoneyKeeps(s, MoneyStep(l, cs[0]).0, cs[1..]);
    }
  }

  /** Who paid, how much and when never changes once the fee is satisfied. */
  predicate SameEvidence(f: Fee, g: Fee) {
    && f.payer == g.payer && f.expected == g.expected
    && f.paid == g.paid && f.paidAt == g.paidAt
    && f.collected == g.collected && f.collector == g.collector && f.collectedAt == g.collectedAt
  }

  lemma EvidenceStep(s: ShipmentStatus, l: Ledger, c: MoneyCommand)
    requires LedgerOk(s, l) && Satisfied(l.fee)
    ensures SameEvidence(l.fee, MoneyStep(l, c).0.fee)
  {
  }

  lemma {:induction false} EvidenceIsFinal(s: ShipmentStatus, l: Ledger, cs: seq<MoneyCommand>)
    requires LedgerOk(s, l) && Satisfied(l.fee)
    ensures SameEvidence(l.fee, RunMoney(l, cs).fee) && Satisfied(RunMoney(l, cs).fee)
    decreases |cs|
  {
    if |cs| > 0 {
      var l1 := MoneyStep(l, cs[0]).0;
      MoneyStepKeeps(s, l, cs[0]);
      EvidenceStep(s, l, cs[0]);
      EvidenceIsFinal(s, l1, cs[1..]);
    }
  }

  /** Collection happens at most once: a satisfied fee is never collected again,
      and a collection that writes records the exact amount and the one driver. */
  lemma CollectedOnce(s: ShipmentStatus, l: Ledger, point: Point, driver: Id, amount: Option<int>, now: int)
    requires LedgerOk(s, l)
    ensures var r := CollectAt(l, point, driver, amount, now);
            r.Ok? ==>
              && (Satisfied(l.fee) ==> r.value == l)
              && (r.value != l ==> amount == Some(l.terms.totalFee) && r.value.fee.collector == Some(driver) && NothingPaid(r.value.fee))
              && (point == AtDelivery || point == DuePoint(l.terms.payer) ==> Satisfied(r.value.fee))
              && SnapshotMatches(r.value) && FeeShape(r.value.fee) && DisputesOk(r.value)
              && r.value.(fee := l.fee) == l
  {
  }

  // ----- disputes -----

  /** While a fee is disputed only a successful resolution can touch it. */
  lemma DisputedFeeIsFrozen(s: ShipmentStatus, l: Ledger, c: MoneyCommand)
    requires LedgerOk(s, l) && l.fee.status == Disputed
    requires !(c.FeeResolve? && MoneyStep(l, c).1 == Done)
    ensures MoneyStep(l, c).0.fee == l.fee && MoneyStep(l, c).0.disputes == l.disputes
  {
    OpenDisputeIsNewest(l);
  }

  predicate NoResolution(l: Ledger, cs: seq<MoneyCommand>)
    decreases |cs|
  {
    |cs| > 0 ==>
      && !(cs[0].FeeResolve? && MoneyStep(l, cs[0]).1 == Done)
      && NoResolution(MoneyStep(l, cs[0]).0, cs[1..])
  }

  lemma {:induction false} DisputedRunIsFrozen(s: ShipmentStatus, l: Ledger, cs: seq<MoneyCommand>)
    requires LedgerOk(s, l) && l.fee.status == Disputed && NoResolution(l, cs)
    ensures RunMoney(l, cs).fee == l.fee && RunMoney(l, cs).disputes == l.disputes
    decreases |cs|
  {
    if |cs| > 0 {
      var l1 := MoneyStep(l, cs[0]).0;
      MoneyStepKeeps(s, l, cs[0]);
      DisputedFeeIsFrozen(s, l, cs[0]);
      DisputedRunIsFrozen(s, l1, cs[1..]);
    }
  }

  lemma DisputeOpens(l: Ledger, admin: Id, reason: string)
    requires DisputeFee(l, admin, reason).1 == Done
    ensures l.fee.status in {Collected, Remitted}
    ensures DisputeFee(l, admin, reason).0 == l.(fee := l.fee.(status := Disputed), disputes := l.disputes + [Dispute(l.fee.status, reason, admin, None)])
  {
  }

  lemma ResolutionCloses(s: ShipmentStatus, l: Ledger, admin: Id, note: string)
    requires LedgerOk(s, l) && l.fee.status == Disputed && ReasonText(note)
    ensures |l.disputes| > 0
    ensures var n := |l.disputes| - 1;
            ResolveFee(l, admin, note) ==
            (l.(fee := l.fee.(status := l.disputes[n].fromStatus), disputes := l.disputes[n := l.disputes[n].(resolution := Some((admin, note)))]), Done)
  {
    hide CodOk;
    OpenDisputeIsNewest(l);
  }

  /** Dispute, whatever else happens, then resolve: the fee row is exactly what
      it was and the dispute is the only trace. */
  lemma ResolutionRestores(s: ShipmentStatus, l: Ledger, admin: Id, reason: string, cs: seq<MoneyCommand>, other: Id, note: string)
    requires LedgerOk(s, l) && ReasonText(note)
    requires DisputeFee(l, admin, reason).1 == Done
    requires NoResolution(DisputeFee(l, admin, reason).0, cs)
    ensures var l2 := RunMoney(DisputeFee(l, admin, reason).0, cs);
            var (l3, r) := ResolveFee(l2, other, note);
            && r == Done && l3.fee == l.fee
            && l3.disputes == l.disputes + [Dispute(l.fee.status, reason, admin, Some((other, note)))]
  {
    hide LedgerOk, DisputeFee, ResolveFee, RunMoney, NoResolution, ReasonText;
    var l1 := DisputeFee(l, admin, reason).0;
    DisputeOpens(l, admin, reason);
    MoneyStepKeeps(s, l, FeeDispute(admin, reason));
    assert MoneyStep(l, FeeDispute(admin, reason)).0 == l1;
    DisputedRunIsFrozen(s, l1, cs);
    RunMoneyKeeps(s, l1, cs);
    ResolutionCloses(s, RunMoney(l1, cs), other, note);
  }

  // ----- cash on delivery -----

  function VerifiedTotal(rs: seq<Remittance>): int {
    if |rs| == 0 then 0
    else VerifiedTotal(rs[..|rs| - 1]) + if rs[|rs| - 1].status == Verified then rs[|rs| - 1].amount else 0
  }

  lemma {:induction false} VerifiedTotalOfNone(rs: seq<Remittance>)
    requires forall i :: 0 <= i < |rs| ==> rs[i].status != Verified
    ensures VerifiedTotal(rs) == 0
  {
    if |rs| > 0 {
      VerifiedTotalOfNone(rs[..|rs| - 1]);
    }
  }

  lemma {:induction false} VerifiedTotalOfOne(rs: seq<Remittance>, k: nat)
    requires k < |rs| && rs[k].status == Verified
    requires forall i :: 0 <= i < |rs| && i != k ==> rs[i].status != Verified
    ensures VerifiedTotal(rs) == rs[k].amount
  {
    if k == |rs| - 1 {
      VerifiedTotalOfNone(rs[..k]);
    } else {
      VerifiedTotalOfOne(rs[..|rs| - 1], k);
    }
  }

  /** The customer's COD amount is what the driver holds, then what the company
      verified, then what is paid out: never more, never less, never twice. */
  lemma CodIsConserved(s: ShipmentStatus, l: Ledger)
    requires LedgerOk(s, l)
    ensures s == Delivered && l.terms.codAmount > 0 ==>
              && l.cod.Some? && l.cod.value.collected == Some(l.terms.codAmount)
              && VerifiedTotal(l.remittances) == (if l.cod.value.status == CodCollected then 0 else l.terms.codAmount)
              && l.cod.value.remitted == (if l.cod.value.status == CodCollected then None else Some(l.terms.codAmount))
              && (l.payout.Some? ==> VerifiedTotal(l.remittances) == l.payout.value.request.amount)
    ensures !(s == Delivered && l.terms.codAmount > 0) ==> l.cod == None && VerifiedTotal(l.remittances) == 0 && l.payout == None
  {
    if l.cod.Some? && l.cod.value.status != CodCollected {
      var k :| 0 <= k < |l.remittances| && l.remittances[k].status == Verified;
      VerifiedTotalOfOne(l.remittances, k);
    } else {
      VerifiedTotalOfNone(l.remittances);
    }
  }

  /** What a successful command leaves behind for its own replay to recognise. */
  predicate Recorded(l: Ledger, c: MoneyCommand) {
    match c
    case FeeRemit(driver, amount, _) =>
      && l.fee.status in {Remitted, Settled, Disputed} && l.fee.remitted == Some(amount)
      && l.fee.remitter == Some(driver) && l.fee.expected == amount
    case FeeSettle(_, _) => l.fee.status == Settled
    case CodRemit(driver, amount, key, memo) =>
      && l.cod.Some? && l.cod.value.collector == driver && l.cod.value.expected == amount
      && exists i :: 0 <= i < |l.remittances| && l.remittances[i].key == key && l.remittances[i].note == memo
    case CodReview(id, admin, version, confirm, grounds) =>
      && l.cod.Some? && id < |l.remittances| && (confirm || grounds !in {None, Some("")})
      && l.remittances[id].status == (if confirm then Verified else Declined)
      && l.remittances[id].reviewer == Some(admin) && l.remittances[id].reason == grounds && version == 0
    case CodSettle => l.cod.Some? && l.cod.value.status == CodSettled
    case PayoutCreate(admin, request) =>
      l.cod.Some? && l.payout.Some? && l.payout.value.request == request && l.payout.value.creator == admin && request.reference != ""
    case PayoutSend(admin, reference, version) =>
      && l.cod.Some? && l.payout.Some? && l.payout.value.sender == Some(admin)
      && l.payout.value.request.reference == reference && reference != "" && version == 0
    case PayoutAcknowledge(customer, version, received, grounds) =>
      && l.cod.Some? && l.payout.Some? && l.payout.value.customer == customer && (received || grounds !in {None, Some("")})
      && l.payout.value.status == (if received then PaidOut else Contested) && l.payout.value.complaint == grounds && version == 1
    case _ => false
  }

  predicate Replayable(c: MoneyCommand) {
    !c.OnlinePayment? && !c.FeeDispute? && !c.FeeResolve?
  }

  lemma FeeSuccessIsRecorded(s: ShipmentStatus, l: Ledger, c: MoneyCommand)
    requires LedgerOk(s, l) && (c.FeeRemit? || c.FeeSettle?) && MoneyStep(l, c).1 == Done
    ensures Recorded(MoneyStep(l, c).0, c)
  {
    hide CodOk, DisputesOk;
  }

  lemma RemittanceIsRecorded(l: Ledger, c: MoneyCommand)
    requires c.CodRemit? && MoneyStep(l, c).1 == Done
    ensures Recorded(MoneyStep(l, c).0, c)
  {
    var l' := MoneyStep(l, c).0;
    assert l'.remittances[|l.remittances|].key == c.key;
  }

  lemma CodSuccessIsRecorded(l: Ledger, c: MoneyCommand)
    requires CodOk(l) && (c.CodReview? || c.CodSettle? || c.PayoutCreate? || c.PayoutSend? || c.PayoutAcknowledge?)
    requires MoneyStep(l, c).1 == Done
    ensures Recorded(MoneyStep(l, c).0, c)
  {
  }

  lemma SuccessIsRecorded(s: ShipmentStatus, l: Ledger, c: MoneyCommand)
    requires LedgerOk(s, l) && Replayable(c) && MoneyStep(l, c).1 == Done
    ensures Recorded(MoneyStep(l, c).0, c)
  {
    hide CodOk, MoneyStep, Recorded, FeeShape, DisputesOk, SnapshotMatches, Satisfied;
    if c.FeeRemit? || c.FeeSettle? {
      FeeSuccessIsRecorded(s, l, c);
    } else if c.CodRemit? {
      RemittanceIsRecorded(l, c);
    } else {
      CodSuccessIsRecorded(l, c);
    }
  }

  lemma FeeRecordStays(s: ShipmentStatus, l: Ledger, c: MoneyCommand, d: MoneyCommand)
    requires LedgerOk(s, l) && (c.FeeRemit? || c.FeeSettle?) && Recorded(l, c)
    ensures Recorded(MoneyStep(l, d).0, c)
  {
    hide CodOk;
    OpenDisputeIsNewest(l);
  }

  lemma RemittanceRecordStays(l: Ledger, c: MoneyCommand, d: MoneyCommand)
    requires CodOk(l) && c.CodRemit? && Recorded(l, c)
    ensures Recorded(MoneyStep(l, d).0, c)
  {
    var l' := MoneyStep(l, d).0;
    var i :| 0 <= i < |l.remittances| && l.remittances[i].key == c.key && l.remittances[i].note == c.memo;
    assert l'.remittances[i].key == c.key && l'.remittances[i].note == c.memo;
  }

  lemma CodRecordStays(l: Ledger, c: MoneyCommand, d: MoneyCommand)
    requires CodOk(l) && (c.CodReview? || c.CodSettle?) && Recorded(l, c)
    ensures Recorded(MoneyStep(l, d).0, c)
  {
  }

  lemma PayoutRecordStays(l: Ledger, c: MoneyCommand, d: MoneyCommand)
    requires CodOk(l) && (c.PayoutCreate? || c.PayoutSend? || c.PayoutAcknowledge?) && Recorded(l, c)
    ensures Recorded(MoneyStep(l, d).0, c)
  {
  }

  lemma RecordedStays(s: ShipmentStatus, l: Ledger, c: MoneyCommand, d: MoneyCommand)
    requires LedgerOk(s, l) && Replayable(c) && Recorded(l, c)
    ensures Recorded(MoneyStep(l, d).0, c)
  {
    hide CodOk, MoneyStep, Recorded, FeeShape, DisputesOk, SnapshotMatches, Satisfied;
    if c.FeeRemit? || c.FeeSettle? {
      FeeRecordStays(s, l, c, d);
    } else if c.CodRemit? {
      RemittanceRecordStays(l, c, d);
    } else if c.CodReview? || c.CodSettle? {
      CodRecordStays(l, c, d);
    } else {
      PayoutRecordStays(l, c, d);
    }
  }

  lemma RecordedFeeIsUnchanged(s: ShipmentStatus, l: Ledger, c: MoneyCommand)
    requires LedgerOk(s, l) && (c.FeeRemit? || c.FeeSettle?) && Recorded(l, c)
    ensures MoneyStep(l, c) == (l, Unchanged)
  {
    hide CodOk;
  }

  lemma RecordedRemittanceIsUnchanged(l: Ledger, c: MoneyCommand)
    requires CodOk(l) && c.CodRemit? && Recorded(l, c)
    ensures MoneyStep(l, c) == (l, Unchanged)
  {
    var i :| 0 <= i < |l.remittances| && l.remittances[i].key == c.key && l.remittances[i].note == c.memo;
    var k := FindRemittance(l.remittances, c.key);
    assert k == Some(i);
    assert RemittanceOk(l.cod.value, l.remittances[i]);
  }

  lemma RecordedCodIsUnchanged(l: Ledger, c: MoneyCommand)
    requires CodOk(l) && (c.CodReview? || c.CodSettle? || c.PayoutCreate? || c.PayoutSend? || c.PayoutAcknowledge?) && Recorded(l, c)
    requires l.payout.Some? ==> l.payout.value.customer == l.terms.customer
    ensures MoneyStep(l, c) == (l, Unchanged)
  {
  }

  lemma RecordedIsUnchanged(s: ShipmentStatus, l: Ledger, c: MoneyCommand)
    requires LedgerOk(s, l) && Replayable(c) && Recorded(l, c)
    ensures MoneyStep(l, c) == (l, Unchanged)
  {
    hide CodOk, MoneyStep, Recorded, FeeShape, DisputesOk, SnapshotMatches, Satisfied;
    if c.FeeRemit? || c.FeeSettle? {
      RecordedFeeIsUnchanged(s, l, c);
    } else if c.CodRemit? {
      RecordedRemittanceIsUnchanged(l, c);
    } else {
      PayoutsAreTheirs(l);
      RecordedCodIsUnchanged(l, c);
    }
  }

  lemma PayoutsAreTheirs(l: Ledger)
    requires CodOk(l)
    ensures l.payout.Some? ==> l.payout.value.customer == l.terms.customer
  {
  }

  /** Replaying a committed handover, review, settlement or payout command in
      any later state recognises itself and writes nothing. */
  lemma {:induction false} ReplayWritesNothing(s: ShipmentStatus, l: Ledger, c: MoneyCommand, cs: seq<MoneyCommand>)
    requires LedgerOk(s, l) && Replayable(c) && MoneyStep(l, c).1 == Done
    ensures var later := RunMoney(MoneyStep(l, c).0, cs); MoneyStep(later, c) == (later, Unchanged)
  {
    SuccessIsRecorded(s, l, c);
    MoneyStepKeeps(s, l, c);
    RecordedRun(s, MoneyStep(l, c).0, c, cs);
  }

  lemma {:induction false} RecordedRun(s: ShipmentStatus, l: Ledger, c: MoneyCommand, cs: seq<MoneyCommand>)
    requires LedgerOk(s, l) && Replayable(c) && Recorded(l, c)
    ensures MoneyStep(RunMoney(l, cs), c) == (RunMoney(l, cs), Unchanged)
    decreases |cs|
  {
    if |cs| == 0 {
      RecordedIsUnchanged(s, l, c);
    } else {
      RecordedStays(s, l, c, cs[0]);
      MoneyStepKeeps(s, l, cs[0]);
      RecordedRun(s, MoneyStep(l, cs[0]).0, c, cs[1..]);
    }
  }

  /** Opening a dispute is the exception: its replay opens a second dispute
      exactly when the fee is collected or remitted again, that is once the
      first dispute has been resolved. */
  lemma DisputeReplay(s: ShipmentStatus, l: Ledger, admin: Id, reason: string)
    requires LedgerOk(s, l) && ReasonText(reason)
    ensures DisputeFee(l, admin, reason).1 == Done <==> l.fee.status in {Collected, Remitted}
  {
    OpenDisputeIsNewest(l);
  }

  /** Likewise a replayed resolution resolves whatever dispute is open by then. */
  lemma ResolveReplay(s: ShipmentStatus, l: Ledger, admin: Id, note: string)
    requires LedgerOk(s, l) && ReasonText(note)
    ensures ResolveFee(l, admin, note).1 == Done <==> l.fee.status == Disputed
  {
    OpenDisputeIsNewest(l);
  }

  /** A fee of 30000 collected from its sender at pickup. */
  const SAMPLE_FEE := Fee(Sender, 30_000, Collected, Some(30_000), Some(3), Some(100), None, None, None, None, None, None, None)

  const SAMPLE_LEDGER := Ledger(Terms(7, Sender, 30_000, 0), SAMPLE_FEE, [], None, [], None)

  lemma SampleIsReal()
    ensures CollectAt(OpenLedger(Terms(7, Sender, 30_000, 0)), AtPickup, 3, Some(30_000), 100) == Ok(SAMPLE_LEDGER)
    ensures LedgerOk(PickedUp, SAMPLE_LEDGER)
  {
  }

  /** The same dispute command, sent again after its dispute was resolved,
      opens another one. */
  lemma DisputeReplayWrites()
    ensures var l1 := DisputeFee(SAMPLE_LEDGER, 1, "short");
            var l2 := ResolveFee(l1.0, 2, "checked");
            var l3 := DisputeFee(l2.0, 1, "short");
            l1.1 == Done && l2.1 == Done && l3.1 == Done && |l3.0.disputes| == 2
  {
    hide DisputeFee, ResolveFee, OpenDispute;
    SampleDisputes();
  }

  /** The same resolution command, sent again once the fee was disputed anew,
      resolves that dispute as well. */
  lemma ResolveReplayWrites()
    ensures var l1 := DisputeFee(SAMPLE_LEDGER, 1, "short").0;
            var l2 := ResolveFee(l1, 2, "checked");
            var l3 := DisputeFee(l2.0, 1, "short").0;
            var l4 := ResolveFee(l3, 2, "checked");
            && l2.1 == Done && l4.1 == Done && l4.0 != l3
            && |l4.0.disputes| == 2 && l4.0.disputes[0].resolution == l4.0.disputes[1].resolution == Some((2, "checked"))
  {
    hide DisputeFee, ResolveFee, OpenDispute;
    SampleDisputes();
  }

  lemma OpenAtEnd(earlier: seq<Dispute>, d: Dispute)
    requires OpenDispute(earlier) == None
    ensures OpenDispute(earlier + [d]) == if d.resolution == None then Some(|earlier|) else None
  {
    assert (earlier + [d])[..|earlier|] == earlier;
  }

  lemma SampleTexts()
    ensures ReasonText("short") && ReasonText("checked")
  {
  }

  /** One dispute of the sample fee and its resolution, after any earlier ones. */
  lemma SampleDispute(earlier: seq<Dispute>)
    requires OpenDispute(earlier) == None
    ensures var l := SAMPLE_LEDGER.(disputes := earlier);
            var d := Dispute(Collected, "short", 1, None);
            var r := d.(resolution := Some((2, "checked")));
            var l1 := l.(fee := SAMPLE_FEE.(status := Disputed), disputes := earlier + [d]);
            && DisputeFee(l, 1, "short") == (l1, Done)
            && ResolveFee(l1, 2, "checked") == (l.(disputes := earlier + [r]), Done)
            && OpenDispute(earlier + [r]) == None
  {
    hide OpenDispute, ReasonText;
    var d := Dispute(Collected, "short", 1, None);
    var r := d.(resolution := Some((2, "checked")));
    SampleTexts();
    OpenAtEnd(earlier, d);
    OpenAtEnd(earlier, r);
    assert (earlier + [d])[|earlier| := r] == earlier + [r];
  }

  /** Two in a row. */
  lemma SampleDisputes()
    ensures var d := Dispute(Collected, "short", 1, None);
            var r := d.(resolution := Some((2, "checked")));
            var open := SAMPLE_LEDGER.(fee := SAMPLE_FEE.(status := Disputed));
            && DisputeFee(SAMPLE_LEDGER, 1, "short") == (open.(disputes := [d]), Done)
            && ResolveFee(open.(disputes := [d]), 2, "checked") == (SAMPLE_LEDGER.(disputes := [r]), Done)
            && DisputeFee(SAMPLE_LEDGER.(disputes := [r]), 1, "short") == (open.(disputes := [r, d]), Done)
            && ResolveFee(open.(disputes := [r, d]), 2, "checked") == (SAMPLE_LEDGER.(disputes := [r, r]), Done)
  {
    hide DisputeFee, ResolveFee;
    var d := Dispute(Collected, "short", 1, None);
    var r := d.(resolution := Some((2, "checked")));
    assert [] + [d] == [d] && [] + [r] == [r] && [r] + [d] == [r, d] && [r] + [r] == [r, r];
    SampleDispute([]);
    SampleDispute([r]);
  }

  function OpenDisputes(ds: seq<Dispute>): nat {
    if |ds| == 0 then 0 else OpenDisputes(ds[..|ds| - 1]) + if ds[|ds| - 1].resolution == None then 1 else 0
  }

  lemma {:induction false} AllResolved(ds: seq<Dispute>)
    requires forall i :: 0 <= i < |ds| ==> ds[i].resolution.Some?
    ensures OpenDisputes(ds) == 0
  {
    if |ds| > 0 { AllResolved(ds[..|ds| - 1]); }
  }

  /** A disputed fee has exactly one open dispute, any other fee has none. */
  lemma OneOpenDispute(s: ShipmentStatus, l: Ledger)
    requires LedgerOk(s, l)
    ensures OpenDisputes(l.disputes) == if l.fee.status == Disputed then 1 else 0
  {
    if |l.disputes| > 0 { AllResolved(l.disputes[..|l.disputes| - 1]); }
  }

  function CountOf(rs: seq<Remittance>, status: RemittanceStatus): nat {
    if |rs| == 0 then 0 else CountOf(rs[..|rs| - 1], status) + if rs[|rs| - 1].status == status then 1 else 0
  }

  lemma {:induction false} CountNone(rs: seq<Remittance>, status: RemittanceStatus)
    requires forall i :: 0 <= i < |rs| ==> rs[i].status != status
    ensures CountOf(rs, status) == 0
  {
    if |rs| > 0 { CountNone(rs[..|rs| - 1], status); }
  }

  lemma {:induction false} CountAtMostOne(rs: seq<Remittance>, status: RemittanceStatus)
    requires forall i, j :: 0 <= i < j < |rs| ==> rs[i].status != rs[j].status || rs[i].status != status
    ensures CountOf(rs, status) == if exists i :: 0 <= i < |rs| && rs[i].status == status then 1 else 0
  {
    if |rs| > 0 {
      var n := |rs| - 1;
      CountAtMostOne(rs[..n], status);
      if rs[n].status == status {
        CountNone(rs[..n], status);
      } else if i :| 0 <= i < n && rs[i].status == status {
        assert rs[..n][i].status == status;
      }
    }
  }

  /** At most one handover is pending, and exactly one was ever confirmed once
      the money is with the company, none before. */
  lemma RemittanceCounts(s: ShipmentStatus, l: Ledger)
    requires LedgerOk(s, l) && l.cod.Some?
    ensures CountOf(l.remittances, Verified) == if l.cod.value.status == CodCollected then 0 else 1
    ensures CountOf(l.remittances, Submitted) <= if l.cod.value.status == CodCollected then 1 else 0
  {
    CountAtMostOne(l.remittances, Verified);
    CountAtMostOne(l.remittances, Submitted);
  }
}

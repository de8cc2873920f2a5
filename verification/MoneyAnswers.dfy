/** When a money command goes through on a ledger in good order, and what it
    then writes, told by the columns alone. */
module MoneyAnswers {
  import opened Rows
  import opened Ledgers
  import opened LedgerLaws

  // ----- shipping fee -----

  /** The driver who collected the fee hands over exactly the whole fee, once. */
  lemma FeeRemitExact(s: ShipmentStatus, l: Ledger, driver: Id, amount: int, now: int)
    requires LedgerOk(s, l)
    ensures var f := l.fee;
            var (l', r) := RemitFee(l, driver, amount, now);
            var his := f.collector == Some(driver) && amount == l.terms.totalFee;
            && (r == Done <==> his && f.status == Collected)
            && (r == Unchanged <==> his && (f.status in {Remitted, Settled} || (f.status == Disputed && f.remitted.Some?)))
            && l' == if r != Done then l
                     else l.(fee := f.(status := Remitted, remitted := Some(amount), remitter := Some(driver), remittedAt := Some(now)))
  {
    hide CodOk, DisputesOk;
  }

  lemma FeeSettleExact(s: ShipmentStatus, l: Ledger, admin: Id, now: int)
    requires LedgerOk(s, l)
    ensures var f := l.fee;
            var (l', r) := SettleFee(l, admin, now);
            && (r == Done <==> f.status == Remitted)
            && (r == Unchanged <==> f.status == Settled)
            && l' == if r != Done then l else l.(fee := f.(status := Settled, settler := Some(admin), settledAt := Some(now)))
  {
    hide CodOk, DisputesOk;
  }

  predicate Reasoned(text: string) {
    3 <= |text| <= 500
  }

  /** A fee is disputed exactly while a driver's money is at stake: collected or
      remitted, not yet settled. */
  lemma FeeDisputeExact(s: ShipmentStatus, l: Ledger, admin: Id, reason: string)
    requires LedgerOk(s, l)
    ensures var f := l.fee;
            var n := |l.disputes|;
            var (l', r) := DisputeFee(l, admin, reason);
            && (r == Done <==> Reasoned(reason) && (f.status == Collected || f.status == Remitted))
            && (r == Unchanged <==> Reasoned(reason) && f.status == Disputed && n > 0 && l.disputes[n - 1].openedBy == admin && l.disputes[n - 1].reason == reason)
            && l' == if r != Done then l
                     else l.(fee := f.(status := Disputed), disputes := l.disputes + [Dispute(f.status, reason, admin, None)])
  {
    hide CodOk;
    OpenDisputeIsNewest(l);
  }

  /** A disputed fee is resolved back to where its money is: still with the
      driver, or with the company. */
  lemma FeeResolveExact(s: ShipmentStatus, l: Ledger, admin: Id, note: string)
    requires LedgerOk(s, l)
    ensures var f := l.fee;
            var n := |l.disputes|;
            var (l', r) := ResolveFee(l, admin, note);
            && (r == Done <==> Reasoned(note) && f.status == Disputed)
            && (r == Unchanged <==> Reasoned(note) && f.status != Disputed && n > 0 && l.disputes[n - 1].resolution == Some((admin, note)))
            && (r != Done ==> l' == l)
            && (r == Done ==>
                  && n > 0
                  && l' == l.(fee := f.(status := if f.remitted.Some? then Remitted else Collected),
                              disputes := l.disputes[n - 1 := l.disputes[n - 1].(resolution := Some((admin, note)))]))
  {
    hide CodOk;
    OpenDisputeIsNewest(l);
  }

  /** A payment opens from a pending fee, and then fails back to it or pays it in
      full. */
  lemma PayOnlineExact(s: ShipmentStatus, l: Ledger, event: PaymentEvent, now: int)
    requires LedgerOk(s, l)
    ensures var f := l.fee;
            var (l', r) := PayOnline(l, event, now);
            && (r == Done <==> f.status == if event == PaymentOpened then FeePending else PaymentPending)
            && (r != Unchanged)
            && l' == if r != Done then l
                     else l.(fee := match event
                                    case PaymentOpened => f.(status := PaymentPending)
                                    case PaymentFailed => f.(status := FeePending)
                                    case PaymentSucceeded => f.(status := Paid, paid := Some(l.terms.totalFee), paidAt := Some(now)))
  {
    hide CodOk, DisputesOk;
  }

  // ----- cash on delivery -----

  /** The remittance made under a key. */
  predicate MadeUnder(l: Ledger, key: Id, i: nat) {
    i < |l.remittances| && l.remittances[i].key == key
  }

  lemma NoneSubmitted(rs: seq<Remittance>)
    requires forall i, j :: 0 <= i < j < |rs| ==> rs[i].status == rs[j].status ==> rs[i].status == Declined
    ensures CountOf(rs, Submitted) == 0 <==> forall i :: 0 <= i < |rs| ==> rs[i].status != Submitted
  {
    CountAtMostOne(rs, Submitted);
  }

  /** The collector hands over the exact cash under a new key exactly while it is
      still with him and no handover of it is pending: after a declined one he
      can try again. */
  lemma CodRemitExact(s: ShipmentStatus, l: Ledger, driver: Id, amount: int, key: Id, note: Option<string>)
    requires LedgerOk(s, l) && forall i: nat :: !MadeUnder(l, key, i)
    ensures var (l', r) := RemitCod(l, driver, amount, key, note);
            && (r == Done <==>
                  && l.cod.Some? && l.cod.value.collector == driver && amount == l.terms.codAmount
                  && l.cod.value.status == CodCollected && CountOf(l.remittances, Submitted) == 0)
            && (r != Unchanged)
            && l' == if r != Done then l
                     else l.(remittances := l.remittances + [Remittance(driver, amount, key, note, Submitted, 0, None, None)])
  {
    hide FeeShape, DisputesOk, SnapshotMatches, Satisfied;
    if l.cod.Some? { NoneSubmitted(l.remittances); }
    var k := FindRemittance(l.remittances, key);
    assert k.Some? ==> MadeUnder(l, key, k.value);
  }

  /** Under a key used before, the same handover is recognised and another one
      refused. */
  lemma CodRemitKnownExact(s: ShipmentStatus, l: Ledger, driver: Id, amount: int, key: Id, note: Option<string>, i: nat)
    requires LedgerOk(s, l) && MadeUnder(l, key, i)
    ensures l.cod.Some? && RemitCod(l, driver, amount, key, note).0 == l
    ensures RemitCod(l, driver, amount, key, note).1 ==
            if l.cod.value.collector != driver then Refused(NotFound)
            else if amount != l.terms.codAmount then Refused(CodAmountMismatch)
            else if l.remittances[i].note == note then Unchanged
            else Refused(CodRetryConflict)
  {
    hide FeeShape, DisputesOk, SnapshotMatches, Satisfied;
    var k := FindRemittance(l.remittances, key);
    assert k.Some? && RemittanceOk(l.cod.value, l.remittances[k.value]);
    assert k.value == i;
  }

  predicate Given(reason: Option<string>) {
    reason.Some? && reason.value != ""
  }

  /** A pending remittance is confirmed, or rejected for a reason; confirming it
      makes the cash the company's. */
  lemma CodReviewExact(s: ShipmentStatus, l: Ledger, id: Id, admin: Id, expected: int, confirm: bool, reason: Option<string>)
    requires LedgerOk(s, l) && id < |l.remittances|
    ensures l.cod.Some?
    ensures var (row, c) := (l.remittances[id], l.cod.value);
            var (l', r) := ReviewRemittance(l, id, admin, expected, confirm, reason);
            var verdict := if confirm then Verified else Declined;
            && (r == Done <==> row.status == Submitted && expected == 0 && (confirm || Given(reason)))
            && (r == Unchanged <==>
                  row.status == verdict && expected == 0 && row.reviewer == Some(admin) && row.reason == reason && (confirm || Given(reason)))
            && (r != Done ==> l' == l)
            && (r == Done ==>
                  && l'.remittances == l.remittances[id := row.(status := verdict, reviewer := Some(admin), reason := reason, version := 1)]
                  && l' == l.(remittances := l'.remittances,
                              cod := if confirm then Some(c.(status := CodRemitted, remitted := Some(l.terms.codAmount), version := c.version + 1)) else l.cod))
  {
    hide FeeShape, DisputesOk, SnapshotMatches, Satisfied;
    assert RemittanceOk(l.cod.value, l.remittances[id]);
  }

  lemma CodSettleExact(s: ShipmentStatus, l: Ledger)
    requires LedgerOk(s, l) && l.cod.Some?
    ensures var c := l.cod.value;
            var (l', r) := SettleCod(l);
            && (r == Done <==> c.status == CodRemitted)
            && (r == Unchanged <==> c.status == CodSettled)
            && l' == if r != Done then l else l.(cod := Some(c.(status := CodSettled, version := c.version + 1)))
  {
    hide FeeShape, DisputesOk, SnapshotMatches, Satisfied;
  }

  /** A settled COD is paid out once, in its exact amount, under a reference. */
  lemma PayoutCreateExact(s: ShipmentStatus, l: Ledger, admin: Id, request: PayoutRequest)
    requires LedgerOk(s, l) && l.cod.Some?
    ensures var (l', r) := CreatePayout(l, admin, request);
            var due := l.cod.value.status == CodSettled && request.amount == l.terms.codAmount && request.reference != "";
            && (r == Done <==> due && l.payout == None)
            && (r == Unchanged <==> due && l.payout.Some? && l.payout.value.request == request && l.payout.value.creator == admin)
            && l' == if r != Done then l else l.(payout := Some(Payout(request, l.terms.customer, admin, Prepared, 0, None, None)))
  {
    hide FeeShape, DisputesOk, SnapshotMatches, Satisfied;
  }

  lemma PayoutSendExact(s: ShipmentStatus, l: Ledger, admin: Id, reference: string, expected: int)
    requires LedgerOk(s, l) && l.payout.Some?
    ensures var p := l.payout.value;
            var (l', r) := SendPayout(l, admin, reference, expected);
            var named := reference != "" && reference == p.request.reference && expected == 0;
            && (r == Done <==> named && p.status == Prepared)
            && (r == Unchanged <==> named && p.sender == Some(admin))
            && l' == if r != Done then l else l.(payout := Some(p.(status := Sent, sender := Some(admin), version := 1)))
  {
    hide FeeShape, DisputesOk, SnapshotMatches, Satisfied;
  }

  /** The customer confirms a payout that was sent, or contests it for a reason. */
  lemma PayoutAcknowledgeExact(s: ShipmentStatus, l: Ledger, customer: Id, expected: int, received: bool, reason: Option<string>)
    requires LedgerOk(s, l) && l.payout.Some?
    ensures var p := l.payout.value;
            var (l', r) := AcknowledgePayout(l, customer, expected, received, reason);
            var verdict := if received then PaidOut else Contested;
            var asked := customer == l.terms.customer && expected == 1 && (received || Given(reason));
            && (r == Done <==> asked && p.status == Sent)
            && (r == Unchanged <==> asked && p.status == verdict && p.complaint == reason)
            && l' == if r != Done then l else l.(payout := Some(p.(status := verdict, complaint := reason, version := 2)))
  {
    hide FeeShape, DisputesOk, SnapshotMatches, Satisfied;
  }

  /** What reaches nobody: without cash on delivery, or without a payout, the
      commands on them write nothing. */
  lemma NothingThere(l: Ledger, id: Id, admin: Id, expected: int, yes: bool, reason: Option<string>, request: PayoutRequest, reference: string)
    ensures l.cod == None ==> SettleCod(l) == (l, Refused(NotFound)) && CreatePayout(l, admin, request) == (l, Refused(NotFound))
    ensures l.cod == None || id >= |l.remittances| ==> ReviewRemittance(l, id, admin, expected, yes, reason) == (l, Refused(NotFound))
    ensures l.cod == None || l.payout == None ==>
              && SendPayout(l, admin, reference, expected) == (l, Refused(NotFound))
              && AcknowledgePayout(l, admin, expected, yes, reason) == (l, Refused(NotFound))
  {
  }
}

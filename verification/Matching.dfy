/** The three-way match (purchase order, receipts, invoice) at value level:
    the gates of `matchAgainstPo`, the tolerance test and the status mapping.
    All amounts are minor units and all ratios are exact. */
module Matching {
  import opened Common

  const MATCH_TOLERANCE_BPS: int := 500

  datatype MatchOutcome =
    | Matched
    | PoNotFound
    | PoNotLive
    | VendorMismatch
    | CurrencyMismatch
    | AmountMismatch
    | AwaitingReceipt
    | ReceiptShortfall
    | OverAllocated

  datatype InvoiceStatus = Received | MatchedStatus | Exception | Paid

  /** The commercial terms that can enable milestone or partial invoicing. */
  datatype Terms = Terms(
    allowPartialInvoicing: bool,
    billingType: Option<string>,
    hasMilestones: bool,
    hasInstallments: bool)
  {
    predicate AllowPartial() {
      allowPartialInvoicing
      || billingType == Some("milestone")
      || billingType == Some("partial")
      || hasMilestones
      || hasInstallments
    }
  }

  /** What the match reads of a purchase order. */
  datatype PoFacts = PoFacts(
    live: bool,
    vendor: nat,
    currency: string,
    total: int,
    termsAllowPartial: bool)

  /** What the match reads of an invoice; `allowPartial` is the caller's request. */
  datatype Bill = Bill(vendor: nat, total: int, currency: string, allowPartial: bool)

  datatype MatchResult = MatchResult(
    outcome: MatchOutcome,
    variance: int,
    varianceBps: int,
    vendorMatched: bool,
    amountMatched: bool,
    isPartial: bool,
    poRemaining: Option<int>,
    received: Option<int>,
    reserved: Option<int>)

  /** True when `total` exceeds `capacity` beyond the tolerance. */
  predicate ExceedsCapacity(total: int, capacity: int) {
    total > capacity
    && RoundRatio((total - capacity) * 10_000, Max(capacity, 1)) > MATCH_TOLERANCE_BPS
  }

  function VarianceBps(poTotal: int, total: int): int {
    if poTotal > 0 then RoundRatio(Abs(total - poTotal) * 10_000, poTotal) else 0
  }

  predicate IsFullMatch(poTotal: int, total: int) {
    VarianceBps(poTotal, total) <= MATCH_TOLERANCE_BPS
  }

  predicate AmountMatches(poTotal: int, total: int, partialAllowed: bool) {
    IsFullMatch(poTotal, total) || (partialAllowed && total <= poTotal)
  }

  /** The receipt leg, then the order capacity leg, both against the value that
      other matched or paid invoices have not consumed. */
  function CapacityOutcome(poTotal: int, total: int, received: int, reserved: int): MatchOutcome {
    var remainingReceived := received - reserved;
    var poRemaining := poTotal - reserved;
    if received == 0 then AwaitingReceipt
    else if remainingReceived <= 0 then OverAllocated
    else if ExceedsCapacity(total, remainingReceived) then ReceiptShortfall
    else if ExceedsCapacity(total, poRemaining) then OverAllocated
    else Matched
  }

  function MatchAgainstPo(po: Option<PoFacts>, bill: Bill, received: int, reserved: int): MatchResult {
    match po
    case None => MatchResult(PoNotFound, 0, 0, false, false, false, None, None, None)
    case Some(p) =>
      var partialAllowed := bill.allowPartial || p.termsAllowPartial;
      var fullMatch := IsFullMatch(p.total, bill.total);
      var base := MatchResult(
                    PoNotLive,
                    bill.total - p.total,
                    VarianceBps(p.total, bill.total),
                    p.vendor == bill.vendor,
                    if partialAllowed then bill.total <= p.total || fullMatch else fullMatch,
                    partialAllowed && !fullMatch && bill.total <= p.total,
                    None, None, None);
      if !p.live then base
      else if !base.vendorMatched then base.(outcome := VendorMismatch)
      else if p.currency != bill.currency then base.(outcome := CurrencyMismatch)
      else if !base.amountMatched then base.(outcome := AmountMismatch)
      else
        base.(outcome := CapacityOutcome(p.total, bill.total, received, reserved),
              poRemaining := Some(Max(0, p.total - reserved - bill.total)),
              received := Some(received),
              reserved := Some(reserved))
  }

  function StatusFor(m: MatchResult): InvoiceStatus {
    match m.outcome
    case Matched => MatchedStatus
    case AwaitingReceipt => Received
    case _ => Exception
  }

  /** The rounded tolerance test is one exact integer comparison: an invoice
      fits a positive capacity exactly when it is below 21001/20000 of it. */
  lemma ToleranceIsExact(total: int, capacity: int)
    ensures capacity >= 1 ==> (ExceedsCapacity(total, capacity) <==> 20_000 * total >= 21_001 * capacity)
    ensures capacity < 1 ==> (ExceedsCapacity(total, capacity) <==> total > capacity)
  {
    if total > capacity {
      RoundedAbove((total - capacity) * 10_000, Max(capacity, 1));
    }
  }

  /** `Math.round(n / d) > 500` is `n / d >= 500.5`. */
  lemma RoundedAbove(n: int, d: int)
    requires d > 0
    ensures RoundRatio(n, d) > MATCH_TOLERANCE_BPS <==> 2 * n >= 1001 * d
  {
    var r := RoundRatio(n, d);
    if r > 500 {
      MulKeepsOrder(2 * d, 501, r);
    } else {
      MulKeepsOrder(2 * d, r, 500);
    }
  }

  /** Less capacity never lets more through. */
  lemma ToleranceAntitone(total: int, less: int, more: int)
    requires less <= more && ExceedsCapacity(total, more)
    ensures ExceedsCapacity(total, less)
  {
    ToleranceIsExact(total, less);
    ToleranceIsExact(total, more);
  }

  /** The amount tolerance, exactly: within 1001/20000 of the order total. */
  lemma FullMatchIsExact(poTotal: int, total: int)
    ensures IsFullMatch(poTotal, total) <==> poTotal <= 0 || 20_000 * Abs(total - poTotal) < 1_001 * poTotal
  {
    if poTotal > 0 {
      RoundedAbove(Abs(total - poTotal) * 10_000, poTotal);
    }
  }

  /** Everything a match demands, with no rounding left, when the received
      value is within the order total (which the ledger maintains). */
  lemma MatchedExactly(p: PoFacts, bill: Bill, received: int, reserved: int)
    requires received <= p.total && 0 <= received
    ensures MatchAgainstPo(Some(p), bill, received, reserved).outcome == Matched
       <==> p.live && p.vendor == bill.vendor && p.currency == bill.currency
            && AmountMatches(p.total, bill.total, bill.allowPartial || p.termsAllowPartial)
            && received != 0 && reserved < received
            && 20_000 * bill.total < 21_001 * (received - reserved)
  {
    ToleranceIsExact(bill.total, received - reserved);
    ToleranceIsExact(bill.total, p.total - reserved);
  }

  /** More than the tolerance allows, over exact numbers. */
  predicate TooMuchFor(total: int, capacity: int) {
    if capacity >= 1 then 20_000 * total >= 21_001 * capacity else total > capacity
  }

  /** Close to the order total, or below it when partial invoicing is allowed. */
  predicate AmountAgrees(poTotal: int, total: int, partialAllowed: bool) {
    poTotal <= 0 || 20_000 * Abs(total - poTotal) < 1_001 * poTotal || (partialAllowed && total <= poTotal)
  }

  /** The first thing that is wrong decides the outcome, in this order. */
  function FirstFault(p: PoFacts, bill: Bill, received: int, reserved: int): MatchOutcome {
    if !p.live then PoNotLive
    else if p.vendor != bill.vendor then VendorMismatch
    else if p.currency != bill.currency then CurrencyMismatch
    else if !AmountAgrees(p.total, bill.total, bill.allowPartial || p.termsAllowPartial) then AmountMismatch
    else if received == 0 then AwaitingReceipt
    else if received <= reserved then OverAllocated
    else if TooMuchFor(bill.total, received - reserved) then ReceiptShortfall
    else if TooMuchFor(bill.total, p.total - reserved) then OverAllocated
    else Matched
  }

  /** Every outcome over exact numbers, what is stored beside it, and the status it
      leads to: a bill waits only for goods, and everything else is an exception. */
  lemma OutcomeIsFirstFault(p: PoFacts, bill: Bill, received: int, reserved: int)
    ensures var m := MatchAgainstPo(Some(p), bill, received, reserved);
            var fault := FirstFault(p, bill, received, reserved);
            m.outcome == fault
            && StatusFor(m) == (if fault == Matched then MatchedStatus
                                else if fault == AwaitingReceipt then Received
                                else Exception)
            && m.variance == bill.total - p.total && (m.vendorMatched <==> p.vendor == bill.vendor)
            && (m.amountMatched <==> AmountAgrees(p.total, bill.total, bill.allowPartial || p.termsAllowPartial))
            && (m.isPartial <==> (bill.allowPartial || p.termsAllowPartial) && bill.total <= p.total
                                 && 0 < p.total && 1_001 * p.total <= 20_000 * Abs(bill.total - p.total))
            && (m.received.Some? ==> m.received.value == received && m.reserved == Some(reserved)
                                     && m.poRemaining == Some(Max(0, p.total - reserved - bill.total)))
            && (m.received.Some? <==> fault !in {PoNotLive, VendorMismatch, CurrencyMismatch, AmountMismatch})
  {
    FullMatchIsExact(p.total, bill.total);
    ToleranceIsExact(bill.total, received - reserved);
    ToleranceIsExact(bill.total, p.total - reserved);
  }

  /** The stored deviation is the one nearest to the exact ratio, in basis points of
      the order total. */
  lemma VarianceIsNearest(p: PoFacts, bill: Bill, received: int, reserved: int)
    ensures var v := MatchAgainstPo(Some(p), bill, received, reserved).varianceBps;
            if p.total <= 0 then v == 0
            else 2 * p.total * v - p.total <= 2 * (Abs(bill.total - p.total) * 10_000) < 2 * p.total * v + p.total
  {
  }

  /** A bill for an order that does not exist is an exception, and nothing of it agrees. */
  lemma UnknownOrderIsException(bill: Bill, received: int, reserved: int)
    ensures var m := MatchAgainstPo(None, bill, received, reserved);
            m == MatchResult(PoNotFound, 0, 0, false, false, false, None, None, None) && StatusFor(m) == Exception
  {
  }

  /** Which terms allow partial invoicing. */
  lemma PartialTerms(t: Terms)
    ensures t.AllowPartial()
       <==> t.allowPartialInvoicing || t.hasMilestones || t.hasInstallments
            || (t.billingType.Some? && t.billingType.value in {"milestone", "partial"})
  {
  }

  /** One more match keeps the reserved value within 21001/20000 of the
      received value. */
  lemma MatchKeepsBound(po: Option<PoFacts>, bill: Bill, received: int, reserved: int)
    requires 0 <= reserved
    requires MatchAgainstPo(po, bill, received, reserved).outcome == Matched
    ensures 20_000 * (reserved + bill.total) <= 21_001 * received
    ensures reserved < received
  {
    ToleranceIsExact(bill.total, received - reserved);
  }

  lemma CapacityAntitone(poTotal: int, total: int, received: int, less: int, more: int)
    requires less <= more
    requires CapacityOutcome(poTotal, total, received, more) == Matched
    ensures CapacityOutcome(poTotal, total, received, less) == Matched
  {
    if ExceedsCapacity(total, received - less) {
      ToleranceAntitone(total, received - more, received - less);
    }
    if ExceedsCapacity(total, poTotal - less) {
      ToleranceAntitone(total, poTotal - more, poTotal - less);
    }
  }

  /** A bill that matches still matches when siblings hold less value, also
      when the stored result is what re-derives `allowPartial`. */
  lemma MatchPersists(po: Option<PoFacts>, bill: Bill, received: int, less: int, more: int)
    requires less <= more
    requires MatchAgainstPo(po, bill, received, more).outcome == Matched
    ensures MatchAgainstPo(po, Replay(po, bill), received, less).outcome == Matched
  {
    ReplayIsLossless(po, bill);
    CapacityAntitone(po.value.total, bill.total, received, less, more);
  }

  /** A bill that is refused stays refused when siblings hold more value. */
  lemma RefusalPersists(po: Option<PoFacts>, bill: Bill, received: int, less: int, more: int)
    requires less <= more
    requires MatchAgainstPo(po, bill, received, less).outcome != Matched
    ensures MatchAgainstPo(po, Replay(po, bill), received, more).outcome != Matched
  {
    if MatchAgainstPo(po, Replay(po, bill), received, more).outcome == Matched {
      ReplayIsLossless(po, bill);
      CapacityAntitone(po.value.total, bill.total, received, less, more);
    }
  }

  /** The partial flag that a judgement of `bill` stores. */
  predicate StoredPartial(po: Option<PoFacts>, bill: Bill) {
    MatchAgainstPo(po, bill, 0, 0).isPartial
  }

  /** The bill as a later pass rebuilds it: same row, `allowPartial` re-derived
      from the stored match result. */
  function Replay(po: Option<PoFacts>, bill: Bill): Bill {
    bill.(allowPartial := StoredPartial(po, bill))
  }

  /** The stored flag does not depend on receipts or siblings, replaying gives
      the same amount verdict as the original request, and replaying twice is
      replaying once. */
  lemma ReplayIsLossless(po: Option<PoFacts>, bill: Bill)
    ensures forall received, reserved ::
              MatchAgainstPo(po, bill, received, reserved).isPartial == StoredPartial(po, bill)
    ensures forall received, reserved ::
              MatchAgainstPo(po, Replay(po, bill), received, reserved).amountMatched
              == MatchAgainstPo(po, bill, received, reserved).amountMatched
    ensures Replay(po, Replay(po, bill)) == Replay(po, bill)
  {
  }
}

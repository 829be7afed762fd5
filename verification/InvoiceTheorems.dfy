/** Invoices: what a registration stores, and what the status of an invoice says about
    its order, in every reachable state. */
module InvoiceTheorems {
  import opened Common
  import opened Sums
  import opened Matching
  import opened LedgerModel
  import opened MatchPasses
  import opened LedgerSteps
  import opened MemoryTheorems
  import opened HistoryTheorems
  import opened RequisitionTheorems
  import Tax

  // ----- Registration -----

  /** The vendor already sent an invoice with this number. */
  predicate KnownNumber(db: Db, vendor: nat, number: string) {
    exists i :: 0 <= i < |db.invoices| && db.invoices[i].vendor == vendor && db.invoices[i].number == number
  }

  predicate AmountsStorable(lines: seq<Tax.TaxLine>, tax: Tax.TaxPolicy) {
    var c := Tax.Computation(lines, tax);
    FitsColumn(c.gross) && FitsColumn(c.vat) && FitsColumn(c.ewt) && FitsColumn(c.netPayable)
  }

  /** What the order has received and what its matched and paid invoices hold. */
  function GoodsOn(db: Db, p: nat): int {
    ReceivedAt(db.pos, db.receipts, db.receiptLines, p)
  }

  /** The invoice is what was submitted and what the tax engine made of its lines. */
  predicate RowFromInput(inv: Invoice, input: RegisterInput, tax: Tax.TaxPolicy) {
    var c := Tax.Computation(input.lines, tax);
    inv.vendor == input.vendor && inv.number == input.number && inv.po == input.po
    && inv.currency == input.currency && inv.receivedAt == input.receivedAt
    && inv.amount == Sum(Tax.Amounts(input.lines)) && inv.vat == c.vat && inv.ewt == c.ewt
  }

  /** Without an order the invoice waits; an unknown order is an exception; otherwise
      the first fault of the match decides status and outcome. */
  predicate StatusFromMatch(db: Db, inv: Invoice, allowPartial: bool) {
    if inv.po.None? then inv.status == Received && inv.result.None?
    else if inv.po.value >= |db.pos| then
      inv.status == Exception && inv.result.Some? && inv.result.value.outcome == PoNotFound
    else
      var p, po := inv.po.value, db.pos[inv.po.value];
      var facts := PoFacts(po.status != PoCancelled, po.vendor, po.currency, po.total, po.terms.AllowPartial());
      var fault := FirstFault(facts, Bill(inv.vendor, inv.amount, inv.currency, allowPartial),
                              GoodsOn(db, p), AllocatedValue(db.invoices, p));
      inv.result.Some? && inv.result.value.outcome == fault
      && inv.status == (if fault == Matched then MatchedStatus
                        else if fault == AwaitingReceipt then Received
                        else Exception)
  }

  /** A registration is refused exactly when an amount cannot be stored, changes
      nothing when the vendor already sent the number, and otherwise adds one invoice
      with its match; it changes no other table. */
  lemma RegistrationAdds(db: Db, input: RegisterInput, tax: Tax.TaxPolicy)
    ensures !AmountsStorable(input.lines, tax) ==> Register(db, input, tax) == Refused(BadRequest)
    ensures AmountsStorable(input.lines, tax) ==> Register(db, input, tax).Done?
    ensures AmountsStorable(input.lines, tax) && KnownNumber(db, input.vendor, input.number) ==>
              Register(db, input, tax) == Done(db)
    ensures AmountsStorable(input.lines, tax) && !KnownNumber(db, input.vendor, input.number) ==>
              var after := After(db, Register(db, input, tax));
              var n := |db.invoices|;
              |after.invoices| == n + 1 && after == db.(invoices := db.invoices + [after.invoices[n]])
              && RowFromInput(after.invoices[n], input, tax)
              && StatusFromMatch(db, after.invoices[n], input.allowPartial)
  {
    if AmountsStorable(input.lines, tax) && !KnownNumber(db, input.vendor, input.number) {
      NewInvoiceIsJudged(db, input, Tax.Computation(input.lines, tax));
    }
  }

  lemma NewInvoiceIsJudged(db: Db, input: RegisterInput, c: Tax.TaxComputation)
    ensures StatusFromMatch(db, NewInvoice(db, input, c), input.allowPartial)
  {
    if input.po.Some? {
      var bill := Bill(input.vendor, c.gross, input.currency, input.allowPartial);
      var received, reserved := GoodsOn(db, input.po.value), AllocatedValue(db.invoices, input.po.value);
      var facts := FactsAt(db.pos, input.po.value);
      if facts.Some? {
        OutcomeIsFirstFault(facts.value, bill, received, reserved);
      } else {
        UnknownOrderIsException(bill, received, reserved);
      }
    }
  }

  /** An invoice that arrives before its goods is not an exception: if nothing but the
      goods is missing it waits, and the next receipt of the order considers it. */
  lemma EarlyInvoiceWaits(db: Db, input: RegisterInput, tax: Tax.TaxPolicy, p: nat)
    requires AmountsStorable(input.lines, tax) && !KnownNumber(db, input.vendor, input.number)
    requires input.po == Some(p) && p < |db.pos| && db.pos[p].status != PoCancelled
    requires db.pos[p].vendor == input.vendor && db.pos[p].currency == input.currency && GoodsOn(db, p) == 0
    requires AmountAgrees(db.pos[p].total, Sum(Tax.Amounts(input.lines)),
                          input.allowPartial || db.pos[p].terms.AllowPartial())
    ensures var after, n := After(db, Register(db, input, tax)), |db.invoices|;
            |after.invoices| == n + 1 && after.invoices[n].status == Received
            && n in OpenIds(after.invoices, p, |after.invoices|)
  {
    RegistrationAdds(db, input, tax);
    var after, n := After(db, Register(db, input, tax)), |db.invoices|;
    OpenMeansWaiting(after.invoices[n], p);
    OpenIdsComplete(after.invoices, p, |after.invoices|);
  }

  // ----- What a status says -----

  /** In every reachable state the status of an unpaid invoice with an order says how
      it stands: matched exactly when its last judgement was a match, waiting exactly
      when only goods are missing, an exception for every other fault. */
  lemma StatusSaysWhy(history: seq<Event>, i: nat)
    requires i < |LedgerSteps.Replay(history).invoices|
    requires var inv := LedgerSteps.Replay(history).invoices[i]; inv.po.Some? && inv.status != Paid
    ensures var inv := LedgerSteps.Replay(history).invoices[i];
            inv.result.Some?
            && (inv.status == MatchedStatus <==> inv.result.value.outcome == Matched)
            && (inv.status == Received <==> inv.result.value.outcome == AwaitingReceipt)
            && (inv.status == Exception <==> inv.result.value.outcome !in {Matched, AwaitingReceipt})
  {
    EveryHistoryRemembers(history);
    var db := LedgerSteps.Replay(history);
    assert Remembers(db.pos, db.invoices[i]);
    StatusForMeans(db.invoices[i].result.value);
  }

  lemma StatusForMeans(m: MatchResult)
    ensures StatusFor(m) == MatchedStatus <==> m.outcome == Matched
    ensures StatusFor(m) == Received <==> m.outcome == AwaitingReceipt
    ensures StatusFor(m) == Exception <==> m.outcome !in {Matched, AwaitingReceipt}
  {
  }
}

/** Partial invoicing is remembered: the verdict on an invoice's amount, taken
    when it was registered, is the verdict of every later pass. */
module MemoryTheorems {
  import opened Common
  import opened Matching
  import opened LedgerModel
  import opened MatchPasses
  import opened LedgerSteps
  import opened LedgerSafety
  import Tax

  /** Re-judging the stored invoice reproduces what is stored about its amount. */
  predicate ReplaysTo(facts: Option<PoFacts>, inv: Invoice, m: MatchResult) {
    var again := MatchAgainstPo(facts, BillOf(inv), 0, 0);
    again.amountMatched == m.amountMatched && again.isPartial == m.isPartial
  }

  predicate Remembers(pos: seq<Po>, inv: Invoice) {
    inv.po.Some? ==>
      inv.result.Some?
      && (inv.status == Paid || inv.status == StatusFor(inv.result.value))
      && (inv.po.value >= |pos| ==> inv.result.value.outcome == PoNotFound && inv.status != Paid)
      && (inv.result.value.outcome != PoNotFound ==> ReplaysTo(FactsAt(pos, inv.po.value), inv, inv.result.value))
  }

  predicate MemoryOk(pos: seq<Po>, invoices: seq<Invoice>) {
    forall i :: 0 <= i < |invoices| ==> Remembers(pos, invoices[i])
  }

  /** The amount verdict of every invoice judged against its order stays. */
  predicate SameVerdict(a: Invoice, b: Invoice) {
    a.po.Some? && a.result.Some? && a.result.value.outcome != PoNotFound ==>
      b.po == a.po && b.result.Some? && b.result.value.outcome != PoNotFound
      && b.result.value.amountMatched == a.result.value.amountMatched
      && b.result.value.isPartial == a.result.value.isPartial
  }

  predicate KeepsVerdicts(a: seq<Invoice>, b: seq<Invoice>) {
    |a| <= |b| && forall i :: 0 <= i < |a| ==> SameVerdict(a[i], b[i])
  }

  /** Orders only gain rows and move status; totals and terms are fixed. */
  predicate SameTerms(a: seq<Po>, b: seq<Po>) {
    |a| <= |b| && forall p :: 0 <= p < |a| ==> a[p] == b[p].(status := a[p].status)
  }

  lemma TermsKeepMemory(a: seq<Po>, b: seq<Po>, invoices: seq<Invoice>)
    requires SameTerms(a, b) && MemoryOk(a, invoices)
    ensures MemoryOk(b, invoices)
  {
    forall i | 0 <= i < |invoices| ensures Remembers(b, invoices[i]) {
      assert Remembers(a, invoices[i]);
      if invoices[i].po.Some? && invoices[i].po.value < |a| {
        var p := invoices[i].po.value;
        assert a[p] == b[p].(status := a[p].status);
      }
    }
  }

  /** Storing a fresh judgement of an open or matched invoice forgets nothing. */
  lemma JudgementRemembers(pos: seq<Po>, inv: Invoice, p: nat, received: int, reserved: int)
    requires inv.po == Some(p) && p < |pos| && inv.status != Paid
    requires Remembers(pos, inv) && inv.result.value.outcome != PoNotFound
    ensures var m := MatchAgainstPo(FactsAt(pos, p), BillOf(inv), received, reserved);
            var next := inv.(status := StatusFor(m), result := Some(m));
            Remembers(pos, next) && SameVerdict(inv, next)
  {
    ReplayIsLossless(FactsAt(pos, p), BillOf(inv));
  }

  predicate Reachable(invoices: seq<Invoice>, p: nat, ids: seq<nat>) {
    IdsIn(ids, invoices)
    && forall k :: 0 <= k < |ids| ==>
         invoices[ids[k]].po == Some(p) && invoices[ids[k]].status != Paid
         && invoices[ids[k]].result.Some? && invoices[ids[k]].result.value.outcome != PoNotFound
  }

  lemma {:induction false} RematchRemembers(pos: seq<Po>, o: Order, invoices: seq<Invoice>, ids: seq<nat>)
    requires o.id < |pos| && o.facts == FactsAt(pos, o.id)
    requires MemoryOk(pos, invoices) && Reachable(invoices, o.id, ids) && Distinct(ids)
    ensures MemoryOk(pos, Rematched(o, invoices, ids)) && KeepsVerdicts(invoices, Rematched(o, invoices, ids))
    decreases |ids|
  {
    if |ids| > 0 {
      var i := ids[0];
      JudgementRemembers(pos, invoices[i], o.id, o.received, AllocatedValue(invoices, o.id));
      var next := Stored(invoices, i, Judge(o, invoices, i));
      RematchRemembers(pos, o, next, ids[1..]);
      assert KeepsVerdicts(invoices, next);
    }
  }

  lemma {:induction false} ReevaluationRemembers(pos: seq<Po>, o: Order, invoices: seq<Invoice>, ids: seq<nat>)
    requires o.id < |pos| && o.facts == FactsAt(pos, o.id)
    requires MemoryOk(pos, invoices) && Reachable(invoices, o.id, ids) && Distinct(ids)
    ensures MemoryOk(pos, Reevaluated(o, invoices, ids)) && KeepsVerdicts(invoices, Reevaluated(o, invoices, ids))
    decreases |ids|
  {
    if |ids| > 0 {
      var i := ids[0];
      JudgementRemembers(pos, invoices[i], o.id, o.received, AllocatedExcept(invoices, o.id, i));
      var next := Stored(invoices, i, JudgeAlone(o, invoices, i));
      ReevaluationRemembers(pos, o, next, ids[1..]);
      assert KeepsVerdicts(invoices, next);
    }
  }

  /** Both passes only reach invoices that were judged against their order. */
  lemma OpenAreReachable(pos: seq<Po>, invoices: seq<Invoice>, p: nat)
    requires MemoryOk(pos, invoices)
    ensures Reachable(invoices, p, OpenIds(invoices, p, |invoices|)) && Distinct(OpenIds(invoices, p, |invoices|))
  {
    OpenIdsComplete(invoices, p, |invoices|);
    var ids := OpenIds(invoices, p, |invoices|);
    forall k | 0 <= k < |ids| ensures IsOpen(invoices[ids[k]], p) && Remembers(pos, invoices[ids[k]]) {
      assert ids[k] in ids;
    }
  }

  lemma MatchedAreReachable(pos: seq<Po>, invoices: seq<Invoice>, p: nat)
    requires MemoryOk(pos, invoices)
    ensures Reachable(invoices, p, MatchedIds(invoices, p, |invoices|)) && Distinct(MatchedIds(invoices, p, |invoices|))
  {
    MatchedIdsComplete(invoices, p, |invoices|);
    var ids := MatchedIds(invoices, p, |invoices|);
    forall k | 0 <= k < |ids| ensures IsMatchedOn(invoices[ids[k]], p) && Remembers(pos, invoices[ids[k]]) {
      assert ids[k] in ids;
    }
  }

  /** The step forgets nothing and changes no verdict. */
  predicate Remembering(db: Db, after: Db) {
    MemoryOk(after.pos, after.invoices) && KeepsVerdicts(db.invoices, after.invoices)
  }

  lemma ReceiptRemembers(db: Db, p: nat, inputs: seq<ReceiptInput>)
    requires MemoryOk(db.pos, db.invoices)
    ensures Remembering(db, After(db, RecordReceipt(db, p, inputs)))
  {
    if RecordReceipt(db, p, inputs).Done? {
      var booked := Booked(db, p, BookedLines(p, db.pos[p], inputs, |db.receipts|));
      OpenAreReachable(db.pos, db.invoices, p);
      RematchRemembers(db.pos, OrderAt(booked, p), db.invoices, OpenIds(db.invoices, p, |db.invoices|));
    }
  }

  lemma ReevaluateOnRemembers(db: Db, p: nat)
    requires MemoryOk(db.pos, db.invoices) && p < |db.pos|
    ensures Remembering(db, ReevaluateOn(db, p))
  {
    MatchedAreReachable(db.pos, db.invoices, p);
    ReevaluationRemembers(db.pos, OrderAt(db, p), db.invoices, MatchedIds(db.invoices, p, |db.invoices|));
  }

  lemma CancelReceiptRemembers(db: Db, r: nat)
    requires MemoryOk(db.pos, db.invoices) && ReceiptsOk(db.pos, db.receipts, db.receiptLines)
    ensures Remembering(db, After(db, CancelReceipt(db, r)))
  {
    if CancelReceipt(db, r).Done? {
      var p := db.receipts[r].po;
      ReevaluateOnRemembers(db.(receipts := db.receipts[r := Receipt(p, false)]), p);
    }
  }

  lemma CancelOrderRemembers(db: Db, p: nat, requisition: Option<nat>)
    requires MemoryOk(db.pos, db.invoices)
    ensures Remembering(db, After(db, CancelOrder(db, p, requisition)))
  {
    if p < |db.pos| {
      TermsKeepMemory(db.pos, CancelledAt(db, p).pos, db.invoices);
      ReevaluateOnRemembers(CancelledAt(db, p), p);
    }
  }

  lemma DecideRemembers(db: Db, k: nat, verdict: Verdict, actor: string, credentials: Credentials)
    requires MemoryOk(db.pos, db.invoices)
    ensures Remembering(db, After(db, Decide(db, k, verdict, actor, credentials)))
  {
    if Decide(db, k, verdict, actor, credentials).Done? {
      var a := db.approvals[k];
      var decided := db.(approvals := db.approvals[k := a.(
                           status := DecidedStatus(verdict), decidedBy := Some(Human(actor)))]);
      if a.po.Some? {
        CancelOrderRemembers(decided, a.po.value, a.requisition);
      }
    }
  }

  lemma RegisterRemembers(db: Db, input: RegisterInput, tax: Tax.TaxPolicy)
    requires MemoryOk(db.pos, db.invoices)
    ensures Remembering(db, After(db, Register(db, input, tax)))
  {
    var o := Register(db, input, tax);
    if o.Done? && o.db != db {
      var c := Tax.Computation(input.lines, tax);
      if input.po.Some? {
        ReplayIsLossless(FactsAt(db.pos, input.po.value),
                         Bill(input.vendor, c.gross, input.currency, input.allowPartial));
      }
      assert Remembers(db.pos, NewInvoice(db, input, c));
    }
  }

  lemma IssueRemembers(db: Db, r: nat, v: nat, terms: Terms, actor: string, now: int)
    requires MemoryOk(db.pos, db.invoices)
    ensures Remembering(db, After(db, IssuePo(db, r, v, terms, actor, now)))
  {
    TermsKeepMemory(db.pos, After(db, IssuePo(db, r, v, terms, actor, now)).pos, db.invoices);
  }

  lemma ConfirmRemembers(db: Db, p: nat)
    requires MemoryOk(db.pos, db.invoices)
    ensures Remembering(db, After(db, ConfirmPo(db, p)))
  {
    TermsKeepMemory(db.pos, After(db, ConfirmPo(db, p)).pos, db.invoices);
  }

  lemma PaymentKeepsMemory(pos: seq<Po>, invoices: seq<Invoice>, i: nat)
    requires MemoryOk(pos, invoices) && i < |invoices| && invoices[i].status == MatchedStatus
    requires InvoiceOk(pos, invoices[i])
    ensures MemoryOk(pos, invoices[i := invoices[i].(status := Paid)])
    ensures KeepsVerdicts(invoices, invoices[i := invoices[i].(status := Paid)])
  {
    assert Remembers(pos, invoices[i]);
  }

  lemma ReconciledTables(db: Db, r: nat, l: nat, outcome: BankOutcome)
    requires Reconcile(db, r, l, outcome).Done?
    ensures var after := After(db, Reconcile(db, r, l, outcome));
            after.pos == db.pos
            && after.invoices
               == if outcome == BankPaid && db.invoices[db.runLines[l].invoice].status != Paid
                  then db.invoices[db.runLines[l].invoice := db.invoices[db.runLines[l].invoice].(status := Paid)]
                  else db.invoices
  {
  }

  lemma ReconcileRemembers(db: Db, r: nat, l: nat, outcome: BankOutcome)
    requires MemoryOk(db.pos, db.invoices) && InvoicesOk(db.pos, db.invoices)
    requires ClaimsOk(db.invoices, db.runs, db.runLines)
    ensures Remembering(db, After(db, Reconcile(db, r, l, outcome)))
  {
    if Reconcile(db, r, l, outcome).Done? {
      ReconciledTables(db, r, l, outcome);
      if outcome == BankPaid {
        assert LiveClaim(db.runs, db.runLines[l]);
        PaymentKeepsMemory(db.pos, db.invoices, db.runLines[l].invoice);
      }
    }
  }

  predicate WritesOrders(e: Event) {
    e.EvDecide? || e.EvIssue? || e.EvConfirm?
  }

  predicate WritesInvoices(e: Event) {
    e.EvRecordReceipt? || e.EvCancelReceipt? || e.EvRegister? || e.EvReconcile?
  }

  lemma OrderStepRemembers(db: Db, e: Event)
    requires MemoryOk(db.pos, db.invoices) && WritesOrders(e)
    ensures Remembering(db, Step(db, e))
  {
    match e
    case EvDecide(k, verdict, actor, evidence) => DecideRemembers(db, k, verdict, actor, evidence);
    case EvIssue(r, v, terms, actor, now) => IssueRemembers(db, r, v, terms, actor, now);
    case EvConfirm(p) => ConfirmRemembers(db, p);
  }

  lemma ReceiptStepRemembers(db: Db, e: Event)
    requires MemoryOk(db.pos, db.invoices) && (e.EvRecordReceipt? || e.EvCancelReceipt?)
    requires ReceiptsOk(db.pos, db.receipts, db.receiptLines)
    ensures Remembering(db, Step(db, e))
  {
    if e.EvRecordReceipt? {
      ReceiptRemembers(db, e.p, e.received);
    } else {
      CancelReceiptRemembers(db, e.r);
    }
  }

  lemma RegisterStepRemembers(db: Db, e: Event)
    requires MemoryOk(db.pos, db.invoices) && e.EvRegister?
    ensures Remembering(db, Step(db, e))
  {
    RegisterRemembers(db, e.input, e.tax);
  }

  lemma ReconcileStepRemembers(db: Db, e: Event)
    requires MemoryOk(db.pos, db.invoices) && e.EvReconcile?
    requires InvoicesOk(db.pos, db.invoices) && ClaimsOk(db.invoices, db.runs, db.runLines)
    ensures Remembering(db, Step(db, e))
  {
    ReconcileRemembers(db, e.r, e.l, e.outcome);
  }

  lemma InvoiceStepRemembers(db: Db, e: Event)
    requires MemoryOk(db.pos, db.invoices) && WritesInvoices(e)
    requires ReceiptsOk(db.pos, db.receipts, db.receiptLines) && InvoicesOk(db.pos, db.invoices)
    requires ClaimsOk(db.invoices, db.runs, db.runLines)
    ensures Remembering(db, Step(db, e))
  {
    if e.EvRegister? {
      RegisterStepRemembers(db, e);
    } else if e.EvReconcile? {
      ReconcileStepRemembers(db, e);
    } else {
      ReceiptStepRemembers(db, e);
    }
  }

  lemma OtherStepRemembers(db: Db, e: Event)
    requires MemoryOk(db.pos, db.invoices) && !WritesOrders(e) && !WritesInvoices(e)
    ensures Remembering(db, Step(db, e))
  {
    assert Step(db, e).pos == db.pos && Step(db, e).invoices == db.invoices;
  }

  lemma StepRemembers(db: Db, e: Event)
    requires Inv(db) && MemoryOk(db.pos, db.invoices)
    ensures Remembering(db, Step(db, e))
  {
    if WritesOrders(e) {
      OrderStepRemembers(db, e);
    } else if WritesInvoices(e) {
      InvoiceStepRemembers(db, e);
    } else {
      OtherStepRemembers(db, e);
    }
  }
}

/** Exactly when the two tempting bounds hold: payments on an order within its
    total, and commitment plus spending within the limit. Each is kept by every
    transaction but a paid reconciliation, and by that one exactly when a plain
    comparison of stored amounts allows it. */
module LimitTheorems {
  import opened Common
  import opened Sums
  import opened Matching
  import opened LedgerModel
  import opened MatchPasses
  import opened LedgerSteps
  import opened LedgerTheorems
  import PaymentTheorems
  import Tax

  /** The transaction is a bank confirmation that goes through. */
  predicate Settles(db: Db, e: Event) {
    e.EvReconcile? && e.outcome == BankPaid && Reconcile(db, e.r, e.l, e.outcome).Done?
  }

  function SettledInvoice(db: Db, e: Event): Invoice
    requires Settles(db, e)
  {
    db.invoices[db.runLines[e.l].invoice]
  }

  // ----- Who pays invoices -----

  /** `b` extends `a`, and exactly the paid invoices of `a` are paid in `b`. */
  predicate SamePaid(a: seq<Invoice>, b: seq<Invoice>) {
    |a| <= |b| && forall i :: 0 <= i < |b| && (b[i].status == Paid || (i < |a| && a[i].status == Paid)) ==>
                     i < |a| && b[i] == a[i]
  }

  lemma {:induction false} RematchPaysNothing(o: Order, a: seq<Invoice>, ids: seq<nat>)
    requires IdsIn(ids, a)
    ensures forall i :: 0 <= i < |a| && Rematched(o, a, ids)[i].status == Paid ==> a[i].status == Paid
    decreases |ids|
  {
    if |ids| > 0 {
      RematchPaysNothing(o, Stored(a, ids[0], Judge(o, a, ids[0])), ids[1..]);
    }
  }

  lemma {:induction false} ReevaluationPaysNothing(o: Order, a: seq<Invoice>, ids: seq<nat>)
    requires IdsIn(ids, a)
    ensures forall i :: 0 <= i < |a| && Reevaluated(o, a, ids)[i].status == Paid ==> a[i].status == Paid
    decreases |ids|
  {
    if |ids| > 0 {
      ReevaluationPaysNothing(o, Stored(a, ids[0], JudgeAlone(o, a, ids[0])), ids[1..]);
    }
  }

  lemma ReceiptPaysNothing(db: Db, p: nat, inputs: seq<ReceiptInput>)
    ensures forall i :: 0 <= i < |db.invoices| && After(db, RecordReceipt(db, p, inputs)).invoices[i].status == Paid
                        ==> db.invoices[i].status == Paid
    ensures |After(db, RecordReceipt(db, p, inputs)).invoices| == |db.invoices|
  {
    if RecordReceipt(db, p, inputs).Done? {
      var booked := Booked(db, p, BookedLines(p, db.pos[p], inputs, |db.receipts|));
      RematchPaysNothing(OrderAt(booked, p), db.invoices, OpenIds(db.invoices, p, |db.invoices|));
    }
  }

  lemma ReevaluateOnPaysNothing(db: Db, p: nat)
    ensures forall i :: 0 <= i < |db.invoices| && ReevaluateOn(db, p).invoices[i].status == Paid
                        ==> db.invoices[i].status == Paid
  {
    ReevaluationPaysNothing(OrderAt(db, p), db.invoices, MatchedIds(db.invoices, p, |db.invoices|));
  }

  lemma CancelReceiptPaysNothing(db: Db, r: nat)
    ensures forall i :: 0 <= i < |db.invoices| && After(db, CancelReceipt(db, r)).invoices[i].status == Paid
                        ==> db.invoices[i].status == Paid
    ensures |After(db, CancelReceipt(db, r)).invoices| == |db.invoices|
  {
    if CancelReceipt(db, r).Done? {
      var p := db.receipts[r].po;
      ReevaluateOnPaysNothing(db.(receipts := db.receipts[r := Receipt(p, false)]), p);
    }
  }

  lemma CancelOrderPaysNothing(db: Db, p: nat, requisition: Option<nat>)
    ensures forall i :: 0 <= i < |db.invoices| && After(db, CancelOrder(db, p, requisition)).invoices[i].status == Paid
                        ==> db.invoices[i].status == Paid
    ensures |After(db, CancelOrder(db, p, requisition)).invoices| == |db.invoices|
  {
    if p < |db.pos| {
      ReevaluateOnPaysNothing(db.(pos := db.pos[p := db.pos[p].(status := PoCancelled)]), p);
    }
  }

  lemma DecidePaysNothing(db: Db, k: nat, verdict: Verdict, actor: string, credentials: Credentials)
    ensures var after := After(db, Decide(db, k, verdict, actor, credentials));
            |after.invoices| == |db.invoices|
            && forall i :: 0 <= i < |db.invoices| && after.invoices[i].status == Paid ==> db.invoices[i].status == Paid
  {
    if Decide(db, k, verdict, actor, credentials).Done? {
      var a := db.approvals[k];
      var decided := db.(approvals := db.approvals[k := a.(
                           status := DecidedStatus(verdict), decidedBy := Some(Human(actor)))]);
      if a.po.Some? {
        CancelOrderPaysNothing(decided, a.po.value, a.requisition);
      }
    }
  }

  predicate WritesInvoices(e: Event) {
    e.EvRecordReceipt? || e.EvCancelReceipt? || e.EvDecide? || e.EvRegister? || e.EvReconcile?
  }

  lemma OthersKeepInvoices(db: Db, e: Event)
    requires !WritesInvoices(e)
    ensures Step(db, e).invoices == db.invoices
  {
  }

  lemma RegisterPaysNothing(db: Db, input: RegisterInput, tax: Tax.TaxPolicy)
    ensures SamePaid(db.invoices, After(db, Register(db, input, tax)).invoices)
  {
  }

  lemma UnsettledKeepsInvoices(db: Db, e: Event)
    requires e.EvReconcile? && !Settles(db, e)
    ensures Step(db, e).invoices == db.invoices
  {
  }

  lemma NothingNewlyPaid(db: Db, after: Db)
    requires PaymentTheorems.KeepsTerminalRows(db, after) && |after.invoices| == |db.invoices|
    requires forall i :: 0 <= i < |db.invoices| && after.invoices[i].status == Paid ==> db.invoices[i].status == Paid
    ensures SamePaid(db.invoices, after.invoices)
  {
  }

  /** Receipts and decisions pay nothing. */
  lemma PassesPayNothing(db: Db, e: Event)
    requires e.EvRecordReceipt? || e.EvCancelReceipt? || e.EvDecide?
    ensures SamePaid(db.invoices, Step(db, e).invoices)
  {
    PaymentTheorems.StepKeepsTerminal(db, e);
    if e.EvRecordReceipt? {
      ReceiptPaysNothing(db, e.p, e.received);
    } else if e.EvCancelReceipt? {
      CancelReceiptPaysNothing(db, e.r);
    } else {
      DecidePaysNothing(db, e.k, e.verdict, e.actor, e.credentials);
    }
    NothingNewlyPaid(db, Step(db, e));
  }

  /** Nothing but a confirmed payment changes which invoices are paid. */
  lemma OnlySettlingPays(db: Db, e: Event)
    requires !Settles(db, e)
    ensures SamePaid(db.invoices, Step(db, e).invoices)
  {
    if e.EvRecordReceipt? || e.EvCancelReceipt? || e.EvDecide? {
      PassesPayNothing(db, e);
    } else if e.EvRegister? {
      RegisterPaysNothing(db, e.input, e.tax);
    } else if e.EvReconcile? {
      UnsettledKeepsInvoices(db, e);
    } else {
      OthersKeepInvoices(db, e);
    }
  }

  lemma SamePaidSameSums(a: seq<Invoice>, b: seq<Invoice>, p: nat)
    requires SamePaid(a, b)
    ensures Sum(PaidOn(b, p)) == Sum(PaidOn(a, p))
  {
    var before, more := PaidOn(b, p)[..|a|], PaidOn(b, p)[|a|..];
    assert before == PaidOn(a, p);
    assert PaidOn(b, p) == before + more;
    SumConcat(before, more);
    SumZero(more);
  }

  // ----- Payments within the order's total -----

  /** What the transaction pays on order `p`. */
  function PaidBy(db: Db, e: Event, p: nat): int {
    if Settles(db, e) && SettledInvoice(db, e).po == Some(p) then SettledInvoice(db, e).amount else 0
  }

  lemma SettledWasMatched(db: Db, e: Event)
    requires ClaimsOk(db.invoices, db.runs, db.runLines) && Settles(db, e)
    ensures SettledInvoice(db, e).status == MatchedStatus
    ensures var i := db.runLines[e.l].invoice;
            Step(db, e).invoices == db.invoices[i := db.invoices[i].(status := Paid)]
  {
    assert LiveClaim(db.runs, db.runLines[e.l]);
  }

  lemma PaidOnMoves(db: Db, e: Event, p: nat)
    requires ClaimsOk(db.invoices, db.runs, db.runLines)
    ensures Sum(PaidOn(Step(db, e).invoices, p)) == Sum(PaidOn(db.invoices, p)) + PaidBy(db, e, p)
  {
    if Settles(db, e) {
      SettledWasMatched(db, e);
      var i, paid := db.runLines[e.l].invoice, PaidOn(db.invoices, p);
      assert PaidOn(Step(db, e).invoices, p) == paid[i := PaidBy(db, e, p)];
      SumUpdate(paid, i, PaidBy(db, e, p));
    } else {
      OnlySettlingPays(db, e);
      SamePaidSameSums(db.invoices, Step(db, e).invoices, p);
    }
  }

  predicate PaidWithinTotal(db: Db, p: nat)
    requires p < |db.pos|
  {
    Sum(PaidOn(db.invoices, p)) <= db.pos[p].total
  }

  /** What an operator can compare before confirming the payment: what was paid on
      the order, plus the invoice, against the order's total. */
  predicate PaymentFits(db: Db, e: Event) {
    Settles(db, e) ==>
      var po := SettledInvoice(db, e).po;
      po.Some? && po.value < |db.pos| ==>
        Sum(PaidOn(db.invoices, po.value)) + SettledInvoice(db, e).amount <= db.pos[po.value].total
  }

  lemma OrderTotalsStay(db: Db, e: Event)
    ensures |db.pos| <= |Step(db, e).pos|
    ensures forall p :: 0 <= p < |db.pos| ==> Step(db, e).pos[p].total == db.pos[p].total
  {
    if e.EvDecide? {
      DecisionMovesOneOrder(db, e.k, e.verdict, e.actor, e.credentials);
    }
  }

  /** Exact, per transaction: payments on an order stay within its total if and only
      if the payment that the transaction makes on it fits; no other transaction
      moves them at all. */
  lemma PaidWithinTotalExactly(db: Db, e: Event, p: nat)
    requires Inv(db) && p < |db.pos|
    ensures p < |Step(db, e).pos|
    ensures PaidWithinTotal(Step(db, e), p)
       <==> Sum(PaidOn(db.invoices, p)) + PaidBy(db, e, p) <= db.pos[p].total
    ensures PaidBy(db, e, p) == 0 || Settles(db, e)
  {
    PaidOnMoves(db, e, p);
    OrderTotalsStay(db, e);
  }

  predicate PaidWithinTotals(db: Db) {
    forall p :: 0 <= p < |db.pos| ==> PaidWithinTotal(db, p)
  }

  lemma NothingPaidOnNewOrders(db: Db, e: Event, p: nat)
    requires Inv(db) && |db.pos| <= p < |Step(db, e).pos|
    ensures PaidWithinTotal(Step(db, e), p)
  {
    PaidOnMoves(db, e, p);
    StepIsSafe(db, e);
    assert PoOk(Step(db, e).reqs, Step(db, e).pos[p]);
    forall i | 0 <= i < |db.invoices| ensures PaidOn(db.invoices, p)[i] == 0 {
      assert InvoiceOk(db.pos, db.invoices[i]);
    }
    SumZero(PaidOn(db.invoices, p));
    if Settles(db, e) {
      SettledWasMatched(db, e);
      assert InvoiceOk(db.pos, SettledInvoice(db, e));
    }
  }

  lemma TotalsStep(db: Db, e: Event)
    requires Inv(db)
    ensures PaidWithinTotals(Step(db, e)) <==> PaidWithinTotals(db) && PaymentFits(db, e)
  {
    var after := Step(db, e);
    OrderTotalsStay(db, e);
    forall p | 0 <= p < |after.pos|
      ensures PaidWithinTotal(after, p)
         <==> (p < |db.pos| ==> Sum(PaidOn(db.invoices, p)) + PaidBy(db, e, p) <= db.pos[p].total)
      ensures 0 <= PaidBy(db, e, p)
    {
      PaidByNonnegative(db, e, p);
      if p < |db.pos| {
        PaidWithinTotalExactly(db, e, p);
      } else {
        NothingPaidOnNewOrders(db, e, p);
      }
    }
    TotalsStepExactly(db, e);
  }

  lemma PaidByNonnegative(db: Db, e: Event, p: nat)
    requires InvoicesOk(db.pos, db.invoices)
    ensures 0 <= PaidBy(db, e, p)
  {
    if Settles(db, e) {
      assert InvoiceOk(db.pos, SettledInvoice(db, e));
    }
  }

  lemma TotalsStepExactly(db: Db, e: Event)
    requires |db.pos| <= |Step(db, e).pos|
    requires forall p :: 0 <= p < |Step(db, e).pos| ==>
               0 <= PaidBy(db, e, p)
               && (PaidWithinTotal(Step(db, e), p)
                   <==> (p < |db.pos| ==> Sum(PaidOn(db.invoices, p)) + PaidBy(db, e, p) <= db.pos[p].total))
    ensures PaidWithinTotals(Step(db, e)) <==> PaidWithinTotals(db) && PaymentFits(db, e)
  {
    if PaidWithinTotals(Step(db, e)) {
      forall p | 0 <= p < |db.pos| ensures PaidWithinTotal(db, p) {
        assert PaidWithinTotal(Step(db, e), p);
      }
      if Settles(db, e) && SettledInvoice(db, e).po.Some? && SettledInvoice(db, e).po.value < |db.pos| {
        assert PaidWithinTotal(Step(db, e), SettledInvoice(db, e).po.value);
      }
    } else {
      var p :| 0 <= p < |Step(db, e).pos| && !PaidWithinTotal(Step(db, e), p);
      assert p < |db.pos|;
      assert PaidBy(db, e, p) == 0 ==> !PaidWithinTotal(db, p);
    }
  }

  /** The payment that event `k` of the history confirmed, if any, fitted then. */
  predicate PaymentFitted(history: seq<Event>, k: nat)
    requires k < |history|
  {
    PaymentFits(LedgerSteps.Replay(history[..k]), history[k])
  }

  predicate All(a: seq<bool>) {
    forall k :: 0 <= k < |a| ==> a[k]
  }

  lemma AllAppend(a: seq<bool>, x: bool)
    ensures All(a + [x]) <==> All(a) && x
  {
    if All(a + [x]) {
      assert (a + [x])[|a|] == x;
      assert forall k :: 0 <= k < |a| ==> (a + [x])[k] == a[k];
    }
  }

  /** Transaction by transaction: did the payment, if it made one, fit? */
  function PaymentsFitted(history: seq<Event>): seq<bool> {
    seq(|history|, k requires 0 <= k < |history| => PaymentFitted(history, k))
  }

  lemma PrefixPaymentFitted(history: seq<Event>, n: nat, k: nat)
    requires k < n <= |history|
    ensures PaymentFitted(history[..n], k) == PaymentFitted(history, k)
  {
    assert history[..n][..k] == history[..k];
  }

  lemma PaymentsGrow(history: seq<Event>)
    requires |history| > 0
    ensures var n := |history| - 1;
            PaymentsFitted(history) == PaymentsFitted(history[..n]) + [PaymentFitted(history, n)]
  {
    var n := |history| - 1;
    forall k | 0 <= k < n ensures PaymentsFitted(history)[k] == PaymentsFitted(history[..n])[k] {
      PrefixPaymentFitted(history, n, k);
    }
  }

  lemma TotalsAfter(history: seq<Event>, e: Event)
    ensures var db := LedgerSteps.Replay(history);
            PaidWithinTotals(Step(db, e)) <==> PaidWithinTotals(db) && PaymentFits(db, e)
  {
    EveryHistoryIsSafe(history);
    TotalsStep(LedgerSteps.Replay(history), e);
  }

  lemma LastPayment(history: seq<Event>)
    requires |history| > 0
    ensures var n := |history| - 1;
            PaidWithinTotals(LedgerSteps.Replay(history))
            <==> PaidWithinTotals(LedgerSteps.Replay(history[..n])) && PaymentFitted(history, n)
  {
    TotalsAfter(history[..|history| - 1], history[|history| - 1]);
  }

  /** Exact, over every history: no order was ever paid beyond its total if and only
      if every confirmed payment fitted when it was confirmed. */
  lemma {:induction false} TotalsHoldExactly(history: seq<Event>)
    ensures PaidWithinTotals(LedgerSteps.Replay(history)) <==> All(PaymentsFitted(history))
  {
    if |history| > 0 {
      var n := |history| - 1;
      TotalsHoldExactly(history[..n]);
      LastPayment(history);
      PaymentsGrow(history);
      AllAppend(PaymentsFitted(history[..n]), PaymentFitted(history, n));
    }
  }

  // ----- Commitment plus spending within the limit -----

  predicate WithinLimit(b: Budget) {
    b.committed + b.spent <= b.limit
  }

  /** The transaction settles an invoice under budget `b`. */
  predicate SettlesUnder(db: Db, e: Event, b: nat) {
    Settles(db, e) && SettledInvoice(db, e).po.Some? && SettledInvoice(db, e).po.value < |db.pos|
    && BudgetOf(db.reqs, db.pos[SettledInvoice(db, e).po.value]) == Some(b)
  }

  /** What the invoice takes beyond the remaining commitment must still fit. */
  predicate SettlementFits(db: Db, e: Event, b: nat)
    requires b < |db.budgets|
  {
    SettlesUnder(db, e, b) ==>
      var budget := db.budgets[b];
      budget.committed + budget.spent + Max(0, SettledInvoice(db, e).amount - budget.committed) <= budget.limit
  }

  predicate MovesBudgets(e: Event) {
    e.EvAddBudget? || e.EvIssue? || e.EvDecide? || e.EvReconcile?
  }

  lemma OthersKeepBudgets(db: Db, e: Event)
    requires !MovesBudgets(e)
    ensures Step(db, e).budgets == db.budgets
  {
  }

  /** Budgets that are still there, with no more committed plus spent. */
  predicate NoMoreUsed(a: seq<Budget>, b: seq<Budget>) {
    |a| == |b| && forall k :: 0 <= k < |a| ==>
                    b[k].committed + b[k].spent <= a[k].committed + a[k].spent && b[k].limit == a[k].limit
  }

  lemma CancellingOnlyReleases(db: Db, p: nat, requisition: Option<nat>)
    ensures NoMoreUsed(db.budgets, After(db, CancelOrder(db, p, requisition)).budgets)
  {
  }

  lemma DecidingOnlyReleases(db: Db, k: nat, verdict: Verdict, actor: string, credentials: Credentials)
    ensures NoMoreUsed(db.budgets, After(db, Decide(db, k, verdict, actor, credentials)).budgets)
  {
    if Decide(db, k, verdict, actor, credentials).Done? {
      var a := db.approvals[k];
      var decided := db.(approvals := db.approvals[k := a.(
                           status := DecidedStatus(verdict), decidedBy := Some(Human(actor)))]);
      if a.po.Some? {
        CancellingOnlyReleases(decided, a.po.value, a.requisition);
      }
    }
  }

  lemma DecidingStaysWithin(db: Db, e: Event, b: nat)
    requires e.EvDecide? && b < |db.budgets| && WithinLimit(db.budgets[b])
    ensures |Step(db, e).budgets| == |db.budgets| && WithinLimit(Step(db, e).budgets[b])
  {
    DecidingOnlyReleases(db, e.k, e.verdict, e.actor, e.credentials);
  }

  lemma AddingKeepsBudget(db: Db, e: Event, b: nat)
    requires e.EvAddBudget? && b < |db.budgets|
    ensures b < |Step(db, e).budgets| && Step(db, e).budgets[b] == db.budgets[b]
  {
  }

  lemma IssuingStaysWithin(db: Db, e: Event, b: nat)
    requires e.EvIssue? && b < |db.budgets| && WithinLimit(db.budgets[b])
    ensures |Step(db, e).budgets| == |db.budgets| && WithinLimit(Step(db, e).budgets[b])
  {
  }

  function Settled(b: Budget, amount: int): Budget {
    b.(committed := Max(0, b.committed - amount), spent := b.spent + amount)
  }

  lemma UnsettledBudgets(db: Db, e: Event)
    requires e.EvReconcile? && !Settles(db, e)
    ensures Step(db, e).budgets == db.budgets
  {
  }

  lemma SettledBudgets(db: Db, e: Event, b: nat)
    requires ClaimsOk(db.invoices, db.runs, db.runLines) && Settles(db, e) && b < |db.budgets|
    ensures |Step(db, e).budgets| == |db.budgets|
    ensures Step(db, e).budgets[b]
         == if SettlesUnder(db, e, b) then Settled(db.budgets[b], SettledInvoice(db, e).amount) else db.budgets[b]
  {
    SettledWasMatched(db, e);
    var decided := db.(runLines := db.runLines[e.l := db.runLines[e.l].(status := LinePaid)]);
    assert Step(db, e).budgets == SettlePaid(decided, db.runLines[e.l].invoice).budgets;
  }

  lemma SettlingMoves(db: Db, e: Event, b: nat)
    requires ClaimsOk(db.invoices, db.runs, db.runLines) && b < |db.budgets| && e.EvReconcile?
    ensures |Step(db, e).budgets| == |db.budgets|
    ensures WithinLimit(db.budgets[b]) ==> (WithinLimit(Step(db, e).budgets[b]) <==> SettlementFits(db, e, b))
  {
    if Settles(db, e) {
      SettledBudgets(db, e, b);
    } else {
      UnsettledBudgets(db, e);
    }
  }

  /** Exact, per transaction: a budget within its limit stays within it if and only
      if the transaction is not a settlement that takes more than the limit leaves;
      every other transaction keeps it. */
  lemma WithinLimitExactly(db: Db, e: Event, b: nat)
    requires Inv(db) && b < |db.budgets| && WithinLimit(db.budgets[b])
    ensures b < |Step(db, e).budgets|
    ensures WithinLimit(Step(db, e).budgets[b]) <==> SettlementFits(db, e, b)
  {
    if e.EvReconcile? {
      SettlingMoves(db, e, b);
    } else if e.EvIssue? {
      IssuingStaysWithin(db, e, b);
    } else if e.EvDecide? {
      DecidingStaysWithin(db, e, b);
    } else if e.EvAddBudget? {
      AddingKeepsBudget(db, e, b);
    } else {
      OthersKeepBudgets(db, e);
    }
  }

  predicate LimitsKept(db: Db) {
    forall b :: 0 <= b < |db.budgets| ==> WithinLimit(db.budgets[b])
  }

  predicate SettlementsFit(db: Db, e: Event) {
    forall b :: 0 <= b < |db.budgets| ==> SettlementFits(db, e, b)
  }

  lemma IssuingAddsNoBudget(db: Db, e: Event)
    requires e.EvIssue?
    ensures |Step(db, e).budgets| == |db.budgets|
  {
  }

  lemma NewBudgetsAreWithin(db: Db, e: Event, b: nat)
    requires Inv(db) && |db.budgets| <= b < |Step(db, e).budgets|
    ensures WithinLimit(Step(db, e).budgets[b])
  {
    if e.EvDecide? {
      DecidingOnlyReleases(db, e.k, e.verdict, e.actor, e.credentials);
    } else if e.EvReconcile? {
      BudgetsStay(db, e);
    } else if e.EvIssue? {
      IssuingAddsNoBudget(db, e);
    } else if !MovesBudgets(e) {
      OthersKeepBudgets(db, e);
    }
  }

  lemma BudgetsStay(db: Db, e: Event)
    requires ClaimsOk(db.invoices, db.runs, db.runLines) && e.EvReconcile?
    ensures |Step(db, e).budgets| == |db.budgets|
  {
    if |db.budgets| > 0 {
      SettlingMoves(db, e, 0);
    }
  }

  lemma LimitsStep(db: Db, e: Event)
    requires Inv(db) && LimitsKept(db)
    ensures LimitsKept(Step(db, e)) <==> SettlementsFit(db, e)
  {
    forall b | 0 <= b < |db.budgets|
      ensures b < |Step(db, e).budgets| && (WithinLimit(Step(db, e).budgets[b]) <==> SettlementFits(db, e, b))
    {
      WithinLimitExactly(db, e, b);
    }
    forall b | |db.budgets| <= b < |Step(db, e).budgets| ensures WithinLimit(Step(db, e).budgets[b]) {
      NewBudgetsAreWithin(db, e, b);
    }
  }

  /** The settlement that event `k` of the history made, if any, fitted then. */
  predicate SettlementFitted(history: seq<Event>, k: nat)
    requires k < |history|
  {
    SettlementsFit(LedgerSteps.Replay(history[..k]), history[k])
  }

  predicate LimitsKeptAt(history: seq<Event>, k: nat)
    requires k <= |history|
  {
    LimitsKept(LedgerSteps.Replay(history[..k]))
  }

  /** Moment by moment: were all budgets within their limits? */
  function Moments(history: seq<Event>): seq<bool> {
    seq(|history| + 1, k requires 0 <= k <= |history| => LimitsKeptAt(history, k))
  }

  /** Transaction by transaction: did the settlement, if it was one, fit? */
  function Fits(history: seq<Event>): seq<bool> {
    seq(|history|, k requires 0 <= k < |history| => SettlementFitted(history, k))
  }

  lemma SameMoment(history: seq<Event>, n: nat, k: nat)
    requires k <= n <= |history|
    ensures LimitsKeptAt(history[..n], k) == LimitsKeptAt(history, k)
  {
    assert history[..n][..k] == history[..k];
  }

  lemma SameFit(history: seq<Event>, n: nat, k: nat)
    requires k < n <= |history|
    ensures SettlementFitted(history[..n], k) == SettlementFitted(history, k)
  {
    assert history[..n][..k] == history[..k];
  }

  lemma MomentsGrow(history: seq<Event>)
    requires |history| > 0
    ensures var n := |history| - 1;
            Moments(history) == Moments(history[..n]) + [LimitsKeptAt(history, n + 1)]
            && Moments(history[..n])[n] == LimitsKeptAt(history, n)
  {
    var n := |history| - 1;
    forall k | 0 <= k <= n ensures Moments(history)[k] == Moments(history[..n])[k] {
      SameMoment(history, n, k);
    }
  }

  lemma FitsGrow(history: seq<Event>)
    requires |history| > 0
    ensures var n := |history| - 1;
            Fits(history) == Fits(history[..n]) + [SettlementFitted(history, n)]
  {
    var n := |history| - 1;
    forall k | 0 <= k < n ensures Fits(history)[k] == Fits(history[..n])[k] {
      SameFit(history, n, k);
    }
  }

  lemma LastSettlement(history: seq<Event>)
    requires |history| > 0
    ensures var n := |history| - 1;
            LimitsKeptAt(history, n) ==> (LimitsKeptAt(history, n + 1) <==> SettlementFitted(history, n))
  {
    var n := |history| - 1;
    assert history[..n + 1] == history;
    EveryHistoryIsSafe(history[..n]);
    if LimitsKept(LedgerSteps.Replay(history[..n])) {
      LimitsStep(LedgerSteps.Replay(history[..n]), history[n]);
    }
  }

  /** One more transaction, over the recorded answers. */
  lemma OneMoreMoment(moments: seq<bool>, fits: seq<bool>, kept: bool, fit: bool)
    requires |moments| == |fits| + 1 && (All(moments) <==> All(fits))
    requires moments[|fits|] ==> (kept <==> fit)
    ensures All(moments + [kept]) <==> All(fits + [fit])
  {
    AllAppend(moments, kept);
    AllAppend(fits, fit);
  }

  lemma NothingHappened()
    ensures All(Moments([])) && All(Fits([]))
  {
    var none: seq<Event> := [];
    assert none[..0] == none;
  }

  /** Exact, over every history: committed plus spent was within the limit of every
      budget at every moment if and only if every settlement fitted when it was
      made. */
  lemma {:induction false} LimitsHoldExactly(history: seq<Event>)
    ensures All(Moments(history)) <==> All(Fits(history))
  {
    if |history| == 0 {
      NothingHappened();
    } else {
      var n := |history| - 1;
      LimitsHoldExactly(history[..n]);
      MomentsGrow(history);
      FitsGrow(history);
      LastSettlement(history);
      OneMoreMoment(Moments(history[..n]), Fits(history[..n]), LimitsKeptAt(history, n + 1),
          SettlementFitted(history, n));
    }
  }
}

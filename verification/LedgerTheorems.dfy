/** What holds in every database the services can reach, whatever the order of
    the transactions. */
module LedgerTheorems {
  import opened Common
  import opened Sums
  import opened Matching
  import opened LedgerModel
  import opened LedgerSteps
  import opened LedgerSafety

  lemma EmptyIsSafe()
    ensures Inv(EMPTY)
  {
  }

  /** Everything up to and including the purchase order. */
  predicate BuysSomething(e: Event) {
    e.EvAddBudget? || e.EvPutVendor? || e.EvCreateRequisition? || e.EvSubmit? || e.EvRequestQuotes?
    || e.EvReceiveQuote? || e.EvAward? || e.EvIssue? || e.EvConfirm? || e.EvRequestCancellation?
  }

  lemma BuyingIsSafe(db: Db, e: Event)
    requires Inv(db) && BuysSomething(e)
    ensures Inv(Step(db, e))
  {
    match e
    case EvAddBudget(currency, limit) => AddBudgetSafe(db, currency, limit);
    case EvPutVendor(id, v) => PutVendorSafe(db, id, v);
    case EvCreateRequisition(who, cc, b, inputs) => CreateRequisitionSafe(db, who, cc, b, inputs);
    case EvSubmit(id, policy) => SubmitSafe(db, id, policy);
    case EvRequestQuotes(r, vendors) => RequestQuotesSafe(db, r, vendors);
    case EvReceiveQuote(q, total, offered, until, offer) => ReceiveQuoteSafe(db, q, total, offered, until, offer);
    case EvAward(q, now) => AwardSafe(db, q, now);
    case EvIssue(r, v, terms, actor, now) => IssueSafe(db, r, v, terms, actor, now);
    case EvConfirm(p) => ConfirmSafe(db, p);
    case EvRequestCancellation(p, actor) => RequestCancellationSafe(db, p, actor);
  }

  lemma ReceivingIsSafe(db: Db, e: Event)
    requires Inv(db) && e.EvRecordReceipt?
    ensures Inv(Step(db, e))
  {
    RecordReceiptSafe(db, e.p, e.received);
  }

  lemma ReturningIsSafe(db: Db, e: Event)
    requires Inv(db) && e.EvCancelReceipt?
    ensures Inv(Step(db, e))
  {
    CancelReceiptSafe(db, e.r);
  }

  lemma DecidingIsSafe(db: Db, e: Event)
    requires Inv(db) && e.EvDecide?
    ensures Inv(Step(db, e))
  {
    DecideSafe(db, e.k, e.verdict, e.actor, e.credentials);
  }

  lemma RegisteringIsSafe(db: Db, e: Event)
    requires Inv(db) && e.EvRegister?
    ensures Inv(Step(db, e))
  {
    RegisterSafe(db, e.input, e.tax);
  }

  /** Approval, execution and voiding move one open run. */
  predicate MovesRun(e: Event) {
    e.EvApproveRun? || e.EvExecuteRun? || e.EvVoidRun?
  }

  lemma PerformsApproval(db: Db, e: Event)
    requires e.EvApproveRun?
    ensures Perform(db, e) == ApproveRun(db, e.r, e.actor)
  {
  }

  lemma PerformsExecution(db: Db, e: Event)
    requires e.EvExecuteRun?
    ensures Perform(db, e) == ExecuteRun(db, e.r)
  {
  }

  lemma PerformsVoiding(db: Db, e: Event)
    requires e.EvVoidRun?
    ensures Perform(db, e) == VoidRun(db, e.r, e.actor, e.blankReason)
  {
  }

  lemma MovedRun(db: Db, e: Event)
    requires RunsOk(db.invoices, db.runs, db.runLines) && MovesRun(e)
    ensures MovesOneRun(db, e.r, After(db, Perform(db, e)))
  {
    if e.EvApproveRun? {
      PerformsApproval(db, e);
      ApprovalMovesOneRun(db, e.r, e.actor);
    } else if e.EvExecuteRun? {
      PerformsExecution(db, e);
      ExecutionMovesOneRun(db, e.r);
    } else {
      PerformsVoiding(db, e);
      VoidingMovesOneRun(db, e.r, e.actor, e.blankReason);
    }
  }

  lemma MovingRunIsSafe(db: Db, e: Event)
    requires Inv(db) && MovesRun(e)
    ensures Inv(Step(db, e))
  {
    MovedRun(db, e);
    MovedRunIsSafe(db, e.r, Step(db, e));
  }

  lemma PlanningIsSafe(db: Db, e: Event)
    requires Inv(db) && e.EvCreateRun?
    ensures Inv(Step(db, e))
  {
    CreateRunSafe(db, e.ids, e.maker);
  }

  lemma ReconcilingIsSafe(db: Db, e: Event)
    requires Inv(db) && e.EvReconcile?
    ensures Inv(Step(db, e))
  {
    ReconcileSafe(db, e.r, e.l, e.outcome);
  }

  lemma StepIsSafe(db: Db, e: Event)
    requires Inv(db)
    ensures Inv(Step(db, e))
  {
    if BuysSomething(e) {
      BuyingIsSafe(db, e);
    } else if e.EvRecordReceipt? {
      ReceivingIsSafe(db, e);
    } else if e.EvCancelReceipt? {
      ReturningIsSafe(db, e);
    } else if e.EvDecide? {
      DecidingIsSafe(db, e);
    } else if e.EvRegister? {
      RegisteringIsSafe(db, e);
    } else if e.EvCreateRun? {
      PlanningIsSafe(db, e);
    } else if MovesRun(e) {
      MovingRunIsSafe(db, e);
    } else {
      ReconcilingIsSafe(db, e);
    }
  }

  /** Safety over whole histories: every reachable database is consistent. */
  lemma {:induction false} EveryHistoryIsSafe(history: seq<Event>)
    ensures Inv(LedgerSteps.Replay(history))
  {
    if |history| == 0 {
      EmptyIsSafe();
    } else {
      EveryHistoryIsSafe(history[..|history| - 1]);
      StepIsSafe(LedgerSteps.Replay(history[..|history| - 1]), history[|history| - 1]);
    }
  }

  // ----- Orders, receipts and invoices -----

  /** Per order: matched and paid value, received value and order total. */
  lemma OrderBounds(history: seq<Event>, p: nat)
    requires p < |LedgerSteps.Replay(history).pos|
    ensures var db := LedgerSteps.Replay(history);
            var received := ReceivedAt(db.pos, db.receipts, db.receiptLines, p);
            20_000 * AllocatedValue(db.invoices, p) <= 21_001 * received <= 21_001 * db.pos[p].total
            && (forall no :: 1 <= no <= |db.pos[p].lines| ==>
                  QuantityOn(db.receipts, db.receiptLines, p, no) <= db.pos[p].lines[no - 1].quantity)
            && (forall k :: 0 <= k < |db.pos[p].lines| ==> LineOk(db.pos[p].lines[k]))
  {
    EveryHistoryIsSafe(history);
    var db := LedgerSteps.Replay(history);
    ReceivedWithinOrder(db, p);
    assert WithinTolerance(AllocatedValue(db.invoices, p), ReceivedAt(db.pos, db.receipts, db.receiptLines, p));
    assert PoOk(db.reqs, db.pos[p]);
  }

  /** A zero-total order, and an order with nothing received, supports no matched
      or paid invoice; neither does a cancelled one. */
  lemma NothingWithoutGoods(history: seq<Event>, i: nat)
    requires i < |LedgerSteps.Replay(history).invoices|
    ensures var db := LedgerSteps.Replay(history);
            var inv := db.invoices[i];
            inv.status == MatchedStatus || inv.status == Paid ==>
              inv.po.Some? && inv.po.value < |db.pos| && IsLive(db.pos[inv.po.value])
              && 0 < ReceivedAt(db.pos, db.receipts, db.receiptLines, inv.po.value) <= db.pos[inv.po.value].total
  {
    EveryHistoryIsSafe(history);
    var db := LedgerSteps.Replay(history);
    var inv := db.invoices[i];
    assert InvoiceOk(db.pos, inv) && Backed(db.pos, db.receipts, db.receiptLines, inv);
    if inv.status == MatchedStatus || inv.status == Paid {
      ReceivedWithinOrder(db, inv.po.value);
    }
  }

  // ----- Budgets -----

  /** The paid invoices of order `p`. */
  function PaidOn(invoices: seq<Invoice>, p: nat): seq<int> {
    seq(|invoices|, i requires 0 <= i < |invoices| =>
      if invoices[i].status == Paid && invoices[i].po == Some(p) then invoices[i].amount else 0)
  }

  function PaidByOrder(reqs: seq<Requisition>, pos: seq<Po>, invoices: seq<Invoice>, b: nat): seq<int> {
    seq(|pos|, p requires 0 <= p < |pos| =>
      if BudgetOf(reqs, pos[p]) == Some(b) then Sum(PaidOn(invoices, p)) else 0)
  }

  lemma LastPaid(invoices: seq<Invoice>, p: nat)
    requires |invoices| > 0
    ensures var n := |invoices| - 1;
            Sum(PaidOn(invoices, p)) == Sum(PaidOn(invoices[..n], p)) + PaidOn(invoices, p)[n]
  {
    var n := |invoices| - 1;
    assert PaidOn(invoices, p)[..n] == PaidOn(invoices[..n], p);
  }

  /** Summed invoice by invoice or order by order, a budget's payments agree. */
  lemma {:induction false} PaymentsByOrder(reqs: seq<Requisition>, pos: seq<Po>, invoices: seq<Invoice>, b: nat)
    ensures PaidTotal(reqs, pos, invoices, b) == Sum(PaidByOrder(reqs, pos, invoices, b))
  {
    if |invoices| == 0 {
      SumZero(PaidByOrder(reqs, pos, invoices, b));
    } else {
      var n := |invoices| - 1;
      var inv := invoices[n];
      PaymentsByOrder(reqs, pos, invoices[..n], b);
      assert Payments(reqs, pos, invoices, b)[..n] == Payments(reqs, pos, invoices[..n], b);
      var before, after := PaidByOrder(reqs, pos, invoices[..n], b), PaidByOrder(reqs, pos, invoices, b);
      forall p: nat {
        LastPaid(invoices, p);
      }
      if PaidUnder(reqs, pos, inv, b) {
        assert after == before[inv.po.value := before[inv.po.value] + inv.amount];
        SumUpdate(before, inv.po.value, before[inv.po.value] + inv.amount);
      } else {
        assert after == before;
      }
    }
  }

  lemma PaidWithinOrder(db: Db, p: nat)
    requires Inv(db) && p < |db.pos|
    ensures 20_000 * Sum(PaidOn(db.invoices, p))
         <= 21_001 * (if db.pos[p].status == PoCancelled then 0 else db.pos[p].total)
  {
    InvoicesAreWellFormed(db.pos, db.invoices);
    SumAtMost(PaidOn(db.invoices, p), Holdings(db.invoices, p));
    ReceivedWithinOrder(db, p);
    if db.pos[p].status == PoCancelled {
      forall i | 0 <= i < |db.invoices| ensures PaidOn(db.invoices, p)[i] == 0 {
        assert InvoiceOk(db.pos, db.invoices[i]);
      }
      SumZero(PaidOn(db.invoices, p));
    } else {
      assert WithinTolerance(AllocatedValue(db.invoices, p), ReceivedAt(db.pos, db.receipts, db.receiptLines, p));
    }
  }

  lemma SpentWithinOpen(db: Db, b: nat)
    requires Inv(db) && b < |db.budgets|
    ensures 20_000 * db.budgets[b].spent <= 21_001 * OpenTotal(db.reqs, db.pos, b)
  {
    PaymentsByOrder(db.reqs, db.pos, db.invoices, b);
    var paid, open := PaidByOrder(db.reqs, db.pos, db.invoices, b), Commitments(db.reqs, db.pos, b);
    forall p | 0 <= p < |db.pos| ensures 20_000 * paid[p] <= 21_001 * open[p] {
      PaidWithinOrder(db, p);
    }
    SumScaled(paid, open, 20_000, 21_001);
    assert BudgetOk(db.budgets[b], OpenTotal(db.reqs, db.pos, b), PaidTotal(db.reqs, db.pos, db.invoices, b));
  }

  /** Commitment and spending of budget `b`, exactly as far as they can go. */
  predicate WithinBudget(db: Db, b: nat)
    requires b < |db.budgets|
  {
    var open := OpenTotal(db.reqs, db.pos, b);
    Max(0, open - db.budgets[b].spent) <= db.budgets[b].committed <= open <= db.budgets[b].limit
    && db.budgets[b].spent == PaidTotal(db.reqs, db.pos, db.invoices, b)
    && 20_000 * db.budgets[b].spent <= 21_001 * open <= 21_001 * db.budgets[b].limit
  }

  lemma SafeIsWithinBudget(db: Db, b: nat)
    requires Inv(db) && b < |db.budgets|
    ensures WithinBudget(db, b)
  {
    SpentWithinOpen(db, b);
    assert BudgetOk(db.budgets[b], OpenTotal(db.reqs, db.pos, b), PaidTotal(db.reqs, db.pos, db.invoices, b));
  }

  /** The whole-system budget bound, whatever the order of issue, match, pay and
      cancel: spending is exactly what was paid, and both the commitment and the
      spending stay within what the limit and the tolerance allow. */
  lemma BudgetBounds(history: seq<Event>, b: nat)
    requires b < |LedgerSteps.Replay(history).budgets|
    ensures WithinBudget(LedgerSteps.Replay(history), b)
  {
    EveryHistoryIsSafe(history);
    SafeIsWithinBudget(LedgerSteps.Replay(history), b);
  }

  /** Where the clamp bites: settling keeps committed plus spent exactly when the
      invoice fits the commitment; otherwise the sum grows by the difference. */
  lemma SettlementConserves(db: Db, i: nat, b: nat)
    requires Inv(db) && i < |db.invoices| && b < |db.budgets|
    requires var inv := db.invoices[i];
             inv.status == MatchedStatus && BudgetOf(db.reqs, db.pos[inv.po.value]) == Some(b)
    ensures var inv, before, after := db.invoices[i], db.budgets[b], SettlePaid(db, i).budgets[b];
            after.spent == before.spent + inv.amount
            && after.committed + after.spent == before.committed + before.spent + Max(0, inv.amount - before.committed)
            && (after.committed + after.spent == before.committed + before.spent <==> inv.amount <= before.committed)
  {
    assert InvoiceOk(db.pos, db.invoices[i]);
    assert BudgetOk(db.budgets[b], OpenTotal(db.reqs, db.pos, b), PaidTotal(db.reqs, db.pos, db.invoices, b));
  }

  /** Cancellation of an unpaid, unclaimed, unreceived order goes through exactly
      when the budget still has the order's full commitment. */
  lemma CancellationNeedsCommitment(db: Db, p: nat)
    requires Inv(db) && p < |db.pos| && IsLive(db.pos[p])
    requires CorrectionAllowed(db, p) && !HasRecordedReceipt(db.receipts, p)
    ensures PoOk(db.reqs, db.pos[p])
    ensures var b := db.reqs[db.pos[p].requisition].budget.value;
            b < |db.budgets|
            && (CancelOrder(db, p, Some(db.pos[p].requisition)).Done? <==> db.pos[p].total <= db.budgets[b].committed)
            && (db.budgets[b].spent + db.pos[p].total <= OpenTotal(db.reqs, db.pos, b)
                ==> CancelOrder(db, p, Some(db.pos[p].requisition)).Done?)
  {
    assert PoOk(db.reqs, db.pos[p]);
    var b := db.reqs[db.pos[p].requisition].budget.value;
    assert BudgetOk(db.budgets[b], OpenTotal(db.reqs, db.pos, b), PaidTotal(db.reqs, db.pos, db.invoices, b));
  }

  /** No transaction but a decision cancels an order or revives one. */
  lemma OnlyDecisionsCancel(db: Db, e: Event, p: nat)
    requires p < |db.pos|
    ensures p < |Step(db, e).pos|
    ensures db.pos[p].status == PoCancelled ==> Step(db, e).pos[p] == db.pos[p]
    ensures !e.EvDecide? ==> (Step(db, e).pos[p].status == PoCancelled <==> db.pos[p].status == PoCancelled)
  {
    if e.EvDecide? {
      DecisionMovesOneOrder(db, e.k, e.verdict, e.actor, e.credentials);
    }
  }

  lemma DecisionMovesOneOrder(db: Db, k: nat, verdict: Verdict, actor: string, credentials: Credentials)
    ensures var o := Decide(db, k, verdict, actor, credentials);
            o.Done? ==>
              o.db.pos == db.pos
              || exists p :: 0 <= p < |db.pos| && CancelledBy(db, o.db, p)
  {
    var o := Decide(db, k, verdict, actor, credentials);
    if o.Done? && o.db.pos != db.pos {
      assert CancelledBy(db, o.db, db.approvals[k].po.value);
    }
  }

  /** Order `p` was live and is now cancelled, and only its commitment was released. */
  predicate CancelledBy(db: Db, after: Db, p: nat) {
    p < |db.pos| && IsLive(db.pos[p])
    && after.pos == db.pos[p := db.pos[p].(status := PoCancelled)]
    && db.pos[p].requisition < |db.reqs| && db.reqs[db.pos[p].requisition].budget.Some?
    && var b := db.reqs[db.pos[p].requisition].budget.value;
       b < |db.budgets| && db.pos[p].total <= db.budgets[b].committed
       && after.budgets == db.budgets[b := db.budgets[b].(committed := db.budgets[b].committed - db.pos[p].total)]
  }

  /** A cancelled order gave its whole commitment back, once, and took its
      matched invoices with it; it stays cancelled for ever. */
  lemma CancellationReleasesOnce(db: Db, e: Event, p: nat)
    requires Inv(db) && p < |db.pos|
    ensures var after := Step(db, e);
            p < |after.pos|
            && (db.pos[p].status == PoCancelled ==> after.pos[p].status == PoCancelled)
            && (IsLive(db.pos[p]) && after.pos[p].status == PoCancelled ==>
                  CancelledBy(db, after, p)
                  && forall i :: 0 <= i < |after.invoices| ==> !Holds(after.invoices[i], p))
  {
    OnlyDecisionsCancel(db, e, p);
    if IsLive(db.pos[p]) && Step(db, e).pos[p].status == PoCancelled {
      DecisionCancels(db, e, p);
      CancelledStepHoldsNothing(db, e, p);
    }
  }

  lemma TheOneCancelled(db: Db, after: Db, p: nat)
    requires p < |db.pos| && IsLive(db.pos[p]) && p < |after.pos| && !IsLive(after.pos[p])
    requires after.pos == db.pos || exists q :: 0 <= q < |db.pos| && CancelledBy(db, after, q)
    ensures CancelledBy(db, after, p)
  {
    var q :| 0 <= q < |db.pos| && CancelledBy(db, after, q);
    assert q == p;
  }

  lemma DecisionCancels(db: Db, e: Event, p: nat)
    requires e.EvDecide? && p < |db.pos| && IsLive(db.pos[p])
    requires p < |Step(db, e).pos| && !IsLive(Step(db, e).pos[p])
    ensures CancelledBy(db, Step(db, e), p)
  {
    DecisionMovesOneOrder(db, e.k, e.verdict, e.actor, e.credentials);
    TheOneCancelled(db, Step(db, e), p);
  }

  lemma CancelledStepHoldsNothing(db: Db, e: Event, p: nat)
    requires Inv(db) && p < |Step(db, e).pos| && Step(db, e).pos[p].status == PoCancelled
    ensures forall i :: 0 <= i < |Step(db, e).invoices| ==> !Holds(Step(db, e).invoices[i], p)
  {
    StepIsSafe(db, e);
    var after := Step(db, e);
    CancelledHoldsNothing(after, p);
  }

  lemma CancelledHoldsNothing(db: Db, p: nat)
    requires InvoicesOk(db.pos, db.invoices) && p < |db.pos| && db.pos[p].status == PoCancelled
    ensures forall i :: 0 <= i < |db.invoices| ==> !Holds(db.invoices[i], p)
  {
    forall i | 0 <= i < |db.invoices| ensures !Holds(db.invoices[i], p) {
      assert InvoiceOk(db.pos, db.invoices[i]);
    }
  }
}

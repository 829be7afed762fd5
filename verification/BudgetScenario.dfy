/** One history that shows why three tempting statements about budgets are not
    invariants: the settlement clamp and the match tolerance make each false. */
module BudgetScenario {
  import opened Common
  import opened Sums
  import opened Matching
  import opened LedgerModel
  import opened LedgerSteps
  import opened PurchaseScenario
  import LedgerTheorems

  /** The first order is invoiced at 105, within the tolerance, and paid. */
  const PAID: seq<Event> := Paying(105, false) + [EvReconcile(0, 0, BankPaid)]

  const SETTLED: Db := WithRun(105, false, RunExecuted).(
    runs := [RunWith(105, RunReconciled)],
    runLines := [RunLine(0, 0, 105, FROZEN, LinePaid)],
    invoices := [Invoiced(105, false, Paid)],
    budgets := [Budget(PHP, 103, 0, 105)])

  const DECIDED: Db := WithRun(105, false, RunExecuted).(runLines := [RunLine(0, 0, 105, FROZEN, LinePaid)])

  const SPENT: Db := DECIDED.(invoices := [Invoiced(105, false, Paid)], budgets := [Budget(PHP, 103, 0, 105)])

  lemma SpentState()
    ensures SettlePaid(DECIDED, 0) == SPENT
  {
    assert BudgetOf(DECIDED.reqs, Ordered(0, 100)) == Some(0);
  }

  lemma Settled()
    ensures Step(WithRun(105, false, RunExecuted), EvReconcile(0, 0, BankPaid)) == SETTLED
  {
    SpentState();
    assert Reconcile(WithRun(105, false, RunExecuted), 0, 0, BankPaid) == Done(CloseIfDone(SPENT, 0));
    assert CloseIfDone(SPENT, 0) == SETTLED;
  }

  lemma WholeHistory()
    ensures LedgerSteps.Replay(PAID) == SETTLED
  {
    SlightlyMore();
    ExecutedState(105, false);
    Settled();
    Further(Paying(105, false), WithRun(105, false, RunExecuted), EvReconcile(0, 0, BankPaid), SETTLED);
  }

  /** After this history the budget's commitment and spending exceed its limit,
      the payments on the first order exceed its total, and the untouched second
      order can no longer be cancelled. */
  lemma TemptingStatementsFail()
    ensures var db := LedgerSteps.Replay(PAID);
            |db.budgets| == 1 && |db.pos| == 2
            && db.budgets[0].committed + db.budgets[0].spent > db.budgets[0].limit
            && Sum(LedgerTheorems.PaidOn(db.invoices, 0)) > db.pos[0].total
            && CorrectionAllowed(db, 1) && !HasRecordedReceipt(db.receipts, 1)
            && CancelOrder(db, 1, Some(1)) == Refused(Conflict)
  {
    WholeHistory();
    assert LedgerTheorems.PaidOn([Invoiced(105, false, Paid)], 0) == [105];
    SumOne(105);
  }
}

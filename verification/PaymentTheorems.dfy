/** Payments over whole histories: each invoice is paid once, terminal rows never
    move again, and matched invoices stay payable. */
module PaymentTheorems {
  import opened Common
  import opened Sums
  import opened Matching
  import opened LedgerModel
  import opened MatchPasses
  import opened LedgerSteps
  import opened LedgerSafety
  import opened LedgerTheorems

  // ----- No invoice is paid twice -----

  /** Money that left for invoice `v`, line by line. */
  function MoneyOut(runLines: seq<RunLine>, v: nat): seq<int> {
    seq(|runLines|, i requires 0 <= i < |runLines| => if PaysFor(runLines[i], v) then runLines[i].net else 0)
  }

  /** Live claims on invoice `v`. */
  function LiveClaims(runs: seq<Run>, runLines: seq<RunLine>, v: nat): set<nat> {
    set i: nat | i < |runLines| && LiveClaim(runs, runLines[i]) && runLines[i].invoice == v
  }

  /** Over any history, what left for an invoice is its net payable if it is paid
      and nothing otherwise; at most one live claim reserves it, and none once
      it is paid. */
  lemma PaidExactlyOnce(history: seq<Event>, v: nat)
    requires v < |LedgerSteps.Replay(history).invoices|
    ensures var db := LedgerSteps.Replay(history);
            Sum(MoneyOut(db.runLines, v)) == (if db.invoices[v].status == Paid then NetPayable(db.invoices[v]) else 0)
            && |LiveClaims(db.runs, db.runLines, v)| <= (if db.invoices[v].status == MatchedStatus then 1 else 0)
  {
    EveryHistoryIsSafe(history);
    var db := LedgerSteps.Replay(history);
    OnePayment(db.invoices, db.runs, db.runLines, v);
    OneClaim(db.invoices, db.runs, db.runLines, v);
  }

  lemma OnlyEntry(out: seq<int>, i: nat)
    requires i < |out| && forall j :: 0 <= j < |out| && j != i ==> out[j] == 0
    ensures Sum(out) == out[i]
  {
    SumZero(out[i := 0]);
    SumUpdate(out, i, 0);
  }

  lemma OnePayment(invoices: seq<Invoice>, runs: seq<Run>, runLines: seq<RunLine>, v: nat)
    requires ClaimsOk(invoices, runs, runLines) && RunsOk(invoices, runs, runLines) && v < |invoices|
    ensures Sum(MoneyOut(runLines, v)) == (if invoices[v].status == Paid then NetPayable(invoices[v]) else 0)
  {
    var out := MoneyOut(runLines, v);
    if invoices[v].status == Paid {
      var i :| 0 <= i < |runLines| && PaysFor(runLines[i], v);
      assert RunLineOk(invoices, runs, runLines[i]);
      forall j | 0 <= j < |runLines| && j != i ensures !PaysFor(runLines[j], v) {
      }
      OnlyEntry(out, i);
    } else {
      SumZero(out);
    }
  }

  lemma OneClaim(invoices: seq<Invoice>, runs: seq<Run>, runLines: seq<RunLine>, v: nat)
    requires ClaimsOk(invoices, runs, runLines) && v < |invoices|
    ensures |LiveClaims(runs, runLines, v)| <= (if invoices[v].status == MatchedStatus then 1 else 0)
  {
    var claims := LiveClaims(runs, runLines, v);
    if claims != {} {
      var i :| i in claims;
      forall j | j in claims ensures j == i {
        assert LiveClaim(runs, runLines[i]) && LiveClaim(runs, runLines[j]);
      }
      assert claims == {i};
    }
  }

  // ----- Terminal rows never move again -----

  /** Paid invoices and decided payment lines are the same rows afterwards. */
  predicate KeepsTerminalRows(a: Db, b: Db) {
    |a.invoices| <= |b.invoices| && |a.runLines| <= |b.runLines|
    && (forall i :: 0 <= i < |a.invoices| && a.invoices[i].status == Paid ==> b.invoices[i] == a.invoices[i])
    && (forall i :: 0 <= i < |a.runLines| && a.runLines[i].status != Planned ==> b.runLines[i] == a.runLines[i])
  }

  lemma ReceiptKeepsTerminal(db: Db, p: nat, inputs: seq<ReceiptInput>)
    ensures KeepsTerminalRows(db, After(db, RecordReceipt(db, p, inputs)))
  {
    if RecordReceipt(db, p, inputs).Done? {
      var booked := Booked(db, p, BookedLines(p, db.pos[p], inputs, |db.receipts|));
      OpenIdsComplete(db.invoices, p, |db.invoices|);
      RematchedFrame(OrderAt(booked, p), db.invoices, OpenIds(db.invoices, p, |db.invoices|));
    }
  }

  lemma ReevaluationKeepsTerminal(db: Db, p: nat)
    ensures KeepsTerminalRows(db, ReevaluateOn(db, p))
  {
    var ids := MatchedIds(db.invoices, p, |db.invoices|);
    MatchedIdsComplete(db.invoices, p, |db.invoices|);
    ReevaluatedFrame(OrderAt(db, p), db.invoices, ids);
  }

  lemma CancelReceiptKeepsTerminal(db: Db, r: nat)
    ensures KeepsTerminalRows(db, After(db, CancelReceipt(db, r)))
  {
    if CancelReceipt(db, r).Done? {
      var p := db.receipts[r].po;
      ReevaluationKeepsTerminal(db.(receipts := db.receipts[r := Receipt(p, false)]), p);
    }
  }

  lemma CancelOrderKeepsTerminal(db: Db, p: nat, requisition: Option<nat>)
    ensures KeepsTerminalRows(db, After(db, CancelOrder(db, p, requisition)))
  {
    if p < |db.pos| {
      ReevaluationKeepsTerminal(CancelledAt(db, p), p);
    }
  }

  lemma DecideKeepsTerminal(db: Db, k: nat, verdict: Verdict, actor: string, credentials: Credentials)
    ensures KeepsTerminalRows(db, After(db, Decide(db, k, verdict, actor, credentials)))
  {
    if Decide(db, k, verdict, actor, credentials).Done? {
      var a := db.approvals[k];
      var decided := db.(approvals := db.approvals[k := a.(
                           status := DecidedStatus(verdict), decidedBy := Some(Human(actor)))]);
      if a.po.Some? {
        CancelOrderKeepsTerminal(decided, a.po.value, a.requisition);
      }
    }
  }

  lemma ReconcileKeepsTerminal(db: Db, r: nat, l: nat, outcome: BankOutcome)
    ensures KeepsTerminalRows(db, After(db, Reconcile(db, r, l, outcome)))
  {
  }

  /** `paid` is absorbing, and so is every decided payment line. */
  lemma StepKeepsTerminal(db: Db, e: Event)
    ensures KeepsTerminalRows(db, Step(db, e))
  {
    if e.EvRecordReceipt? {
      ReceiptKeepsTerminal(db, e.p, e.received);
    } else if e.EvCancelReceipt? {
      CancelReceiptKeepsTerminal(db, e.r);
    } else if e.EvDecide? {
      DecideKeepsTerminal(db, e.k, e.verdict, e.actor, e.credentials);
    } else if e.EvReconcile? {
      ReconcileKeepsTerminal(db, e.r, e.l, e.outcome);
    }
  }

  lemma TerminalRowsStay(a: Db, b: Db, c: Db)
    requires KeepsTerminalRows(a, b) && KeepsTerminalRows(b, c)
    ensures KeepsTerminalRows(a, c)
  {
  }

  lemma {:induction false} PaidForEver(history: seq<Event>, more: seq<Event>)
    ensures KeepsTerminalRows(LedgerSteps.Replay(history), LedgerSteps.Replay(history + more))
  {
    if |more| == 0 {
      assert history + more == history;
    } else {
      var n := |more| - 1;
      var before := LedgerSteps.Replay(history + more[..n]);
      PaidForEver(history, more[..n]);
      assert (history + more)[..|history + more| - 1] == history + more[..n];
      StepKeepsTerminal(before, more[n]);
      TerminalRowsStay(LedgerSteps.Replay(history), before, Step(before, more[n]));
    }
  }

  /** The eligibility check on matched invoices never refuses in a reachable state,
      and settling one always finds its order and its budget: a matched invoice
      keeps a live order with a budget. */
  lemma MatchedStaysPayable(history: seq<Event>, i: nat)
    requires i < |LedgerSteps.Replay(history).invoices|
    ensures var db := LedgerSteps.Replay(history);
            var inv := db.invoices[i];
            inv.status == MatchedStatus ==>
              OrderIsLive(db, inv) && inv.po.Some?
              && BudgetOf(db.reqs, db.pos[inv.po.value]).Some?
              && BudgetOf(db.reqs, db.pos[inv.po.value]).value < |db.budgets|
  {
    EveryHistoryIsSafe(history);
    var db := LedgerSteps.Replay(history);
    var inv := db.invoices[i];
    assert InvoiceOk(db.pos, inv);
    if inv.status == MatchedStatus {
      assert PoOk(db.reqs, db.pos[inv.po.value]);
    }
  }
}

/** Every transaction keeps the ledger invariant, one lemma per transaction. */
module LedgerSafety {
  import opened Common
  import opened Sums
  import opened Matching
  import opened LedgerModel
  import opened MatchPasses
  import opened LedgerSteps
  import Batch
  import PolicyEngine
  import Tax

  // ----- Tables that other tables refer to -----

  /** Requisitions keep their budget and lines; only the status ever moves. */
  predicate SameReqs(a: seq<Requisition>, b: seq<Requisition>) {
    |a| == |b|
    && forall i :: 0 <= i < |a| ==>
         a[i].budget == b[i].budget && a[i].lines == b[i].lines && a[i].currency == b[i].currency
  }

  lemma ReqStatusFrame(db: Db, reqs: seq<Requisition>)
    requires Inv(db) && SameReqs(reqs, db.reqs)
    ensures Inv(db.(reqs := reqs))
  {
    SameBudgetsSameTotals(db.budgets, db.reqs, reqs, db.pos, db.invoices);
  }

  lemma SameBudgetsSameTotals(budgets: seq<Budget>, reqs: seq<Requisition>, reqs': seq<Requisition>,
                              pos: seq<Po>, invoices: seq<Invoice>)
    requires forall i :: 0 <= i < |pos| ==> BudgetOf(reqs', pos[i]) == BudgetOf(reqs, pos[i])
    requires BudgetsOk(budgets, reqs, pos, invoices)
    ensures BudgetsOk(budgets, reqs', pos, invoices)
  {
    forall b | 0 <= b < |budgets|
      ensures OpenTotal(reqs', pos, b) == OpenTotal(reqs, pos, b)
      ensures PaidTotal(reqs', pos, invoices, b) == PaidTotal(reqs, pos, invoices, b)
    {
      assert Commitments(reqs', pos, b) == Commitments(reqs, pos, b);
      assert Payments(reqs', pos, invoices, b) == Payments(reqs, pos, invoices, b);
    }
  }

  /** No order is under a budget that does not exist yet. */
  lemma UnusedBudget(budgets: seq<Budget>, reqs: seq<Requisition>, pos: seq<Po>, invoices: seq<Invoice>)
    requires ReqsOk(budgets, reqs)
    ensures OpenTotal(reqs, pos, |budgets|) == 0 == PaidTotal(reqs, pos, invoices, |budgets|)
  {
    assert forall i :: 0 <= i < |pos| ==> BudgetOf(reqs, pos[i]) != Some(|budgets|);
    SumZero(Commitments(reqs, pos, |budgets|));
    SumZero(Payments(reqs, pos, invoices, |budgets|));
  }

  lemma AddBudgetSafe(db: Db, currency: string, limit: int)
    requires Inv(db)
    ensures Inv(After(db, AddBudget(db, currency, limit)))
  {
    UnusedBudget(db.budgets, db.reqs, db.pos, db.invoices);
  }

  lemma PutVendorSafe(db: Db, id: nat, v: Vendor)
    requires Inv(db)
    ensures Inv(After(db, PutVendor(db, id, v)))
  {
  }

  lemma CreateRequisitionSafe(db: Db, requester: string, costCenter: string, budget: Option<nat>,
                              inputs: seq<LineInput>)
    requires Inv(db)
    ensures Inv(After(db, CreateRequisition(db, requester, costCenter, budget, inputs)))
  {
    var o := CreateRequisition(db, requester, costCenter, budget, inputs);
    if o.Done? {
      PricedLinesOk(inputs);
      AppendRequisition(db, o.db.reqs[|db.reqs|]);
    }
  }

  lemma PricedLinesOk(inputs: seq<LineInput>)
    requires forall i :: 0 <= i < |inputs| ==> LineInputOk(inputs[i])
    ensures LinesOk(PricedLines(inputs))
  {
    assert forall i :: 0 <= i < |inputs| ==> LineInputOk(inputs[i]) && LineOk(PricedLines(inputs)[i]);
  }

  lemma AppendRequisition(db: Db, r: Requisition)
    requires Inv(db) && LinesOk(r.lines)
    requires r.budget.Some? ==> r.budget.value < |db.budgets| && db.budgets[r.budget.value].currency == r.currency
    ensures Inv(db.(reqs := db.reqs + [r]))
  {
    SameBudgetsSameTotals(db.budgets, db.reqs, db.reqs + [r], db.pos, db.invoices);
  }

  /** New pending or system-decided gates never unseat a recorded cancellation. */
  lemma AppendApproval(db: Db, a: Approval)
    requires Inv(db) && ApprovalOk(a)
    ensures Inv(db.(approvals := db.approvals + [a]))
  {
    forall p | 0 <= p < |db.pos| && !IsLive(db.pos[p]) ensures CancellationDecided(db.approvals + [a], p) {
      var k :| 0 <= k < |db.approvals| && Cancels(db.approvals[k], p);
      assert Cancels((db.approvals + [a])[k], p);
    }
  }

  lemma SubmitSafe(db: Db, id: nat, policy: Option<PolicyEngine.ThresholdPolicy>)
    requires Inv(db)
    ensures Inv(After(db, SubmitRequisition(db, id, policy)))
  {
    var o := SubmitRequisition(db, id, policy);
    if o.Done? {
      ReqStatusFrame(db, o.db.reqs);
      AppendApproval(db.(reqs := o.db.reqs), o.db.approvals[|db.approvals|]);
    }
  }

  // ----- Sourcing -----

  lemma {:induction false} WithRequestedOk(quotes: seq<Quote>, r: nat, vendors: seq<nat>, currency: string)
    requires QuotesOk(quotes)
    ensures QuotesOk(WithRequested(quotes, r, vendors, currency))
    decreases |vendors|
  {
    if |vendors| > 0 {
      var v := vendors[0];
      if HasQuote(quotes, r, v) {
        WithRequestedOk(quotes, r, vendors[1..], currency);
      } else {
        var more := quotes + [Quote(r, v, QuoteRequested, currency, None, None, [])];
        assert QuotesOk(more);
        WithRequestedOk(more, r, vendors[1..], currency);
      }
    }
  }

  lemma QuotesFrame(db: Db, quotes: seq<Quote>)
    requires Inv(db) && QuotesOk(quotes)
    ensures Inv(db.(quotes := quotes))
  {
  }

  lemma RequestQuotesSafe(db: Db, r: nat, vendors: seq<nat>)
    requires Inv(db)
    ensures Inv(After(db, RequestQuotes(db, r, vendors)))
  {
    var o := RequestQuotes(db, r, vendors);
    if o.Done? {
      WithRequestedOk(db.quotes, r, vendors, db.reqs[r].currency);
      QuotesFrame(db, o.db.quotes);
    }
  }

  lemma ReceiveQuoteSafe(db: Db, q: nat, total: int, offered: Option<string>, until: Option<int>,
                         offer: Option<seq<OfferLine>>)
    requires Inv(db)
    ensures Inv(After(db, ReceiveQuote(db, q, total, offered, until, offer)))
  {
    var o := ReceiveQuote(db, q, total, offered, until, offer);
    if o.Done? {
      QuotesFrame(db, o.db.quotes);
    }
  }

  lemma AwardedQuotesOk(quotes: seq<Quote>, q: nat)
    requires QuotesOk(quotes) && q < |quotes| && quotes[q].total.Some?
    requires !AcceptedExists(quotes, quotes[q].requisition)
    ensures QuotesOk(Awarded(quotes, q))
  {
  }

  lemma AwardSafe(db: Db, q: nat, now: int)
    requires Inv(db)
    ensures Inv(After(db, AwardQuote(db, q, now)))
  {
    var o := AwardQuote(db, q, now);
    if o.Done? {
      AwardedQuotesOk(db.quotes, q);
      QuotesFrame(db, o.db.quotes);
    }
  }

  // ----- Purchase orders -----

  lemma AwardedLinesOk(q: Quote)
    ensures var o := LinesFromAwardedQuote(q);
            o.GoodLines? ==> LinesOk(o.lines) && q.total == Some(Sum(LineTotals(o.lines))) && q.total.value > 0
  {
    if LinesFromAwardedQuote(q).GoodLines? {
      if |q.lines| == 0 {
        var l := Line(1, q.total.value, q.total.value);
        SumAppend([], l.lineTotal);
        assert LineTotals([l]) == [] + [l.lineTotal];
      } else {
        forall i | 0 <= i < |q.lines| ensures OfferLineOk(q.lines[i]) && LineOk(OrderLineOf(q.lines[i])) {
        }
      }
    }
  }

  /** What the commit needs of a new order row. */
  predicate NewOrderOk(db: Db, po: Po) {
    PoOk(db.reqs, po) && po.status == PoIssued
    && !OrderedAlready(db.pos, po.requisition)
    && (po.quote.Some? ==> !QuoteUsed(db.pos, po.quote.value))
  }

  lemma NothingReceivedYet(pos: seq<Po>, receipts: seq<Receipt>, rls: seq<ReceiptLine>, po: Po)
    requires ReceiptsOk(pos, receipts, rls)
    ensures forall no :: QuantityOn(receipts, rls, |pos|, no) == 0
    ensures ReceivedValue(po.lines, receipts, rls, |pos|) == 0
  {
    forall no ensures QuantityOn(receipts, rls, |pos|, no) == 0 {
      SumZero(Quantities(receipts, rls, |pos|, no));
    }
    SumZero(ReceivedValues(po.lines, receipts, rls, |pos|));
  }

  lemma NothingHeldYet(pos: seq<Po>, invoices: seq<Invoice>)
    requires InvoicesOk(pos, invoices)
    ensures AllocatedValue(invoices, |pos|) == 0
  {
    forall i | 0 <= i < |invoices| ensures !Holds(invoices[i], |pos|) {
      assert InvoiceOk(pos, invoices[i]);
    }
    SumZero(Holdings(invoices, |pos|));
  }

  lemma StillBacked(pos: seq<Po>, receipts: seq<Receipt>, rls: seq<ReceiptLine>, invoices: seq<Invoice>, po: Po)
    requires InvoicesOk(pos, invoices) && BackedOk(pos, receipts, rls, invoices)
    ensures BackedOk(pos + [po], receipts, rls, invoices)
  {
    forall i | 0 <= i < |invoices| ensures Backed(pos + [po], receipts, rls, invoices[i]) {
      assert InvoiceOk(pos, invoices[i]) && Backed(pos, receipts, rls, invoices[i]);
    }
  }

  lemma AppendOrderReceipts(db: Db, po: Po)
    requires Inv(db) && NewOrderOk(db, po)
    ensures ReceiptsOk(db.pos + [po], db.receipts, db.receiptLines)
    ensures AllocationOk(db.pos + [po], db.receipts, db.receiptLines, db.invoices)
    ensures BackedOk(db.pos + [po], db.receipts, db.receiptLines, db.invoices)
  {
    NothingReceivedYet(db.pos, db.receipts, db.receiptLines, po);
    NothingHeldYet(db.pos, db.invoices);
    StillBacked(db.pos, db.receipts, db.receiptLines, db.invoices, po);
  }

  lemma AppendOrderExclusive(db: Db, po: Po)
    requires Inv(db) && NewOrderOk(db, po)
    ensures PosOk(db.reqs, db.pos + [po]) && ExclusiveOrders(db.pos + [po])
    ensures InvoicesOk(db.pos + [po], db.invoices) && ApprovalsOk(db.pos + [po], db.approvals)
  {
  }

  lemma AppendOrderTotals(reqs: seq<Requisition>, pos: seq<Po>, invoices: seq<Invoice>, po: Po, c: nat)
    requires InvoicesOk(pos, invoices) && po.status == PoIssued
    ensures PaidTotal(reqs, pos + [po], invoices, c) == PaidTotal(reqs, pos, invoices, c)
    ensures OpenTotal(reqs, pos + [po], c)
         == OpenTotal(reqs, pos, c) + (if BudgetOf(reqs, po) == Some(c) then po.total else 0)
  {
    var more := if BudgetOf(reqs, po) == Some(c) then po.total else 0;
    forall i | 0 <= i < |invoices|
      ensures PaidUnder(reqs, pos + [po], invoices[i], c) == PaidUnder(reqs, pos, invoices[i], c)
    {
      assert InvoiceOk(pos, invoices[i]);
    }
    assert Payments(reqs, pos + [po], invoices, c) == Payments(reqs, pos, invoices, c);
    SumAppend(Commitments(reqs, pos, c), more);
    assert Commitments(reqs, pos + [po], c) == Commitments(reqs, pos, c) + [more];
  }

  lemma AppendOrderBudgets(db: Db, po: Po, b: nat)
    requires BudgetsOk(db.budgets, db.reqs, db.pos, db.invoices) && InvoicesOk(db.pos, db.invoices)
    requires po.status == PoIssued && b < |db.budgets| && BudgetOf(db.reqs, po) == Some(b)
    requires 0 <= po.total && db.budgets[b].committed + db.budgets[b].spent + po.total <= db.budgets[b].limit
    ensures BudgetsOk(db.budgets[b := db.budgets[b].(committed := db.budgets[b].committed + po.total)],
                      db.reqs, db.pos + [po], db.invoices)
  {
    var budgets := db.budgets[b := db.budgets[b].(committed := db.budgets[b].committed + po.total)];
    forall c | 0 <= c < |budgets|
      ensures BudgetOk(budgets[c], OpenTotal(db.reqs, db.pos + [po], c),
                       PaidTotal(db.reqs, db.pos + [po], db.invoices, c))
    {
      assert BudgetOk(db.budgets[c], OpenTotal(db.reqs, db.pos, c), PaidTotal(db.reqs, db.pos, db.invoices, c));
      AppendOrderTotals(db.reqs, db.pos, db.invoices, po, c);
    }
  }

  /** What a commit that goes through does. */
  lemma CommittedOutcome(db: Db, r: nat, v: nat, awarded: Option<nat>, terms: Terms)
    requires ReqsOk(db.budgets, db.reqs) && r < |db.reqs| && db.reqs[r].budget.Some?
    requires awarded.Some? ==> awarded.value < |db.quotes|
    requires !OrderedAlready(db.pos, r) && CommitOrder(db, r, v, awarded, terms).Done?
    ensures var after, b := CommitOrder(db, r, v, awarded, terms).db, db.reqs[r].budget.value;
            |after.pos| == |db.pos| + 1 && NewOrderOk(db, after.pos[|db.pos|])
            && FitsUnder(db, after.pos[|db.pos|], b)
            && after == WithOrder(db, after.pos[|db.pos|], b)
  {
    if awarded.Some? {
      AwardedLinesOk(db.quotes[awarded.value]);
    }
  }

  predicate FitsUnder(db: Db, po: Po, b: nat) {
    b < |db.budgets| && BudgetOf(db.reqs, po) == Some(b) && 0 <= po.total
    && db.budgets[b].committed + db.budgets[b].spent + po.total <= db.budgets[b].limit
  }

  function WithOrder(db: Db, po: Po, b: nat): Db
    requires b < |db.budgets|
  {
    db.(pos := db.pos + [po],
        budgets := db.budgets[b := db.budgets[b].(committed := db.budgets[b].committed + po.total)])
  }

  lemma NewOrderSafe(db: Db, po: Po, b: nat)
    requires Inv(db) && NewOrderOk(db, po) && FitsUnder(db, po, b)
    ensures Inv(WithOrder(db, po, b))
  {
    AppendOrderReceipts(db, po);
    AppendOrderExclusive(db, po);
    AppendOrderBudgets(db, po, b);
  }

  lemma CommitOrderSafe(db: Db, r: nat, v: nat, awarded: Option<nat>, terms: Terms)
    requires Inv(db) && r < |db.reqs| && db.reqs[r].budget.Some?
    requires awarded.Some? ==> awarded.value < |db.quotes|
    requires !OrderedAlready(db.pos, r)
    ensures Inv(After(db, CommitOrder(db, r, v, awarded, terms)))
  {
    var o := CommitOrder(db, r, v, awarded, terms);
    if o.Done? {
      CommittedOutcome(db, r, v, awarded, terms);
      NewOrderSafe(db, o.db.pos[|db.pos|], db.reqs[r].budget.value);
    }
  }

  lemma IssueSafe(db: Db, r: nat, v: nat, terms: Terms, actor: string, now: int)
    requires Inv(db)
    ensures Inv(After(db, IssuePo(db, r, v, terms, actor, now)))
  {
    var o := IssuePo(db, r, v, terms, actor, now);
    if o.Done? {
      var accepted := AcceptedOf(db.quotes, r, |db.quotes|);
      var awarded: Option<nat> := if |accepted| > 0 then Some(accepted[0]) else None;
      match PolicyEngine.EvaluateVendorGate(db.vendors[v].status)
      case Block =>
      case NeedApproval =>
        AppendApproval(db, Approval(PolicyEngine.VendorGate, Some(r), None, Some(v), Pending, actor, None,
                                    [PROCUREMENT]));
      case Pass =>
        CommitOrderSafe(db, r, v, awarded, terms);
    }
  }

  lemma ConfirmTables(db: Db, p: nat)
    requires Inv(db) && p < |db.pos| && db.pos[p].status == PoIssued
    ensures var pos := db.pos[p := db.pos[p].(status := PoConfirmed)];
            PosOk(db.reqs, pos) && ExclusiveOrders(pos) && ReceiptsOk(pos, db.receipts, db.receiptLines)
            && InvoicesOk(pos, db.invoices) && AllocationOk(pos, db.receipts, db.receiptLines, db.invoices)
            && BackedOk(pos, db.receipts, db.receiptLines, db.invoices) && ApprovalsOk(pos, db.approvals)
  {
    var pos := db.pos[p := db.pos[p].(status := PoConfirmed)];
    SameOrderLines(db, pos);
    assert forall i :: 0 <= i < |db.invoices| ==> InvoiceOk(db.pos, db.invoices[i]) && InvoiceOk(pos, db.invoices[i]);
  }

  /** What was received does not depend on the status of the orders. */
  lemma SameOrderLines(db: Db, pos: seq<Po>)
    requires |pos| == |db.pos| && forall q :: 0 <= q < |pos| ==> pos[q].lines == db.pos[q].lines
    ensures forall q: nat ::
              ReceivedAt(pos, db.receipts, db.receiptLines, q) == ReceivedAt(db.pos, db.receipts, db.receiptLines, q)
    ensures BackedOk(db.pos, db.receipts, db.receiptLines, db.invoices)
            ==> BackedOk(pos, db.receipts, db.receiptLines, db.invoices)
  {
    if BackedOk(db.pos, db.receipts, db.receiptLines, db.invoices) {
      forall i | 0 <= i < |db.invoices| ensures Backed(pos, db.receipts, db.receiptLines, db.invoices[i]) {
        assert Backed(db.pos, db.receipts, db.receiptLines, db.invoices[i]);
      }
    }
  }

  lemma ConfirmedTotals(reqs: seq<Requisition>, pos: seq<Po>, invoices: seq<Invoice>, p: nat, b: nat)
    requires p < |pos| && IsLive(pos[p])
    ensures OpenTotal(reqs, pos[p := pos[p].(status := PoConfirmed)], b) == OpenTotal(reqs, pos, b)
    ensures PaidTotal(reqs, pos[p := pos[p].(status := PoConfirmed)], invoices, b) == PaidTotal(reqs, pos, invoices, b)
  {
    var confirmed := pos[p := pos[p].(status := PoConfirmed)];
    assert Commitments(reqs, confirmed, b) == Commitments(reqs, pos, b);
    assert Payments(reqs, confirmed, invoices, b) == Payments(reqs, pos, invoices, b);
  }

  lemma ConfirmSafe(db: Db, p: nat)
    requires Inv(db)
    ensures Inv(After(db, ConfirmPo(db, p)))
  {
    if ConfirmPo(db, p).Done? {
      forall b | 0 <= b < |db.budgets| {
        ConfirmedTotals(db.reqs, db.pos, db.invoices, p, b);
      }
      ConfirmTables(db, p);
    }
  }

  lemma RequestCancellationSafe(db: Db, p: nat, actor: string)
    requires Inv(db)
    ensures Inv(After(db, RequestCancellation(db, p, actor)))
  {
    var o := RequestCancellation(db, p, actor);
    if o.Done? && o.db != db {
      AppendApproval(db, o.db.approvals[|db.approvals|]);
    }
  }

  // ----- What a matching pass over one order can change -----

  /** Only unpaid invoices of order `p` move, none becomes paid, and nothing but
      status and match result changes. */
  predicate PassOf(a: seq<Invoice>, b: seq<Invoice>, p: nat) {
    SameCores(b, a)
    && forall i :: 0 <= i < |a| ==>
         b[i] == a[i] || (a[i].po == Some(p) && a[i].status != Paid && b[i].status != Paid)
  }

  lemma PassKeepsOthers(a: seq<Invoice>, b: seq<Invoice>, p: nat, q: nat)
    requires PassOf(a, b, p) && q != p
    ensures AllocatedValue(b, q) == AllocatedValue(a, q)
  {
    forall i | 0 <= i < |a| ensures Holds(b[i], q) == Holds(a[i], q) && b[i].amount == a[i].amount {
      assert Core(a[i]) == Core(b[i]);
    }
    assert Holdings(b, q) == Holdings(a, q);
  }

  lemma PassKeepsPayments(budgets: seq<Budget>, reqs: seq<Requisition>, pos: seq<Po>,
                          a: seq<Invoice>, b: seq<Invoice>, p: nat, c: nat)
    requires PassOf(a, b, p)
    ensures PaidTotal(reqs, pos, b, c) == PaidTotal(reqs, pos, a, c)
  {
    forall i | 0 <= i < |a|
      ensures PaidUnder(reqs, pos, b[i], c) == PaidUnder(reqs, pos, a[i], c) && b[i].amount == a[i].amount
    {
      assert Core(a[i]) == Core(b[i]);
    }
    assert Payments(reqs, pos, b, c) == Payments(reqs, pos, a, c);
  }

  lemma PassKeepsRuns(a: seq<Invoice>, b: seq<Invoice>, p: nat, runs: seq<Run>, runLines: seq<RunLine>)
    requires PassOf(a, b, p) && RunsOk(a, runs, runLines)
    ensures RunsOk(b, runs, runLines)
  {
    forall i | 0 <= i < |runLines| ensures RunLineOk(b, runs, runLines[i]) {
      var v := runLines[i].invoice;
      assert Core(a[v]) == Core(b[v]);
    }
  }

  lemma PassKeepsClaims(a: seq<Invoice>, b: seq<Invoice>, p: nat, runs: seq<Run>, runLines: seq<RunLine>)
    requires PassOf(a, b, p) && ClaimsOk(a, runs, runLines)
    requires forall i :: 0 <= i < |runLines| && LiveClaim(runs, runLines[i]) ==>
               b[runLines[i].invoice].status == MatchedStatus
    ensures ClaimsOk(b, runs, runLines)
  {
  }

  /** Storing judgements keeps invoices well formed: a match needs a live order. */
  lemma PassKeepsInvoices(pos: seq<Po>, a: seq<Invoice>, b: seq<Invoice>, p: nat)
    requires PassOf(a, b, p)
    requires forall i :: 0 <= i < |a| ==> 0 <= a[i].amount && 0 <= a[i].vat && 0 <= a[i].ewt && 0 <= NetPayable(a[i])
    requires forall i, j :: 0 <= i < j < |a| && a[i].vendor == a[j].vendor ==> a[i].number != a[j].number
    requires forall i :: 0 <= i < |a| && (b[i].status == MatchedStatus || b[i].status == Paid) ==>
               b[i].po.Some? && b[i].po.value < |pos| && IsLive(pos[b[i].po.value])
    ensures InvoicesOk(pos, b)
  {
    forall i | 0 <= i < |b| ensures InvoiceOk(pos, b[i]) {
      assert Core(a[i]) == Core(b[i]);
    }
    forall i, j | 0 <= i < j < |b| && b[i].vendor == b[j].vendor ensures b[i].number != b[j].number {
      assert Core(a[i]) == Core(b[i]) && Core(a[j]) == Core(b[j]);
    }
  }

  lemma {:induction false} RematchedStatuses(o: Order, a: seq<Invoice>, ids: seq<nat>)
    requires Waiting(a, o.id, ids) && Distinct(ids)
    ensures var b := Rematched(o, a, ids);
            PassOf(a, b, o.id)
            && forall i :: 0 <= i < |a| ==>
                 b[i] == a[i] || (b[i].status == MatchedStatus ==>
                     o.facts.Some? && o.facts.value.live && o.received != 0)
    decreases |ids|
  {
    if |ids| > 0 {
      RematchedStatuses(o, Stored(a, ids[0], Judge(o, a, ids[0])), ids[1..]);
    }
  }

  lemma MatchNeedsGoods(facts: Option<PoFacts>, bill: Bill, received: int, reserved: int)
    ensures MatchAgainstPo(facts, bill, received, reserved).outcome == Matched ==>
              facts.Some? && facts.value.live && received != 0
  {
  }

  lemma {:induction false} ReevaluatedStatuses(o: Order, a: seq<Invoice>, ids: seq<nat>)
    requires IdsIn(ids, a) && Distinct(ids)
    requires forall k :: 0 <= k < |ids| ==> IsMatchedOn(a[ids[k]], o.id)
    ensures var b := Reevaluated(o, a, ids);
            PassOf(a, b, o.id)
            && forall k :: 0 <= k < |ids| && b[ids[k]].status == MatchedStatus ==>
                 o.facts.Some? && o.facts.value.live && o.received != 0
    decreases |ids|
  {
    if |ids| > 0 {
      var next := Stored(a, ids[0], JudgeAlone(o, a, ids[0]));
      MatchNeedsGoods(o.facts, BillOf(a[ids[0]]), o.received, AllocatedExcept(a, o.id, ids[0]));
      ReevaluatedStatuses(o, next, ids[1..]);
      ReevaluatedFrame(o, next, ids[1..]);
    }
  }

  // ----- Rematch -----

  lemma OpenInvoicesWait(invoices: seq<Invoice>, p: nat)
    ensures var ids := OpenIds(invoices, p, |invoices|);
            Waiting(invoices, p, ids) && Distinct(ids)
  {
    var ids := OpenIds(invoices, p, |invoices|);
    OpenIdsComplete(invoices, p, |invoices|);
    forall k | 0 <= k < |ids| ensures IsOpen(invoices[ids[k]], p) {
      assert ids[k] in ids;
    }
  }

  lemma RematchOnSafe(db: Db, p: nat)
    requires Inv(db) && p < |db.pos|
    ensures Inv(RematchOn(db, p))
  {
    var o, ids := OrderAt(db, p), OpenIds(db.invoices, p, |db.invoices|);
    OpenInvoicesWait(db.invoices, p);
    InvoicesAreWellFormed(db.pos, db.invoices);
    var after := Rematched(o, db.invoices, ids);
    RematchedStatuses(o, db.invoices, ids);
    RematchKeepsBound(o, db.invoices, ids);
    RematchedFrame(o, db.invoices, ids);
    ReceivedWithinOrder(db, p);
    PassSafe(db, after, p);
  }

  /** A pass that keeps the bound of its order keeps the whole invariant. */
  lemma PassSafe(db: Db, after: seq<Invoice>, p: nat)
    requires Inv(db) && p < |db.pos| && PassOf(db.invoices, after, p)
    requires WithinTolerance(AllocatedValue(after, p), ReceivedAt(db.pos, db.receipts, db.receiptLines, p))
    requires forall i :: 0 <= i < |after| && after[i] != db.invoices[i] ==>
               !Holds(db.invoices[i], p)
               && (after[i].status == MatchedStatus ==>
                     IsLive(db.pos[p]) && 0 < ReceivedAt(db.pos, db.receipts, db.receiptLines, p))
    ensures Inv(db.(invoices := after))
  {
    forall i | 0 <= i < |after| && (after[i].status == MatchedStatus || after[i].status == Paid)
      ensures after[i].po.Some? && after[i].po.value < |db.pos| && IsLive(db.pos[after[i].po.value])
    {
      assert Core(after[i]) == Core(db.invoices[i]) && InvoiceOk(db.pos, db.invoices[i]);
    }
    InvoicesAreWellFormed(db.pos, db.invoices);
    PassKeepsInvoices(db.pos, db.invoices, after, p);
    forall i | 0 <= i < |after| ensures Backed(db.pos, db.receipts, db.receiptLines, after[i]) {
      assert Core(after[i]) == Core(db.invoices[i]) && Backed(db.pos, db.receipts, db.receiptLines, db.invoices[i]);
    }
    PassKeepsRuns(db.invoices, after, p, db.runs, db.runLines);
    ClaimedStayMatched(db, after, p);
    PassKeepsClaims(db.invoices, after, p, db.runs, db.runLines);
    forall q | 0 <= q < |db.pos|
      ensures WithinTolerance(AllocatedValue(after, q), ReceivedAt(db.pos, db.receipts, db.receiptLines, q))
    {
      if q != p {
        PassKeepsOthers(db.invoices, after, p, q);
      }
    }
    forall b | 0 <= b < |db.budgets|
      ensures PaidTotal(db.reqs, db.pos, after, b) == PaidTotal(db.reqs, db.pos, db.invoices, b)
    {
      PassKeepsPayments(db.budgets, db.reqs, db.pos, db.invoices, after, p, b);
    }
  }

  lemma InvoicesAreWellFormed(pos: seq<Po>, invoices: seq<Invoice>)
    requires InvoicesOk(pos, invoices)
    ensures forall i :: 0 <= i < |invoices| ==>
              0 <= invoices[i].amount && 0 <= invoices[i].vat && 0 <= invoices[i].ewt && 0 <= NetPayable(invoices[i])
    ensures AmountsOk(invoices)
  {
    assert forall i :: 0 <= i < |invoices| ==> InvoiceOk(pos, invoices[i]);
  }

  lemma ClaimedStayMatched(db: Db, after: seq<Invoice>, p: nat)
    requires ClaimsOk(db.invoices, db.runs, db.runLines) && PassOf(db.invoices, after, p)
    requires forall i :: 0 <= i < |after| && after[i] != db.invoices[i] ==> !Holds(db.invoices[i], p)
    ensures forall i :: 0 <= i < |db.runLines| && LiveClaim(db.runs, db.runLines[i]) ==>
              after[db.runLines[i].invoice].status == MatchedStatus
  {
  }

  // ----- Recording a receipt -----

  lemma BookedQuantities(receipts: seq<Receipt>, rls: seq<ReceiptLine>, booked: seq<ReceiptLine>, p: nat, q: nat,
                         no: int)
    requires forall i :: 0 <= i < |rls| ==> ReceiptLineOk(receipts, rls[i])
    requires forall i :: 0 <= i < |booked| ==> booked[i].receipt == |receipts|
    ensures QuantityOn(receipts + [Receipt(p, true)], rls + booked, q, no)
         == QuantityOn(receipts, rls, q, no) + (if q == p then Sum(RequestedOn(booked, no)) else 0)
  {
    var more := Quantities(receipts + [Receipt(p, true)], booked, q, no);
    assert Quantities(receipts + [Receipt(p, true)], rls + booked, q, no)
        == Quantities(receipts, rls, q, no) + more by {
      assert forall i :: 0 <= i < |rls| ==>
        CountsFor(receipts + [Receipt(p, true)], rls[i], q) == CountsFor(receipts, rls[i], q);
    }
    SumConcat(Quantities(receipts, rls, q, no), more);
    if q == p {
      assert more == RequestedOn(booked, no);
    } else {
      SumZero(more);
    }
  }

  lemma BookedValue(lines: seq<Line>, receipts: seq<Receipt>, rls: seq<ReceiptLine>, booked: seq<ReceiptLine>,
                    p: nat, q: nat)
    requires LinesOk(lines)
    requires forall i :: 0 <= i < |rls| ==> ReceiptLineOk(receipts, rls[i])
    requires forall i :: 0 <= i < |booked| ==> booked[i].receipt == |receipts| && 0 < booked[i].quantity
    ensures ReceivedValue(lines, receipts, rls, q)
         <= ReceivedValue(lines, receipts + [Receipt(p, true)], rls + booked, q)
  {
    var more := ReceivedValues(lines, receipts + [Receipt(p, true)], booked, q);
    assert ReceivedValues(lines, receipts + [Receipt(p, true)], rls + booked, q)
        == ReceivedValues(lines, receipts, rls, q) + more by {
      assert forall i :: 0 <= i < |rls| ==>
        CountsFor(receipts + [Receipt(p, true)], rls[i], q) == CountsFor(receipts, rls[i], q);
    }
    SumConcat(ReceivedValues(lines, receipts, rls, q), more);
    forall i | 0 <= i < |more| ensures 0 <= more[i] {
      PriceNonnegative(lines, booked[i].lineNo);
      MulKeepsOrder(booked[i].quantity, 0, PriceAt(lines, booked[i].lineNo));
    }
    SumNonnegative(more);
  }

  lemma PriceNonnegative(lines: seq<Line>, no: Option<int>)
    requires LinesOk(lines)
    ensures 0 <= PriceAt(lines, no)
  {
    if no.Some? && 1 <= no.value <= |lines| {
      assert LineOk(lines[no.value - 1]);
    }
  }

  /** What a booked receipt must satisfy: positive quantities that fit the order. */
  predicate BookingOk(db: Db, p: nat, booked: seq<ReceiptLine>) {
    p < |db.pos| && IsLive(db.pos[p]) && FitsOrder(db, p, booked)
    && forall i :: 0 <= i < |booked| ==> booked[i].receipt == |db.receipts| && 0 < booked[i].quantity
  }

  lemma BookedWithinOrder(receipts: seq<Receipt>, rls: seq<ReceiptLine>, booked: seq<ReceiptLine>, p: nat, q: nat,
                          no: int, ordered: int)
    requires forall i :: 0 <= i < |rls| ==> ReceiptLineOk(receipts, rls[i])
    requires forall i :: 0 <= i < |booked| ==> booked[i].receipt == |receipts|
    requires QuantityOn(receipts, rls, q, no) <= ordered
    requires q == p && (exists i :: 0 <= i < |booked| && booked[i].lineNo == Some(no)) ==>
               QuantityOn(receipts, rls, p, no) + Sum(RequestedOn(booked, no)) <= ordered
    ensures QuantityOn(receipts + [Receipt(p, true)], rls + booked, q, no) <= ordered
  {
    BookedQuantities(receipts, rls, booked, p, q, no);
    if forall i :: 0 <= i < |booked| ==> booked[i].lineNo != Some(no) {
      SumZero(RequestedOn(booked, no));
    }
  }

  lemma BookedReceiptsOk(db: Db, p: nat, booked: seq<ReceiptLine>)
    requires ReceiptsOk(db.pos, db.receipts, db.receiptLines) && BookingOk(db, p, booked)
    ensures ReceiptsOk(db.pos, Booked(db, p, booked).receipts, Booked(db, p, booked).receiptLines)
  {
    forall q, no | 0 <= q < |db.pos| && 1 <= no <= |db.pos[q].lines|
      ensures QuantityOn(Booked(db, p, booked).receipts, Booked(db, p, booked).receiptLines, q, no)
           <= db.pos[q].lines[no - 1].quantity
    {
      BookedWithinOrder(db.receipts, db.receiptLines, booked, p, q, no, db.pos[q].lines[no - 1].quantity);
    }
  }

  lemma BookedSafe(db: Db, p: nat, booked: seq<ReceiptLine>)
    requires Inv(db) && BookingOk(db, p, booked)
    ensures Inv(Booked(db, p, booked))
  {
    BookedReceiptsOk(db, p, booked);
    forall q | 0 <= q < |db.pos|
      ensures ReceivedAt(db.pos, db.receipts, db.receiptLines, q)
           <= ReceivedAt(db.pos, Booked(db, p, booked).receipts, Booked(db, p, booked).receiptLines, q)
    {
      assert PoOk(db.reqs, db.pos[q]);
      BookedValue(db.pos[q].lines, db.receipts, db.receiptLines, booked, p, q);
    }
    forall i | 0 <= i < |db.invoices|
      ensures Backed(db.pos, Booked(db, p, booked).receipts, Booked(db, p, booked).receiptLines, db.invoices[i])
    {
      assert InvoiceOk(db.pos, db.invoices[i]) && Backed(db.pos, db.receipts, db.receiptLines, db.invoices[i]);
    }
  }

  lemma RecordReceiptSafe(db: Db, p: nat, inputs: seq<ReceiptInput>)
    requires Inv(db)
    ensures Inv(After(db, RecordReceipt(db, p, inputs)))
  {
    if RecordReceipt(db, p, inputs).Done? {
      var booked := BookedLines(p, db.pos[p], inputs, |db.receipts|);
      forall i | 0 <= i < |booked| ensures 0 < booked[i].quantity {
        assert ResolveLine(p, db.pos[p], inputs[i]).ResolvedTo?;
      }
      BookedSafe(db, p, booked);
      RematchOnSafe(Booked(db, p, booked), p);
    }
  }

  // ----- Received value never exceeds the order -----

  function PricedQuantities(lines: seq<Line>, receipts: seq<Receipt>, rls: seq<ReceiptLine>, p: nat): seq<int> {
    seq(|lines|, k requires 0 <= k < |lines| => lines[k].unitPrice * QuantityOn(receipts, rls, p, k + 1))
  }

  lemma MulDistributes(price: int, a: int, b: int)
    ensures price * (a + b) == price * a + b * price
  {
  }

  /** Receipt by receipt or order line by order line, the value is the same. */
  lemma {:induction false} ReceivedByOrderLine(lines: seq<Line>, receipts: seq<Receipt>, rls: seq<ReceiptLine>, p: nat)
    ensures ReceivedValue(lines, receipts, rls, p) == Sum(PricedQuantities(lines, receipts, rls, p))
  {
    if |rls| == 0 {
      SumZero(PricedQuantities(lines, receipts, rls, p));
    } else {
      var n := |rls| - 1;
      var l := rls[n];
      ReceivedByOrderLine(lines, receipts, rls[..n], p);
      assert ReceivedValues(lines, receipts, rls, p)[..n] == ReceivedValues(lines, receipts, rls[..n], p);
      forall no ensures Quantities(receipts, rls, p, no)[..n] == Quantities(receipts, rls[..n], p, no) {
      }
      var before, after := PricedQuantities(lines, receipts, rls[..n], p), PricedQuantities(lines, receipts, rls, p);
      if CountsFor(receipts, l, p) && l.lineNo.Some? && 1 <= l.lineNo.value <= |lines| {
        var k := l.lineNo.value - 1;
        var price := lines[k].unitPrice;
        assert QuantityOn(receipts, rls, p, k + 1) == QuantityOn(receipts, rls[..n], p, k + 1) + l.quantity;
        MulDistributes(price, QuantityOn(receipts, rls[..n], p, k + 1), l.quantity);
        assert after == before[k := before[k] + l.quantity * price];
        SumUpdate(before, k, before[k] + l.quantity * price);
      } else {
        assert after == before;
      }
    }
  }

  /** Line by line within the ordered quantities is within the value of the lines. */
  lemma PricedWithinLines(lines: seq<Line>, receipts: seq<Receipt>, rls: seq<ReceiptLine>, p: nat)
    requires LinesOk(lines) && forall i :: 0 <= i < |rls| ==> ReceiptLineOk(receipts, rls[i])
    requires forall no :: 1 <= no <= |lines| ==> QuantityOn(receipts, rls, p, no) <= lines[no - 1].quantity
    ensures 0 <= Sum(PricedQuantities(lines, receipts, rls, p)) <= Sum(LineTotals(lines))
  {
    var priced := PricedQuantities(lines, receipts, rls, p);
    forall k | 0 <= k < |lines| ensures 0 <= priced[k] <= LineTotals(lines)[k] {
      assert LineOk(lines[k]);
      var q := QuantityOn(receipts, rls, p, k + 1);
      QuantityNonnegative(receipts, rls, p, k + 1);
      MulKeepsOrder(lines[k].unitPrice, 0, q);
      MulKeepsOrder(lines[k].unitPrice, q, lines[k].quantity);
    }
    SumNonnegative(priced);
    SumAtMost(priced, LineTotals(lines));
  }

  lemma ReceivedWithinOrder(db: Db, p: nat)
    requires Inv(db) && p < |db.pos|
    ensures 0 <= ReceivedAt(db.pos, db.receipts, db.receiptLines, p) <= db.pos[p].total
  {
    assert PoOk(db.reqs, db.pos[p]);
    ReceivedByOrderLine(db.pos[p].lines, db.receipts, db.receiptLines, p);
    PricedWithinLines(db.pos[p].lines, db.receipts, db.receiptLines, p);
  }

  lemma QuantityNonnegative(receipts: seq<Receipt>, rls: seq<ReceiptLine>, p: nat, no: int)
    requires forall i :: 0 <= i < |rls| ==> ReceiptLineOk(receipts, rls[i])
    ensures 0 <= QuantityOn(receipts, rls, p, no)
  {
    SumNonnegative(Quantities(receipts, rls, p, no));
  }

  // ----- Cancelling a receipt -----

  lemma LessReceived(db: Db, r: nat)
    requires Inv(db) && r < |db.receipts| && db.receipts[r].recorded
    ensures var receipts := db.receipts[r := Receipt(db.receipts[r].po, false)];
            ReceiptsOk(db.pos, receipts, db.receiptLines)
            && forall q :: 0 <= q < |db.pos| && q != db.receipts[r].po ==>
                 ReceivedAt(db.pos, receipts, db.receiptLines, q) == ReceivedAt(db.pos, db.receipts, db.receiptLines, q)
  {
    var receipts := db.receipts[r := Receipt(db.receipts[r].po, false)];
    forall q, no | 0 <= q < |db.pos| && 1 <= no <= |db.pos[q].lines|
      ensures QuantityOn(receipts, db.receiptLines, q, no) <= db.pos[q].lines[no - 1].quantity
    {
      SumAtMost(Quantities(receipts, db.receiptLines, q, no), Quantities(db.receipts, db.receiptLines, q, no));
      assert QuantityOn(db.receipts, db.receiptLines, q, no) <= db.pos[q].lines[no - 1].quantity;
    }
    forall q | 0 <= q < |db.pos| && q != db.receipts[r].po
      ensures ReceivedAt(db.pos, receipts, db.receiptLines, q) == ReceivedAt(db.pos, db.receipts, db.receiptLines, q)
    {
      assert ReceivedValues(db.pos[q].lines, receipts, db.receiptLines, q)
          == ReceivedValues(db.pos[q].lines, db.receipts, db.receiptLines, q);
    }
  }

  lemma ReceivedNonnegative(db: Db, receipts: seq<Receipt>, p: nat)
    requires PosOk(db.reqs, db.pos) && p < |db.pos|
    requires forall i :: 0 <= i < |db.receiptLines| ==> ReceiptLineOk(receipts, db.receiptLines[i])
    ensures 0 <= ReceivedAt(db.pos, receipts, db.receiptLines, p)
  {
    assert PoOk(db.reqs, db.pos[p]);
    var values := ReceivedValues(db.pos[p].lines, receipts, db.receiptLines, p);
    forall i | 0 <= i < |values| ensures 0 <= values[i] {
      PriceNonnegative(db.pos[p].lines, db.receiptLines[i].lineNo);
      MulKeepsOrder(db.receiptLines[i].quantity, 0, PriceAt(db.pos[p].lines, db.receiptLines[i].lineNo));
    }
    SumNonnegative(values);
  }

  /** The guard leaves no live claim and no payment on the order's invoices. */
  lemma GuardClearsOrder(db: Db, p: nat)
    requires ClaimsOk(db.invoices, db.runs, db.runLines) && CorrectionAllowed(db, p)
    ensures forall i :: 0 <= i < |db.runLines| && LiveClaim(db.runs, db.runLines[i]) ==>
              db.invoices[db.runLines[i].invoice].po != Some(p)
    ensures forall i :: 0 <= i < |db.invoices| && Holds(db.invoices[i], p) ==> IsMatchedOn(db.invoices[i], p)
  {
    forall i | 0 <= i < |db.runLines| && LiveClaim(db.runs, db.runLines[i])
      ensures db.invoices[db.runLines[i].invoice].po != Some(p)
    {
      if db.invoices[db.runLines[i].invoice].po == Some(p) {
        assert BlocksCorrection(db, db.runLines[i], p);
      }
    }
  }

  /** The facts about a re-evaluation of order `p` that do not depend on why it runs. */
  lemma ReevaluationFacts(db: Db, o: Order)
    requires ClaimsOk(db.invoices, db.runs, db.runLines) && RunsOk(db.invoices, db.runs, db.runLines)
    requires AmountsOk(db.invoices) && 0 <= o.received && CorrectionAllowed(db, o.id)
    ensures var after := Reevaluated(o, db.invoices, MatchedIds(db.invoices, o.id, |db.invoices|));
            PassOf(db.invoices, after, o.id)
            && ClaimsOk(after, db.runs, db.runLines) && RunsOk(after, db.runs, db.runLines)
            && WithinTolerance(AllocatedValue(after, o.id), o.received)
            && (forall i :: 0 <= i < |after| && Holds(after[i], o.id) ==>
                  o.facts.Some? && o.facts.value.live && 0 < o.received)
            && (forall i :: 0 <= i < |after| && db.invoices[i].po != Some(o.id) ==> after[i] == db.invoices[i])
  {
    var p, ids := o.id, MatchedIds(db.invoices, o.id, |db.invoices|);
    MatchedIdsComplete(db.invoices, p, |db.invoices|);
    GuardClearsOrder(db, p);
    forall k | 0 <= k < |ids| ensures IsMatchedOn(db.invoices[ids[k]], p) {
      assert ids[k] in ids;
    }
    var after := Reevaluated(o, db.invoices, ids);
    ReevaluatedStatuses(o, db.invoices, ids);
    ReevaluatedFrame(o, db.invoices, ids);
    ReevaluationRestoresBound(o, db.invoices, ids);
    PassKeepsRuns(db.invoices, after, p, db.runs, db.runLines);
    PassKeepsClaims(db.invoices, after, p, db.runs, db.runLines);
    forall i | 0 <= i < |after| && Holds(after[i], p)
      ensures o.facts.Some? && o.facts.value.live && 0 < o.received
    {
      assert i in ids;
      var k :| 0 <= k < |ids| && ids[k] == i;
    }
  }

  lemma CancelReceiptSafe(db: Db, r: nat)
    requires Inv(db)
    ensures Inv(After(db, CancelReceipt(db, r)))
  {
    if CancelReceipt(db, r).Done? {
      var p := db.receipts[r].po;
      var receipts := db.receipts[r := Receipt(p, false)];
      var o := Order(p, FactsAt(db.pos, p), ReceivedAt(db.pos, receipts, db.receiptLines, p));
      LessReceived(db, r);
      ReceivedNonnegative(db, receipts, p);
      InvoicesAreWellFormed(db.pos, db.invoices);
      ReevaluationFacts(db, o);
      var after := Reevaluated(o, db.invoices, MatchedIds(db.invoices, p, |db.invoices|));
      ReevaluatedInvoicesOk(db.pos, db.invoices, after, p);
      ReevaluatedAllocation(db.pos, db.receipts, receipts, db.receiptLines, db.invoices, after, p);
      ReevaluatedBudgets(db, after, p);
    }
  }

  lemma ReevaluatedInvoicesOk(pos: seq<Po>, a: seq<Invoice>, b: seq<Invoice>, p: nat)
    requires InvoicesOk(pos, a) && PassOf(a, b, p) && p < |pos|
    requires forall i :: 0 <= i < |b| && Holds(b[i], p) ==> IsLive(pos[p])
    requires forall i :: 0 <= i < |b| && a[i].po != Some(p) ==> b[i] == a[i]
    ensures InvoicesOk(pos, b)
  {
    InvoicesAreWellFormed(pos, a);
    forall i | 0 <= i < |b| && (b[i].status == MatchedStatus || b[i].status == Paid)
      ensures b[i].po.Some? && b[i].po.value < |pos| && IsLive(pos[b[i].po.value])
    {
      assert Core(a[i]) == Core(b[i]) && InvoiceOk(pos, a[i]);
      if a[i].po == Some(p) {
        assert Holds(b[i], p);
      }
    }
    PassKeepsInvoices(pos, a, b, p);
  }

  lemma ReevaluatedAllocation(pos: seq<Po>, receipts: seq<Receipt>, receipts': seq<Receipt>, rls: seq<ReceiptLine>,
                              a: seq<Invoice>, b: seq<Invoice>, p: nat)
    requires AllocationOk(pos, receipts, rls, a) && PassOf(a, b, p)
    requires forall q :: 0 <= q < |pos| && q != p ==>
               ReceivedAt(pos, receipts', rls, q) == ReceivedAt(pos, receipts, rls, q)
    requires WithinTolerance(AllocatedValue(b, p), ReceivedAt(pos, receipts', rls, p))
    requires BackedOk(pos, receipts, rls, a) && InvoicesOk(pos, b)
    requires forall i :: 0 <= i < |b| && Holds(b[i], p) ==> 0 < ReceivedAt(pos, receipts', rls, p)
    ensures AllocationOk(pos, receipts', rls, b) && BackedOk(pos, receipts', rls, b)
  {
    forall q | 0 <= q < |pos| ensures WithinTolerance(AllocatedValue(b, q), ReceivedAt(pos, receipts', rls, q)) {
      if q != p {
        PassKeepsOthers(a, b, p, q);
      }
    }
    forall i | 0 <= i < |b| ensures Backed(pos, receipts', rls, b[i]) {
      assert Core(a[i]) == Core(b[i]) && Backed(pos, receipts, rls, a[i]) && InvoiceOk(pos, b[i]);
    }
  }

  lemma ReevaluatedBudgets(db: Db, after: seq<Invoice>, p: nat)
    requires BudgetsOk(db.budgets, db.reqs, db.pos, db.invoices) && PassOf(db.invoices, after, p)
    ensures BudgetsOk(db.budgets, db.reqs, db.pos, after)
  {
    forall b | 0 <= b < |db.budgets|
      ensures PaidTotal(db.reqs, db.pos, after, b) == PaidTotal(db.reqs, db.pos, db.invoices, b)
    {
      PassKeepsPayments(db.budgets, db.reqs, db.pos, db.invoices, after, p, b);
    }
  }

  // ----- Cancelling an order -----

  /** An order with no recorded receipt has received nothing. */
  lemma NothingReceived(db: Db, p: nat)
    requires p < |db.pos| && !HasRecordedReceipt(db.receipts, p)
    ensures ReceivedAt(db.pos, db.receipts, db.receiptLines, p) == 0
  {
    SumZero(ReceivedValues(db.pos[p].lines, db.receipts, db.receiptLines, p));
  }

  /** Cancelling takes the order out of the budget's open total and changes no payment. */
  lemma CancelledTotals(db: Db, p: nat, b: nat)
    requires p < |db.pos| && IsLive(db.pos[p])
    ensures var pos := db.pos[p := db.pos[p].(status := PoCancelled)];
            OpenTotal(db.reqs, pos, b)
            == OpenTotal(db.reqs, db.pos, b) - (if BudgetOf(db.reqs, db.pos[p]) == Some(b) then db.pos[p].total else 0)
            && PaidTotal(db.reqs, pos, db.invoices, b) == PaidTotal(db.reqs, db.pos, db.invoices, b)
  {
    var pos := db.pos[p := db.pos[p].(status := PoCancelled)];
    SumUpdate(Commitments(db.reqs, db.pos, b), p, 0);
    assert Commitments(db.reqs, pos, b) == Commitments(db.reqs, db.pos, b)[p := 0];
    assert Payments(db.reqs, pos, db.invoices, b) == Payments(db.reqs, db.pos, db.invoices, b);
  }

  /** `db` with the decision already recorded. */
  predicate Decided(db: Db, p: nat) {
    p < |db.pos| && CancellationDecided(db.approvals, p)
  }

  lemma CancelledTables(db: Db, p: nat)
    requires Inv(db) && Decided(db, p) && IsLive(db.pos[p]) && !HasRecordedReceipt(db.receipts, p)
    ensures var pos := db.pos[p := db.pos[p].(status := PoCancelled)];
            PosOk(db.reqs, pos) && ExclusiveOrders(pos) && ApprovalsOk(pos, db.approvals)
            && ReceiptsOk(pos, db.receipts, db.receiptLines)
            && AllocationOk(pos, db.receipts, db.receiptLines, db.invoices)
            && BackedOk(pos, db.receipts, db.receiptLines, db.invoices)
  {
    SameOrderLines(db, db.pos[p := db.pos[p].(status := PoCancelled)]);
  }

  lemma CancelledInvoices(db: Db, p: nat, after: seq<Invoice>)
    requires Inv(db) && p < |db.pos| && PassOf(db.invoices, after, p)
    requires forall i :: 0 <= i < |after| ==> !Holds(after[i], p)
    requires forall i :: 0 <= i < |after| && db.invoices[i].po != Some(p) ==> after[i] == db.invoices[i]
    ensures InvoicesOk(db.pos[p := db.pos[p].(status := PoCancelled)], after)
  {
    var pos := db.pos[p := db.pos[p].(status := PoCancelled)];
    InvoicesAreWellFormed(db.pos, db.invoices);
    forall i | 0 <= i < |after| && (after[i].status == MatchedStatus || after[i].status == Paid)
      ensures after[i].po.Some? && after[i].po.value < |pos| && IsLive(pos[after[i].po.value])
    {
      assert Core(db.invoices[i]) == Core(after[i]) && InvoiceOk(db.pos, db.invoices[i]);
      assert !Holds(after[i], p);
    }
    PassKeepsInvoices(pos, db.invoices, after, p);
  }

  lemma CancelledBudgets(db: Db, p: nat, after: seq<Invoice>, b: nat)
    requires Inv(db) && p < |db.pos| && IsLive(db.pos[p]) && PassOf(db.invoices, after, p)
    requires b < |db.budgets| && BudgetOf(db.reqs, db.pos[p]) == Some(b)
             && 0 <= db.pos[p].total <= db.budgets[b].committed
    ensures BudgetsOk(db.budgets[b := db.budgets[b].(committed := db.budgets[b].committed - db.pos[p].total)],
                      db.reqs, db.pos[p := db.pos[p].(status := PoCancelled)], after)
  {
    var pos := db.pos[p := db.pos[p].(status := PoCancelled)];
    forall c | 0 <= c < |db.budgets|
      ensures OpenTotal(db.reqs, pos, c) == OpenTotal(db.reqs, db.pos, c) - (if c == b then db.pos[p].total else 0)
      ensures PaidTotal(db.reqs, pos, after, c) == PaidTotal(db.reqs, db.pos, db.invoices, c)
    {
      CancelledTotals(db, p, c);
      PassKeepsPayments(db.budgets, db.reqs, pos, db.invoices, after, p, c);
    }
  }

  function CancelledAt(db: Db, p: nat): Db
    requires p < |db.pos|
  {
    db.(pos := db.pos[p := db.pos[p].(status := PoCancelled)])
  }

  /** Re-judging against the cancelled order: nothing of it stays matched. */
  lemma CancelledPass(db: Db, p: nat)
    requires Inv(db) && p < |db.pos| && !HasRecordedReceipt(db.receipts, p) && CorrectionAllowed(db, p)
    ensures var after := ReevaluateOn(CancelledAt(db, p), p).invoices;
            PassOf(db.invoices, after, p)
            && ClaimsOk(after, db.runs, db.runLines) && RunsOk(after, db.runs, db.runLines)
            && (forall i :: 0 <= i < |after| ==> !Holds(after[i], p))
            && (forall i :: 0 <= i < |after| && db.invoices[i].po != Some(p) ==> after[i] == db.invoices[i])
  {
    var cancelled := CancelledAt(db, p);
    NothingReceived(cancelled, p);
    InvoicesAreWellFormed(db.pos, db.invoices);
    assert CorrectionAllowed(cancelled, p);
    ReevaluationFacts(cancelled, OrderAt(cancelled, p));
  }

  lemma CancelledAllocation(db: Db, p: nat, after: seq<Invoice>)
    requires Inv(db) && p < |db.pos| && !HasRecordedReceipt(db.receipts, p)
    requires PassOf(db.invoices, after, p) && forall i :: 0 <= i < |after| ==> !Holds(after[i], p)
    requires AllocationOk(CancelledAt(db, p).pos, db.receipts, db.receiptLines, db.invoices)
    requires BackedOk(CancelledAt(db, p).pos, db.receipts, db.receiptLines, db.invoices)
    requires InvoicesOk(CancelledAt(db, p).pos, after)
    ensures AllocationOk(CancelledAt(db, p).pos, db.receipts, db.receiptLines, after)
    ensures BackedOk(CancelledAt(db, p).pos, db.receipts, db.receiptLines, after)
  {
    NothingReceived(CancelledAt(db, p), p);
    SumZero(Holdings(after, p));
    ReevaluatedAllocation(CancelledAt(db, p).pos, db.receipts, db.receipts, db.receiptLines, db.invoices, after, p);
  }

  lemma CancelledStateSafe(db: Db, p: nat)
    requires Inv(db) && Decided(db, p) && IsLive(db.pos[p])
    requires !HasRecordedReceipt(db.receipts, p) && CorrectionAllowed(db, p)
    requires var b := BudgetOf(db.reqs, db.pos[p]);
             b.Some? && b.value < |db.budgets| && db.pos[p].total <= db.budgets[b.value].committed
    ensures var b := BudgetOf(db.reqs, db.pos[p]).value;
            Inv(ReevaluateOn(CancelledAt(db, p), p).(
                budgets := db.budgets[b := db.budgets[b].(committed := db.budgets[b].committed - db.pos[p].total)]))
  {
    var after := ReevaluateOn(CancelledAt(db, p), p).invoices;
    CancelledPass(db, p);
    CancelledTables(db, p);
    CancelledInvoices(db, p, after);
    CancelledAllocation(db, p, after);
    CancelledBudgets(db, p, after, BudgetOf(db.reqs, db.pos[p]).value);
  }

  /** What a cancellation that goes through does. */
  lemma CancelledOutcome(db: Db, p: nat, requisition: Option<nat>)
    requires p < |db.pos| && IsLive(db.pos[p]) && CancelOrder(db, p, requisition).Done?
    ensures !HasRecordedReceipt(db.receipts, p) && CorrectionAllowed(db, p)
    ensures var b := BudgetOf(db.reqs, db.pos[p]);
            b.Some? && b.value < |db.budgets| && db.pos[p].total <= db.budgets[b.value].committed
            && After(db, CancelOrder(db, p, requisition))
               == ReevaluateOn(CancelledAt(db, p), p).(
                    budgets := db.budgets[b.value := db.budgets[b.value].(
                                 committed := db.budgets[b.value].committed - db.pos[p].total)])
  {
  }

  lemma CancelOrderSafe(db: Db, p: nat, requisition: Option<nat>)
    requires Inv(db) && Decided(db, p)
    ensures Inv(After(db, CancelOrder(db, p, requisition)))
  {
    if CancelOrder(db, p, requisition).Done? && IsLive(db.pos[p]) {
      CancelledOutcome(db, p, requisition);
      CancelledStateSafe(db, p);
    }
  }

  // ----- Decisions -----

  lemma RecordDecision(db: Db, k: nat, verdict: Verdict, actor: string)
    requires Inv(db) && k < |db.approvals|
    requires db.approvals[k].status == Pending && db.approvals[k].requestedBy != actor
    ensures var a := db.approvals[k].(status := DecidedStatus(verdict), decidedBy := Some(Human(actor)));
            var decided := db.(approvals := db.approvals[k := a]);
            Inv(decided)
            && (verdict != Reject && a.kind == PolicyEngine.PoCancellation && a.po.Some? ==>
                  CancellationDecided(decided.approvals, a.po.value))
  {
    var a := db.approvals[k].(status := DecidedStatus(verdict), decidedBy := Some(Human(actor)));
    var approvals := db.approvals[k := a];
    forall p | 0 <= p < |db.pos| && !IsLive(db.pos[p]) ensures CancellationDecided(approvals, p) {
      var j :| 0 <= j < |db.approvals| && Cancels(db.approvals[j], p);
      assert Cancels(approvals[j], p);
    }
    if verdict != Reject && a.kind == PolicyEngine.PoCancellation && a.po.Some? {
      assert Cancels(approvals[k], a.po.value);
    }
  }

  lemma DecideSafe(db: Db, k: nat, verdict: Verdict, actor: string, credentials: Credentials)
    requires Inv(db)
    ensures Inv(After(db, Decide(db, k, verdict, actor, credentials)))
  {
    var o := Decide(db, k, verdict, actor, credentials);
    if o.Done? {
      RecordDecision(db, k, verdict, actor);
      var a := db.approvals[k];
      var decided := db.(approvals := db.approvals[k := a.(
                           status := DecidedStatus(verdict), decidedBy := Some(Human(actor)))]);
      if a.kind == PolicyEngine.PoCancellation {
        if verdict != Reject {
          CancelOrderSafe(decided, a.po.value, a.requisition);
        }
      } else if a.kind == PolicyEngine.VendorGate && a.vendor.Some? {
      } else if a.requisition.Some? {
        ReqStatusFrame(decided, o.db.reqs);
      }
    }
  }

  // ----- Registering an invoice -----

  /** A new row that reserves value only within the bound of its live order. */
  predicate NewInvoiceOk(db: Db, inv: Invoice) {
    InvoiceOk(db.pos, inv) && inv.status != Paid
    && !NumberTaken(db.invoices, inv.vendor, inv.number)
    && (inv.status == MatchedStatus && inv.po.Some? && inv.po.value < |db.pos| ==>
          WithinTolerance(AllocatedValue(db.invoices, inv.po.value) + inv.amount,
                          ReceivedAt(db.pos, db.receipts, db.receiptLines, inv.po.value)))
    && Backed(db.pos, db.receipts, db.receiptLines, inv)
  }

  lemma AppendInvoiceAmounts(db: Db, inv: Invoice)
    requires Inv(db) && NewInvoiceOk(db, inv)
    ensures AllocationOk(db.pos, db.receipts, db.receiptLines, db.invoices + [inv])
    ensures BackedOk(db.pos, db.receipts, db.receiptLines, db.invoices + [inv])
    ensures BudgetsOk(db.budgets, db.reqs, db.pos, db.invoices + [inv])
  {
    forall p | 0 <= p < |db.pos|
      ensures AllocatedValue(db.invoices + [inv], p)
           == AllocatedValue(db.invoices, p) + (if Holds(inv, p) then inv.amount else 0)
    {
      assert Holdings(db.invoices + [inv], p) == Holdings(db.invoices, p) + [if Holds(inv, p) then inv.amount else 0];
      SumAppend(Holdings(db.invoices, p), if Holds(inv, p) then inv.amount else 0);
    }
    forall b | 0 <= b < |db.budgets|
      ensures PaidTotal(db.reqs, db.pos, db.invoices + [inv], b) == PaidTotal(db.reqs, db.pos, db.invoices, b)
    {
      assert Payments(db.reqs, db.pos, db.invoices + [inv], b) == Payments(db.reqs, db.pos, db.invoices, b) + [0];
      SumAppend(Payments(db.reqs, db.pos, db.invoices, b), 0);
    }
  }

  lemma AppendInvoice(db: Db, inv: Invoice)
    requires Inv(db) && NewInvoiceOk(db, inv)
    ensures Inv(db.(invoices := db.invoices + [inv]))
  {
    AppendInvoiceAmounts(db, inv);
    forall i | 0 <= i < |db.runLines| ensures RunLineOk(db.invoices + [inv], db.runs, db.runLines[i]) {
      assert RunLineOk(db.invoices, db.runs, db.runLines[i]);
    }
  }

  lemma RegisterSafe(db: Db, input: RegisterInput, tax: Tax.TaxPolicy)
    requires Inv(db)
    ensures Inv(After(db, Register(db, input, tax)))
  {
    var o := Register(db, input, tax);
    if o.Done? && o.db != db {
      var c := Tax.Computation(input.lines, tax);
      var inv := NewInvoice(db, input, c);
      if inv.status == MatchedStatus {
        var p := input.po.value;
        InvoicesAreWellFormed(db.pos, db.invoices);
        AllocationNonnegative(db.invoices, p);
        MatchKeepsBound(FactsAt(db.pos, p), Bill(input.vendor, c.gross, input.currency, input.allowPartial),
                        ReceivedAt(db.pos, db.receipts, db.receiptLines, p), AllocatedValue(db.invoices, p));
      }
      AppendInvoice(db, inv);
    }
  }

  // ----- Payment runs -----

  lemma NewRunTotals(runs: seq<Run>, runLines: seq<RunLine>, more: seq<RunLine>, nets: seq<int>)
    requires forall i :: 0 <= i < |runLines| ==> runLines[i].run < |runs|
    requires |more| == |nets| && forall i :: 0 <= i < |more| ==> more[i].run == |runs| && more[i].net == nets[i]
    ensures forall r :: 0 <= r < |runs| ==> RunNet(runLines + more, r) == RunNet(runLines, r)
    ensures RunNet(runLines + more, |runs|) == Sum(nets)
  {
    forall r | 0 <= r <= |runs|
      ensures RunNet(runLines + more, r) == RunNet(runLines, r) + Sum(RunNets(more, r))
    {
      assert RunNets(runLines + more, r) == RunNets(runLines, r) + RunNets(more, r);
      SumConcat(RunNets(runLines, r), RunNets(more, r));
    }
    forall r | 0 <= r < |runs| ensures Sum(RunNets(more, r)) == 0 {
      SumZero(RunNets(more, r));
    }
    SumZero(RunNets(runLines, |runs|));
    assert RunNets(more, |runs|) == nets;
  }

  /** The rows a new run adds: planned, frozen, and free of other claims. */
  predicate NewLinesOk(db: Db, more: seq<RunLine>) {
    (forall i :: 0 <= i < |more| ==>
       more[i].run == |db.runs| && more[i].status == Planned && more[i].invoice < |db.invoices|
       && db.invoices[more[i].invoice].status == MatchedStatus && !Claimed(db, more[i].invoice)
       && more[i].net == NetPayable(db.invoices[more[i].invoice]) && Batch.UsableSnapshot(more[i].snapshot))
    && (forall i, j :: 0 <= i < j < |more| ==> more[i].invoice != more[j].invoice)
  }

  lemma NewRunClaims(db: Db, run: Run, more: seq<RunLine>)
    requires ClaimsOk(db.invoices, db.runs, db.runLines) && NewLinesOk(db, more)
    ensures ClaimsOk(db.invoices, db.runs + [run], db.runLines + more)
  {
    var runs, lines := db.runs + [run], db.runLines + more;
    assert forall i :: 0 <= i < |db.runLines| ==> LiveClaim(runs, lines[i]) == LiveClaim(db.runs, db.runLines[i]);
    forall i, j | 0 <= i < j < |lines| && LiveClaim(runs, lines[i]) && LiveClaim(runs, lines[j])
      ensures lines[i].invoice != lines[j].invoice
    {
      if i < |db.runLines| <= j {
        assert !Claimed(db, more[j - |db.runLines|].invoice);
        assert LiveClaim(db.runs, db.runLines[i]);
      } else if |db.runLines| <= i {
        assert more[i - |db.runLines|].invoice != more[j - |db.runLines|].invoice;
      }
    }
    forall v | 0 <= v < |db.invoices| && db.invoices[v].status == Paid ensures HasPayment(lines, v) {
      var i :| 0 <= i < |db.runLines| && PaysFor(db.runLines[i], v);
      assert PaysFor(lines[i], v);
    }
  }

  lemma NewRunLines(db: Db, run: Run, more: seq<RunLine>)
    requires RunsOk(db.invoices, db.runs, db.runLines) && NewLinesOk(db, more) && run.status == RunDraft
    ensures var lines := db.runLines + more;
            forall i :: 0 <= i < |lines| ==> RunLineOk(db.invoices, db.runs + [run], lines[i])
    ensures forall i :: 0 <= i < |db.runLines| ==> db.runLines[i].run < |db.runs|
  {
    var runs, lines := db.runs + [run], db.runLines + more;
    forall i | 0 <= i < |db.runLines| ensures RunLineOk(db.invoices, runs, lines[i]) && db.runLines[i].run < |db.runs| {
      assert RunLineOk(db.invoices, db.runs, db.runLines[i]);
    }
    forall i | 0 <= i < |more| ensures RunLineOk(db.invoices, runs, more[i]) {
    }
  }

  lemma NewRunRuns(db: Db, run: Run, more: seq<RunLine>, nets: seq<int>)
    requires RunsOk(db.invoices, db.runs, db.runLines) && NewLinesOk(db, more) && RunOk(run)
    requires run.status == RunDraft && run.total == Sum(nets)
    requires |more| == |nets| && forall i :: 0 <= i < |more| ==> more[i].net == nets[i]
    ensures RunsOk(db.invoices, db.runs + [run], db.runLines + more)
  {
    NewRunLines(db, run, more);
    NewRunTotals(db.runs, db.runLines, more, nets);
    NewRunRows(db.runs, run, db.runLines, db.runLines + more);
  }

  lemma NewRunRows(runs: seq<Run>, run: Run, before: seq<RunLine>, after: seq<RunLine>)
    requires forall r :: 0 <= r < |runs| ==> RunOk(runs[r]) && runs[r].total == RunNet(before, r)
    requires forall r :: 0 <= r < |runs| ==> RunNet(after, r) == RunNet(before, r)
    requires RunOk(run) && run.total == RunNet(after, |runs|)
    ensures forall r :: 0 <= r < |runs| + 1 ==>
              RunOk((runs + [run])[r]) && (runs + [run])[r].total == RunNet(after, r)
  {
  }

  lemma PlannedLinesOk(db: Db, ids: seq<nat>)
    requires IdsIn(ids, db.invoices) && Distinct(ids) && AllFreezable(db, ids)
    requires forall k :: 0 <= k < |ids| ==> db.invoices[ids[k]].status == MatchedStatus && !Claimed(db, ids[k])
    ensures NewLinesOk(db, PlannedLines(db, ids, |db.runs|))
  {
    var more := PlannedLines(db, ids, |db.runs|);
    forall k | 0 <= k < |ids| ensures Batch.UsableSnapshot(more[k].snapshot) {
      var inv := db.invoices[ids[k]];
      Batch.FrozenIsUsable(inv.number, inv.vendor, db.vendors[inv.vendor].bank);
    }
  }

  /** Planning succeeded: every row passed every gate. */
  lemma PlannedRows(db: Db, ids: seq<nat>)
    requires IdsIn(ids, db.invoices) && PlanningGate(db, ids).None?
    ensures AllFreezable(db, ids)
    ensures forall k :: 0 <= k < |ids| ==> db.invoices[ids[k]].status == MatchedStatus && !Claimed(db, ids[k])
  {
  }

  lemma NewRunSafe(db: Db, run: Run, more: seq<RunLine>, nets: seq<int>)
    requires Inv(db) && NewLinesOk(db, more) && RunOk(run)
    requires run.status == RunDraft && run.total == Sum(nets)
    requires |more| == |nets| && forall i :: 0 <= i < |more| ==> more[i].net == nets[i]
    ensures Inv(db.(runs := db.runs + [run], runLines := db.runLines + more))
  {
    NewRunClaims(db, run, more);
    NewRunRuns(db, run, more, nets);
  }

  lemma PlannedRunSafe(db: Db, ids: seq<nat>, maker: string)
    requires Inv(db) && IdsIn(ids, db.invoices) && Distinct(ids)
    requires PlanningGate(db, ids).None? && AllFreezable(db, ids) && IsDatabaseInt(Sum(NetsOf(db, ids)))
    ensures Inv(db.(runs := db.runs + [Run(maker, None, None, RunDraft, Sum(NetsOf(db, ids)))],
                    runLines := db.runLines + PlannedLines(db, ids, |db.runs|)))
  {
    PlannedRows(db, ids);
    PlannedLinesOk(db, ids);
    NewRunSafe(db, Run(maker, None, None, RunDraft, Sum(NetsOf(db, ids))),
               PlannedLines(db, ids, |db.runs|), NetsOf(db, ids));
  }

  /** What planning a run that goes through does. */
  lemma PlannedOutcome(db: Db, invoiceIds: seq<nat>, maker: string)
    requires CreateRun(db, invoiceIds, maker).Done?
    ensures var ids := Unique(invoiceIds);
            IdsIn(ids, db.invoices) && PlanningGate(db, ids).None?
            && AllFreezable(db, ids) && IsDatabaseInt(Sum(NetsOf(db, ids)))
            && After(db, CreateRun(db, invoiceIds, maker))
               == db.(runs := db.runs + [Run(maker, None, None, RunDraft, Sum(NetsOf(db, ids)))],
                      runLines := db.runLines + PlannedLines(db, ids, |db.runs|))
  {
    GateImpliesFreezable(db, Unique(invoiceIds));
  }

  lemma CreateRunSafe(db: Db, invoiceIds: seq<nat>, maker: string)
    requires Inv(db)
    ensures Inv(After(db, CreateRun(db, invoiceIds, maker)))
  {
    if CreateRun(db, invoiceIds, maker).Done? {
      PlannedOutcome(db, invoiceIds, maker);
      PlannedRunSafe(db, Unique(invoiceIds), maker);
    }
  }

  /** A move of run `r` from one of its open statuses. */
  predicate OpenMove(runs: seq<Run>, r: nat, run: Run) {
    r < |runs| && (runs[r].status == RunDraft || runs[r].status == RunApproved)
    && run.status != RunReconciled && run.total == runs[r].total
  }

  lemma MovedRunsOk(invoices: seq<Invoice>, runs: seq<Run>, runLines: seq<RunLine>, r: nat, run: Run)
    requires RunsOk(invoices, runs, runLines) && OpenMove(runs, r, run) && RunOk(run)
    ensures RunsOk(invoices, runs[r := run], runLines)
  {
    forall i | 0 <= i < |runLines| ensures RunLineOk(invoices, runs[r := run], runLines[i]) {
      assert RunLineOk(invoices, runs, runLines[i]);
    }
  }

  lemma MovedClaimsOk(invoices: seq<Invoice>, runs: seq<Run>, runLines: seq<RunLine>, r: nat, run: Run)
    requires ClaimsOk(invoices, runs, runLines) && OpenMove(runs, r, run)
    ensures ClaimsOk(invoices, runs[r := run], runLines)
  {
    forall i | 0 <= i < |runLines| && LiveClaim(runs[r := run], runLines[i]) ensures LiveClaim(runs, runLines[i]) {
    }
  }

  /** Moving a run that is still open, without reviving a voided one. */
  lemma MoveRun(db: Db, r: nat, run: Run)
    requires Inv(db) && RunOk(run) && OpenMove(db.runs, r, run)
    ensures Inv(db.(runs := db.runs[r := run]))
  {
    MovedRunsOk(db.invoices, db.runs, db.runLines, r, run);
    MovedClaimsOk(db.invoices, db.runs, db.runLines, r, run);
  }

  /** At most run `r` differs, by an open move. */
  predicate MovesOneRun(db: Db, r: nat, after: Db) {
    after == db
    || (r < |db.runs| && |after.runs| == |db.runs| && RunOk(after.runs[r]) && OpenMove(db.runs, r, after.runs[r])
        && after == db.(runs := db.runs[r := after.runs[r]]))
  }

  lemma ApprovalMovesOneRun(db: Db, r: nat, actor: string)
    requires r < |db.runs| ==> RunOk(db.runs[r])
    ensures MovesOneRun(db, r, After(db, ApproveRun(db, r, actor)))
  {
  }

  lemma ExecutionMovesOneRun(db: Db, r: nat)
    requires r < |db.runs| ==> RunOk(db.runs[r])
    ensures MovesOneRun(db, r, After(db, ExecuteRun(db, r)))
  {
  }

  lemma VoidingMovesOneRun(db: Db, r: nat, actor: string, blankReason: bool)
    requires r < |db.runs| ==> RunOk(db.runs[r])
    ensures MovesOneRun(db, r, After(db, VoidRun(db, r, actor, blankReason)))
  {
  }

  lemma MovedRunIsSafe(db: Db, r: nat, after: Db)
    requires Inv(db) && MovesOneRun(db, r, after)
    ensures Inv(after)
  {
    if after != db {
      MoveRun(db, r, after.runs[r]);
    }
  }

  // ----- Reconciling a line -----

  lemma SameNets(a: seq<RunLine>, l: nat, line: RunLine, r: nat)
    requires l < |a| && line.run == a[l].run && line.net == a[l].net
    ensures RunNet(a[l := line], r) == RunNet(a, r)
  {
    assert RunNets(a[l := line], r) == RunNets(a, r);
  }

  lemma DecidedLineRuns(db: Db, l: nat, status: PaymentStatus)
    requires RunsOk(db.invoices, db.runs, db.runLines)
    requires l < |db.runLines| && db.runLines[l].run < |db.runs| && db.runs[db.runLines[l].run].status == RunExecuted
    ensures RunsOk(db.invoices, db.runs, db.runLines[l := db.runLines[l].(status := status)])
  {
    var lines := db.runLines[l := db.runLines[l].(status := status)];
    forall i | 0 <= i < |lines| ensures RunLineOk(db.invoices, db.runs, lines[i]) {
      assert RunLineOk(db.invoices, db.runs, db.runLines[i]);
    }
    forall r | 0 <= r < |db.runs| ensures RunNet(lines, r) == RunNet(db.runLines, r) {
      SameNets(db.runLines, l, lines[l], r);
    }
  }

  lemma ReturnLineClaims(invoices: seq<Invoice>, runs: seq<Run>, runLines: seq<RunLine>, l: nat, status: PaymentStatus)
    requires ClaimsOk(invoices, runs, runLines) && l < |runLines|
    requires runLines[l].status == Planned && status != Planned && status != LinePaid
    ensures ClaimsOk(invoices, runs, runLines[l := runLines[l].(status := status)])
  {
    var lines := runLines[l := runLines[l].(status := status)];
    forall v | 0 <= v < |invoices| && invoices[v].status == Paid ensures HasPayment(lines, v) {
      var i :| 0 <= i < |runLines| && PaysFor(runLines[i], v);
      assert PaysFor(lines[i], v);
    }
  }

  /** A line that is returned or rejected releases its claim. */
  lemma ReturnLineSafe(db: Db, l: nat, status: PaymentStatus)
    requires Inv(db) && l < |db.runLines| && db.runs[db.runLines[l].run].status == RunExecuted
    requires db.runLines[l].status == Planned && status != Planned && status != LinePaid
    ensures Inv(db.(runLines := db.runLines[l := db.runLines[l].(status := status)]))
  {
    DecidedLineRuns(db, l, status);
    ReturnLineClaims(db.invoices, db.runs, db.runLines, l, status);
  }

  /** The line was paid: its invoice is the one that becomes paid. */
  predicate PaidLine(db: Db, l: nat) {
    l < |db.runLines| && db.runLines[l].run < |db.runs| && db.runs[db.runLines[l].run].status == RunExecuted
    && db.runLines[l].status == Planned
  }

  function PaidInvoices(db: Db, l: nat): seq<Invoice>
    requires l < |db.runLines| && db.runLines[l].invoice < |db.invoices|
  {
    db.invoices[db.runLines[l].invoice := db.invoices[db.runLines[l].invoice].(status := Paid)]
  }

  lemma PaidLineClaims(db: Db, l: nat)
    requires ClaimsOk(db.invoices, db.runs, db.runLines) && PaidLine(db, l)
    ensures ClaimsOk(PaidInvoices(db, l), db.runs, db.runLines[l := db.runLines[l].(status := LinePaid)])
  {
    var i, lines := db.runLines[l].invoice, db.runLines[l := db.runLines[l].(status := LinePaid)];
    assert LiveClaim(db.runs, db.runLines[l]) && db.invoices[i].status == MatchedStatus;
    forall v | 0 <= v < |db.invoices| && PaidInvoices(db, l)[v].status == Paid ensures HasPayment(lines, v) {
      if v == i {
        assert PaysFor(lines[l], v);
      } else {
        var j :| 0 <= j < |db.runLines| && PaysFor(db.runLines[j], v);
        assert PaysFor(lines[j], v);
      }
    }
  }

  lemma PaidInvoiceTables(pos: seq<Po>, receipts: seq<Receipt>, rls: seq<ReceiptLine>, invoices: seq<Invoice>, v: nat)
    requires v < |invoices| && invoices[v].status == MatchedStatus
    requires InvoicesOk(pos, invoices) && AllocationOk(pos, receipts, rls, invoices)
             && BackedOk(pos, receipts, rls, invoices)
    ensures var after := invoices[v := invoices[v].(status := Paid)];
            InvoicesOk(pos, after) && AllocationOk(pos, receipts, rls, after) && BackedOk(pos, receipts, rls, after)
  {
    var after := invoices[v := invoices[v].(status := Paid)];
    forall i | 0 <= i < |after| ensures InvoiceOk(pos, after[i]) && Backed(pos, receipts, rls, after[i]) {
      assert InvoiceOk(pos, invoices[i]) && Backed(pos, receipts, rls, invoices[i]);
    }
    forall p | 0 <= p < |pos| ensures AllocatedValue(after, p) == AllocatedValue(invoices, p) {
      assert Holdings(after, p) == Holdings(invoices, p);
    }
  }

  lemma PaidInvoiceRuns(invoices: seq<Invoice>, runs: seq<Run>, runLines: seq<RunLine>, v: nat)
    requires v < |invoices| && RunsOk(invoices, runs, runLines)
    ensures RunsOk(invoices[v := invoices[v].(status := Paid)], runs, runLines)
  {
    var after := invoices[v := invoices[v].(status := Paid)];
    forall i | 0 <= i < |runLines| ensures RunLineOk(after, runs, runLines[i]) {
      assert RunLineOk(invoices, runs, runLines[i]);
    }
  }

  lemma PaidLineInvoices(db: Db, l: nat)
    requires PaidLine(db, l)
    requires ClaimsOk(db.invoices, db.runs, db.runLines) && RunsOk(db.invoices, db.runs, db.runLines)
    requires InvoicesOk(db.pos, db.invoices)
    requires AllocationOk(db.pos, db.receipts, db.receiptLines, db.invoices)
    requires BackedOk(db.pos, db.receipts, db.receiptLines, db.invoices)
    ensures InvoicesOk(db.pos, PaidInvoices(db, l))
    ensures AllocationOk(db.pos, db.receipts, db.receiptLines, PaidInvoices(db, l))
    ensures BackedOk(db.pos, db.receipts, db.receiptLines, PaidInvoices(db, l))
    ensures RunsOk(PaidInvoices(db, l), db.runs, db.runLines[l := db.runLines[l].(status := LinePaid)])
  {
    var v := db.runLines[l].invoice;
    assert LiveClaim(db.runs, db.runLines[l]);
    DecidedLineRuns(db, l, LinePaid);
    PaidInvoiceTables(db.pos, db.receipts, db.receiptLines, db.invoices, v);
    PaidInvoiceRuns(db.invoices, db.runs, db.runLines[l := db.runLines[l].(status := LinePaid)], v);
  }

  /** The matched invoice of a paid line has an order with a budget. */
  lemma PaidLineBudget(db: Db, l: nat)
    requires Inv(db) && PaidLine(db, l)
    ensures var inv := db.invoices[db.runLines[l].invoice];
            inv.status == MatchedStatus && 0 <= inv.amount
            && inv.po.Some? && inv.po.value < |db.pos|
            && BudgetOf(db.reqs, db.pos[inv.po.value]).Some?
            && BudgetOf(db.reqs, db.pos[inv.po.value]).value < |db.budgets|
  {
    var inv := db.invoices[db.runLines[l].invoice];
    assert LiveClaim(db.runs, db.runLines[l]);
    assert InvoiceOk(db.pos, inv);
    assert PoOk(db.reqs, db.pos[inv.po.value]);
  }

  lemma PaidLineBudgets(db: Db, l: nat, b: nat)
    requires l < |db.runLines| && db.runLines[l].invoice < |db.invoices| && b < |db.budgets|
    requires var inv := db.invoices[db.runLines[l].invoice];
             inv.status == MatchedStatus && 0 <= inv.amount
             && inv.po.Some? && inv.po.value < |db.pos| && BudgetOf(db.reqs, db.pos[inv.po.value]) == Some(b)
    requires BudgetsOk(db.budgets, db.reqs, db.pos, db.invoices) && 0 <= OpenTotal(db.reqs, db.pos, b)
    ensures BudgetsOk(PaidBudgets(db, db.runLines[l].invoice, b), db.reqs, db.pos, PaidInvoices(db, l))
  {
    var i := db.runLines[l].invoice;
    forall c | 0 <= c < |db.budgets|
      ensures PaidTotal(db.reqs, db.pos, PaidInvoices(db, l), c)
           == PaidTotal(db.reqs, db.pos, db.invoices, c) + (if c == b then db.invoices[i].amount else 0)
    {
      var paid := Payments(db.reqs, db.pos, db.invoices, c);
      var more := if c == b then db.invoices[i].amount else 0;
      assert Payments(db.reqs, db.pos, PaidInvoices(db, l), c) == paid[i := more];
      SumUpdate(paid, i, more);
    }
  }

  lemma OpenTotalNonnegative(db: Db, b: nat)
    requires Inv(db)
    ensures 0 <= OpenTotal(db.reqs, db.pos, b)
  {
    forall p | 0 <= p < |db.pos| ensures 0 <= db.pos[p].total {
      ReceivedWithinOrder(db, p);
    }
    SumNonnegative(Commitments(db.reqs, db.pos, b));
  }

  function PaidBudgets(db: Db, i: nat, b: nat): seq<Budget>
    requires i < |db.invoices| && b < |db.budgets|
  {
    db.budgets[b := db.budgets[b].(committed := Max(0, db.budgets[b].committed - db.invoices[i].amount),
                                   spent := db.budgets[b].spent + db.invoices[i].amount)]
  }

  lemma PayLineSafe(db: Db, l: nat)
    requires Inv(db) && PaidLine(db, l)
    ensures Inv(SettlePaid(db.(runLines := db.runLines[l := db.runLines[l].(status := LinePaid)]),
            db.runLines[l].invoice))
  {
    PaidLineBudget(db, l);
    var lines := db.runLines[l := db.runLines[l].(status := LinePaid)];
    var i := db.runLines[l].invoice;
    var b := BudgetOf(db.reqs, db.pos[db.invoices[i].po.value]).value;
    SettlesTo(db, l, lines, b);
    PayLineTables(db, l, b);
  }

  lemma SettlesTo(db: Db, l: nat, lines: seq<RunLine>, b: nat)
    requires l < |db.runLines| && db.runLines[l].invoice < |db.invoices| && b < |db.budgets|
    requires var inv := db.invoices[db.runLines[l].invoice];
             inv.status != Paid && inv.po.Some? && inv.po.value < |db.pos|
             && BudgetOf(db.reqs, db.pos[inv.po.value]) == Some(b)
    ensures SettlePaid(db.(runLines := lines), db.runLines[l].invoice)
         == db.(runLines := lines, invoices := PaidInvoices(db, l),
                budgets := PaidBudgets(db, db.runLines[l].invoice, b))
  {
  }

  lemma PayLineTables(db: Db, l: nat, b: nat)
    requires Inv(db) && PaidLine(db, l) && b < |db.budgets|
    requires var inv := db.invoices[db.runLines[l].invoice];
             inv.po.Some? && inv.po.value < |db.pos| && BudgetOf(db.reqs, db.pos[inv.po.value]) == Some(b)
    ensures Inv(db.(runLines := db.runLines[l := db.runLines[l].(status := LinePaid)],
                    invoices := PaidInvoices(db, l),
                    budgets := PaidBudgets(db, db.runLines[l].invoice, b)))
  {
    PaidLineClaims(db, l);
    PaidLineInvoices(db, l);
    PaidLineBudget(db, l);
    OpenTotalNonnegative(db, b);
    PaidLineBudgets(db, l, b);
  }

  lemma CloseRunTables(invoices: seq<Invoice>, runs: seq<Run>, runLines: seq<RunLine>, r: nat)
    requires RunsOk(invoices, runs, runLines) && ClaimsOk(invoices, runs, runLines)
    requires r < |runs| && runs[r].status == RunExecuted && !StillPlanned(runLines, r)
    ensures var closed := runs[r := runs[r].(status := RunReconciled)];
            RunsOk(invoices, closed, runLines) && ClaimsOk(invoices, closed, runLines)
  {
    var closed := runs[r := runs[r].(status := RunReconciled)];
    forall i | 0 <= i < |runLines| ensures RunLineOk(invoices, closed, runLines[i]) {
      assert RunLineOk(invoices, runs, runLines[i]);
    }
    assert forall i :: 0 <= i < |runLines| && LiveClaim(closed, runLines[i]) ==> LiveClaim(runs, runLines[i]);
  }

  lemma CloseRunSafe(db: Db, r: nat)
    requires Inv(db) && r < |db.runs| && db.runs[r].status == RunExecuted
    ensures Inv(CloseIfDone(db, r))
  {
    if !StillPlanned(db.runLines, r) {
      CloseRunTables(db.invoices, db.runs, db.runLines, r);
    }
  }

  lemma PaidReconcileSafe(db: Db, r: nat, l: nat)
    requires Inv(db)
    ensures Inv(After(db, Reconcile(db, r, l, BankPaid)))
  {
    if Reconcile(db, r, l, BankPaid).Done? {
      var decided := db.(runLines := db.runLines[l := db.runLines[l].(status := LinePaid)]);
      PayLineSafe(db, l);
      CloseRunSafe(SettlePaid(decided, db.runLines[l].invoice), r);
    }
  }

  lemma ReturnedReconcileSafe(db: Db, r: nat, l: nat, outcome: BankOutcome)
    requires Inv(db) && outcome != BankPaid
    ensures Inv(After(db, Reconcile(db, r, l, outcome)))
  {
    if Reconcile(db, r, l, outcome).Done? {
      ReturnLineSafe(db, l, LineStatus(outcome));
      CloseRunSafe(db.(runLines := db.runLines[l := db.runLines[l].(status := LineStatus(outcome))]), r);
    }
  }

  lemma ReconcileSafe(db: Db, r: nat, l: nat, outcome: BankOutcome)
    requires Inv(db)
    ensures Inv(After(db, Reconcile(db, r, l, outcome)))
  {
    if outcome == BankPaid {
      PaidReconcileSafe(db, r, l);
    } else {
      ReturnedReconcileSafe(db, r, l, outcome);
    }
  }
}

/** The procure-to-pay services over their tables. Each method is one database
    transaction: the row and advisory locks of the services make it atomic, and
    a refusal rolls everything back. */
module LedgerService {
  import opened Common
  import opened Sums
  import opened Matching
  import opened LedgerModel
  import opened MatchPasses
  import opened LedgerSteps
  import opened LedgerTheorems
  import Batch
  import PolicyEngine
  import Tax

  /** The transaction did what the step function says, refusals included. */
  ghost predicate Performed(before: Db, o: Outcome, after: Db, refused: Option<Refusal>) {
    match o
    case Done(db) => after == db && refused == None
    case Refused(why) => after == before && refused == Some(why)
  }

  function Lookup(running: map<int, int>, no: int): int {
    if no in running then running[no] else 0
  }

  lemma ReplayExtends(history: seq<Event>, e: Event)
    ensures LedgerSteps.Replay(history + [e]) == Step(LedgerSteps.Replay(history), e)
  {
    assert (history + [e])[..|history|] == history;
  }

  lemma ReplaySubmit(history: seq<Event>, id: nat, policy: Option<PolicyEngine.ThresholdPolicy>)
    ensures var db := LedgerSteps.Replay(history);
            LedgerSteps.Replay(history + [EvSubmit(id, policy)])
                == After(db, LedgerSteps.SubmitRequisition(db, id, policy))
  {
    ReplayExtends(history, EvSubmit(id, policy));
  }

  lemma ReplayAward(history: seq<Event>, q: nat, now: int)
    ensures var db := LedgerSteps.Replay(history);
            LedgerSteps.Replay(history + [EvAward(q, now)]) == After(db, LedgerSteps.AwardQuote(db, q, now))
  {
    ReplayExtends(history, EvAward(q, now));
  }

  lemma ReplayRegister(history: seq<Event>, input: RegisterInput, tax: Tax.TaxPolicy)
    ensures var db := LedgerSteps.Replay(history);
            LedgerSteps.Replay(history + [EvRegister(input, tax)]) == After(db, LedgerSteps.Register(db, input, tax))
  {
    ReplayExtends(history, EvRegister(input, tax));
  }

  lemma ReplayReceipt(history: seq<Event>, p: nat, inputs: seq<ReceiptInput>)
    ensures var db := LedgerSteps.Replay(history);
            LedgerSteps.Replay(history + [EvRecordReceipt(p, inputs)])
                == After(db, LedgerSteps.RecordReceipt(db, p, inputs))
  {
    ReplayExtends(history, EvRecordReceipt(p, inputs));
  }

  lemma ReplayReceiptCancellation(history: seq<Event>, r: nat)
    ensures var db := LedgerSteps.Replay(history);
            LedgerSteps.Replay(history + [EvCancelReceipt(r)]) == After(db, LedgerSteps.CancelReceipt(db, r))
  {
    ReplayExtends(history, EvCancelReceipt(r));
  }

  lemma ReplayDecision(history: seq<Event>, k: nat, verdict: Verdict, actor: string, credentials: Credentials)
    ensures var db := LedgerSteps.Replay(history);
            LedgerSteps.Replay(history + [EvDecide(k, verdict, actor, credentials)])
                == After(db, LedgerSteps.Decide(db, k, verdict, actor, credentials))
  {
    ReplayExtends(history, EvDecide(k, verdict, actor, credentials));
  }

  lemma ReplayRun(history: seq<Event>, invoiceIds: seq<nat>, maker: string)
    ensures var db := LedgerSteps.Replay(history);
            LedgerSteps.Replay(history + [EvCreateRun(invoiceIds, maker)])
                == After(db, LedgerSteps.CreateRun(db, invoiceIds, maker))
  {
    ReplayExtends(history, EvCreateRun(invoiceIds, maker));
  }

  lemma ReplayReconciliation(history: seq<Event>, r: nat, l: nat, outcome: BankOutcome)
    ensures var db := LedgerSteps.Replay(history);
            LedgerSteps.Replay(history + [EvReconcile(r, l, outcome)])
                == After(db, LedgerSteps.Reconcile(db, r, l, outcome))
  {
    ReplayExtends(history, EvReconcile(r, l, outcome));
  }

  lemma ReceiptsHaveOrders(history: seq<Event>)
    ensures var db := LedgerSteps.Replay(history);
            forall r :: 0 <= r < |db.receipts| ==> db.receipts[r].po < |db.pos|
  {
    EveryHistoryIsSafe(history);
  }

  class Ledger {
    var budgets: seq<Budget>
    var vendors: seq<Vendor>
    var reqs: seq<Requisition>
    var quotes: seq<Quote>
    var pos: seq<Po>
    var approvals: seq<Approval>
    var receipts: seq<Receipt>
    var receiptLines: seq<ReceiptLine>
    var invoices: seq<Invoice>
    var runs: seq<Run>
    var runLines: seq<RunLine>
    ghost var history: seq<Event>

    function Snapshot(): Db
      reads this
    {
      Db(budgets, vendors, reqs, quotes, pos, approvals, receipts, receiptLines, invoices, runs, runLines)
    }

    /** The tables are what the recorded transactions made of an empty database,
        so everything proved about histories holds of them. */
    ghost predicate Valid()
      reads this
    {
      Snapshot() == LedgerSteps.Replay(history)
    }

    constructor ()
      ensures Valid() && history == []
    {
      history := [];
      budgets, vendors, reqs, quotes, pos, approvals := [], [], [], [], [], [];
      receipts, receiptLines, invoices, runs, runLines := [], [], [], [], [];
    }

    // ----- Master data and requisitions -----

    method AddBudget(currency: string, limit: int) returns (refused: Option<Refusal>)
      requires Valid()
      modifies this`budgets, this`history
      ensures Valid() && history == old(history) + [EvAddBudget(currency, limit)]
      ensures Performed(old(Snapshot()), LedgerSteps.AddBudget(old(Snapshot()), currency, limit), Snapshot(), refused)
    {
      ReplayExtends(history, EvAddBudget(currency, limit));
      history := history + [EvAddBudget(currency, limit)];
      if !IsDatabaseInt(limit) {
        return Some(BadRequest);
      }
      budgets := budgets + [Budget(currency, limit, 0, 0)];
      return None;
    }

    method PutVendor(id: nat, v: Vendor)
      requires Valid()
      modifies this`vendors, this`history
      ensures Valid() && history == old(history) + [EvPutVendor(id, v)]
      ensures Snapshot() == After(old(Snapshot()), LedgerSteps.PutVendor(old(Snapshot()), id, v))
    {
      ReplayExtends(history, EvPutVendor(id, v));
      history := history + [EvPutVendor(id, v)];
      if id < |vendors| {
        vendors := vendors[id := v];
      } else {
        vendors := vendors + [v];
      }
    }

    method CreateRequisition(requester: string, costCenter: string, budget: Option<nat>, inputs: seq<LineInput>)
      returns (refused: Option<Refusal>)
      requires Valid()
      modifies this`reqs, this`history
      ensures Valid() && history == old(history) + [EvCreateRequisition(requester, costCenter, budget, inputs)]
      ensures Performed(old(Snapshot()), LedgerSteps.CreateRequisition(old(Snapshot()), requester, costCenter, budget,
                                                                           inputs),
                        Snapshot(), refused)
    {
      ReplayExtends(history, EvCreateRequisition(requester, costCenter, budget, inputs));
      history := history + [EvCreateRequisition(requester, costCenter, budget, inputs)];
      if |inputs| == 0 || !(forall i :: 0 <= i < |inputs| ==> LineInputOk(inputs[i])) {
        return Some(BadRequest);
      }
      var lines := PricedLines(inputs);
      if !IsDatabaseInt(Sum(LineTotals(lines))) || !SingleCurrency(inputs) {
        return Some(BadRequest);
      }
      if budget.Some? {
        if budget.value >= |budgets| {
          return Some(NotFound);
        }
        if budgets[budget.value].currency != inputs[0].currency {
          return Some(BadRequest);
        }
      }
      reqs := reqs + [Requisition(requester, costCenter, ReqDraft, budget, inputs[0].currency, lines)];
      return None;
    }

    method SubmitRequisition(id: nat, policy: Option<PolicyEngine.ThresholdPolicy>) returns (refused: Option<Refusal>)
      requires Valid()
      modifies this`reqs, this`approvals, this`history
      ensures Valid() && history == old(history) + [EvSubmit(id, policy)]
      ensures Performed(old(Snapshot()), LedgerSteps.SubmitRequisition(old(Snapshot()), id, policy), Snapshot(),
              refused)
    {
      ReplaySubmit(history, id, policy);
      history := history + [EvSubmit(id, policy)];
      if id >= |reqs| {
        return Some(NotFound);
      }
      var r := reqs[id];
      if r.status != ReqDraft {
        return Some(Conflict);
      }
      if r.budget.Some? {
        if r.budget.value >= |budgets| {
          return Some(NotFound);
        }
        if budgets[r.budget.value].currency != r.currency {
          return Some(BadRequest);
        }
      }
      var d := PolicyEngine.EvaluateThresholdGate(policy, SubmitContext(Snapshot(), r));
      match d.outcome {
        case Pass =>
          reqs := reqs[id := r.(status := ReqApproved)];
          approvals := approvals + [Approval(PolicyEngine.ThresholdGate, Some(id), None, None, ApprovalApproved,
                                             r.requester, Some(System), [])];
        case Block =>
          reqs := reqs[id := r.(status := ReqException)];
          approvals := approvals + [Approval(d.kind, Some(id), None, None, Pending, r.requester, None,
                                             d.approvers)];
        case NeedApproval =>
          reqs := reqs[id := r.(status := ReqSubmitted)];
          approvals := approvals + [Approval(d.kind, Some(id), None, None, Pending, r.requester, None,
                                             d.approvers)];
      }
      return None;
    }

    // ----- Sourcing -----

    method RequestQuotes(r: nat, vendorIds: seq<nat>) returns (refused: Option<Refusal>)
      requires Valid()
      modifies this`quotes, this`history
      ensures Valid() && history == old(history) + [EvRequestQuotes(r, vendorIds)]
      ensures Performed(old(Snapshot()), LedgerSteps.RequestQuotes(old(Snapshot()), r, vendorIds), Snapshot(), refused)
    {
      ReplayExtends(history, EvRequestQuotes(r, vendorIds));
      history := history + [EvRequestQuotes(r, vendorIds)];
      if r >= |reqs| {
        return Some(NotFound);
      }
      if reqs[r].status != ReqApproved {
        return Some(Conflict);
      }
      if exists i :: 0 <= i < |vendorIds| && vendorIds[i] >= |vendors| {
        return Some(NotFound);
      }
      var currency := reqs[r].currency;
      ghost var before := quotes;
      for k := 0 to |vendorIds|
        invariant WithRequested(before, r, vendorIds, currency) == WithRequested(quotes, r, vendorIds[k..], currency)
        modifies this`quotes
      {
        assert vendorIds[k..][1..] == vendorIds[k + 1..];
        if !HasQuote(quotes, r, vendorIds[k]) {
          quotes := quotes + [Quote(r, vendorIds[k], QuoteRequested, currency, None, None, [])];
        }
      }
      return None;
    }

    method ReceiveQuote(q: nat, total: int, currency: Option<string>, validUntil: Option<int>,
                        lines: Option<seq<OfferLine>>)
      returns (refused: Option<Refusal>)
      requires Valid()
      modifies this`quotes, this`history
      ensures Valid() && history == old(history) + [EvReceiveQuote(q, total, currency, validUntil, lines)]
      ensures Performed(old(Snapshot()), LedgerSteps.ReceiveQuote(old(Snapshot()), q, total, currency, validUntil,
                                                                      lines),
                        Snapshot(), refused)
    {
      ReplayExtends(history, EvReceiveQuote(q, total, currency, validUntil, lines));
      history := history + [EvReceiveQuote(q, total, currency, validUntil, lines)];
      if q >= |quotes| {
        return Some(NotFound);
      }
      var quote := quotes[q];
      if !(0 < total <= DATABASE_INT_MAX) || (currency.Some? && currency.value != quote.currency) {
        return Some(BadRequest);
      }
      if quote.status != QuoteRequested && quote.status != QuoteReceived {
        return Some(Conflict);
      }
      quote := quote.(status := QuoteReceived, total := Some(total));
      if validUntil.Some? {
        quote := quote.(validUntil := validUntil);
      }
      if lines.Some? {
        quote := quote.(lines := lines.value);
      }
      quotes := quotes[q := quote];
      return None;
    }

    /** Every received sibling is rejected, then the winner is accepted. */
    method AwardQuote(q: nat, now: int) returns (refused: Option<Refusal>)
      requires Valid()
      modifies this`quotes, this`history
      ensures Valid() && history == old(history) + [EvAward(q, now)]
      ensures Performed(old(Snapshot()), LedgerSteps.AwardQuote(old(Snapshot()), q, now), Snapshot(), refused)
    {
      ReplayAward(history, q, now);
      history := history + [EvAward(q, now)];
      if q >= |quotes| {
        return Some(NotFound);
      }
      var quote := quotes[q];
      if quote.total.None? {
        return Some(BadRequest);
      }
      if Expired(quote, now) {
        return Some(Conflict);
      }
      if quote.requisition >= |reqs| {
        return Some(NotFound);
      }
      if quote.currency != reqs[quote.requisition].currency {
        return Some(BadRequest);
      }
      if quote.status != QuoteReceived || AcceptedExists(quotes, quote.requisition) {
        return Some(Conflict);
      }
      ghost var before := quotes;
      for i := 0 to |quotes|
        invariant |quotes| == |before| && quotes[q] == before[q]
        invariant forall k :: 0 <= k < i && k != q ==> quotes[k] == Awarded(before, q)[k]
        invariant forall k :: i <= k < |quotes| ==> quotes[k] == before[k]
        modifies this`quotes
      {
        if quotes[i].requisition == quote.requisition && i != q && quotes[i].status == QuoteReceived {
          quotes := quotes[i := quotes[i].(status := QuoteRejected)];
        }
      }
      quotes := quotes[q := quote.(status := QuoteAccepted)];
      assert quotes == Awarded(before, q);
      return None;
    }

    // ----- Purchase orders -----

    /** The vendor is not qualified yet: one pending gate per requisition and vendor. */
    method AskForVendor(r: nat, v: nat, actor: string)
      modifies this`approvals
      ensures Snapshot() == LedgerSteps.AskForVendor(old(Snapshot()), r, v, actor)
    {
      if !GatePending(approvals, r, v) {
        approvals := approvals + [Approval(PolicyEngine.VendorGate, Some(r), None, Some(v), Pending, actor, None,
                                           [PROCUREMENT])];
      }
    }

    method CommitOrder(r: nat, v: nat, awarded: Option<nat>, terms: Terms) returns (refused: Option<Refusal>)
      requires r < |reqs| && reqs[r].budget.Some?
      requires awarded.Some? ==> awarded.value < |quotes|
      modifies this`pos, this`budgets
      ensures Performed(old(Snapshot()), LedgerSteps.CommitOrder(old(Snapshot()), r, v, awarded, terms), Snapshot(),
              refused)
    {
      var req, b := reqs[r], reqs[r].budget.value;
      if b >= |budgets| {
        return Some(NotFound);
      }
      if budgets[b].currency != req.currency || (awarded.Some? && quotes[awarded.value].currency != req.currency) {
        return Some(BadRequest);
      }
      var lines := req.lines;
      if awarded.Some? {
        var offered := LinesFromAwardedQuote(quotes[awarded.value]);
        if offered.BadLines? {
          return Some(offered.why);
        }
        lines := offered.lines;
      }
      var total := Sum(LineTotals(lines));
      if !IsDatabaseInt(total) {
        return Some(BadRequest);
      }
      if budgets[b].committed + budgets[b].spent + total > budgets[b].limit {
        return Some(Conflict);
      }
      if awarded.Some? && QuoteUsed(pos, awarded.value) {
        return Some(UniqueViolation);
      }
      budgets := budgets[b := budgets[b].(committed := budgets[b].committed + total)];
      pos := pos + [Po(r, awarded, v, PoIssued, req.currency, total, lines, terms)];
      return None;
    }

    method IssuePo(r: nat, v: nat, terms: Terms, actor: string, now: int) returns (refused: Option<Refusal>)
      requires Valid()
      modifies this`pos, this`budgets, this`approvals, this`history
      ensures Valid() && history == old(history) + [EvIssue(r, v, terms, actor, now)]
      ensures Performed(old(Snapshot()), LedgerSteps.IssuePo(old(Snapshot()), r, v, terms, actor, now), Snapshot(),
              refused)
    {
      ReplayExtends(history, EvIssue(r, v, terms, actor, now));
      history := history + [EvIssue(r, v, terms, actor, now)];
      if r >= |reqs| {
        return Some(NotFound);
      }
      if reqs[r].status != ReqApproved || reqs[r].budget.None? {
        return Some(Conflict);
      }
      if v >= |vendors| {
        return Some(NotFound);
      }
      if OrderedAlready(pos, r) {
        return Some(Conflict);
      }
      var accepted := AcceptedOf(quotes, r, |quotes|);
      if Sourced(quotes, r) && |accepted| != 1 {
        return Some(Conflict);
      }
      var awarded: Option<nat> := if |accepted| > 0 then Some(accepted[0]) else None;
      if awarded.Some? && (quotes[awarded.value].vendor != v || Expired(quotes[awarded.value], now)) {
        return Some(Conflict);
      }
      match PolicyEngine.EvaluateVendorGate(vendors[v].status)
      case Block =>
        refused := Some(Conflict);
      case NeedApproval =>
        AskForVendor(r, v, actor);
        refused := None;
      case Pass =>
        refused := CommitOrder(r, v, awarded, terms);
    }

    method ConfirmPo(p: nat) returns (refused: Option<Refusal>)
      requires Valid()
      modifies this`pos, this`history
      ensures Valid() && history == old(history) + [EvConfirm(p)]
      ensures Performed(old(Snapshot()), LedgerSteps.ConfirmPo(old(Snapshot()), p), Snapshot(), refused)
    {
      ReplayExtends(history, EvConfirm(p));
      history := history + [EvConfirm(p)];
      if p >= |pos| {
        return Some(NotFound);
      }
      if pos[p].status != PoIssued {
        return Some(Conflict);
      }
      pos := pos[p := pos[p].(status := PoConfirmed)];
      return None;
    }

    method RequestCancellation(p: nat, actor: string) returns (refused: Option<Refusal>)
      requires Valid()
      modifies this`approvals, this`history
      ensures Valid() && history == old(history) + [EvRequestCancellation(p, actor)]
      ensures Performed(old(Snapshot()), LedgerSteps.RequestCancellation(old(Snapshot()), p, actor), Snapshot(),
              refused)
    {
      ReplayExtends(history, EvRequestCancellation(p, actor));
      history := history + [EvRequestCancellation(p, actor)];
      if p >= |pos| {
        return Some(NotFound);
      }
      if !IsLive(pos[p]) {
        return Some(Conflict);
      }
      if !CancellationPending(approvals, p) {
        approvals := approvals + [Approval(PolicyEngine.PoCancellation, Some(pos[p].requisition), Some(p), None,
                                           Pending, actor, None, [FINANCE])];
      }
      return None;
    }

    // ----- Matching -----

    /** Receipt lines priced at the order's lines. */
    method ReceivedValueForPo(p: nat) returns (total: int)
      requires p < |pos|
      ensures total == ReceivedAt(pos, receipts, receiptLines, p)
    {
      total := 0;
      for k := 0 to |receiptLines|
        invariant total == ReceivedValue(pos[p].lines, receipts, receiptLines[..k], p)
      {
        var l := receiptLines[k];
        if CountsFor(receipts, l, p) {
          total := total + l.quantity * PriceAt(pos[p].lines, l.lineNo);
        }
        assert ReceivedValues(pos[p].lines, receipts, receiptLines[..k + 1], p)[..k]
            == ReceivedValues(pos[p].lines, receipts, receiptLines[..k], p);
      }
      assert receiptLines[..|receiptLines|] == receiptLines;
    }

    /** Open invoices get a fresh judgement, oldest first. */
    method RematchOpenForPo(p: nat) returns (summary: RematchSummary)
      requires p < |pos|
      modifies this`invoices
      ensures Snapshot() == RematchOn(old(Snapshot()), p)
      ensures summary.considered == |OpenIds(old(invoices), p, |old(invoices)|)|
      ensures summary.considered == summary.matched + summary.stillWaiting + summary.exceptions
      ensures var ids := OpenIds(old(invoices), p, |old(invoices)|);
              IdsIn(ids, invoices)
              && summary.matched == CountStatus(invoices, ids, MatchedStatus)
              && summary.stillWaiting == CountStatus(invoices, ids, Received)
              && summary.exceptions == CountStatus(invoices, ids, Exception)
    {
      var open := OpenIds(invoices, p, |invoices|);
      OpenIdsComplete(invoices, p, |invoices|);
      var received := ReceivedValueForPo(p);
      var o := Order(p, FactsAt(pos, p), received);
      ghost var before := invoices;
      var matched, stillWaiting, exceptions: nat := 0, 0, 0;
      for k := 0 to |open|
        invariant |invoices| == |before|
        invariant RematchSoFar(o, before, invoices, open, k, matched, stillWaiting, exceptions)
      {
        var m := Judge(o, invoices, open[k]);
        RematchAdvances(o, before, invoices, open, k, matched, stillWaiting, exceptions);
        invoices := Stored(invoices, open[k], m);
        match StatusFor(m)
        case MatchedStatus => matched := matched + 1;
        case Exception => exceptions := exceptions + 1;
        case _ => stillWaiting := stillWaiting + 1;
      }
      assert open[..|open|] == open;
      summary := RematchSummary(|open|, matched, stillWaiting, exceptions);
    }

    /** Matched invoices are judged again, each without its own reservation. */
    method ReevaluateMatchedForPo(p: nat) returns (summary: ReevaluateSummary)
      requires p < |pos|
      modifies this`invoices
      ensures Snapshot() == ReevaluateOn(old(Snapshot()), p)
      ensures summary.considered == |MatchedIds(old(invoices), p, |old(invoices)|)| == summary.kept + summary.demoted
      ensures var ids := MatchedIds(old(invoices), p, |old(invoices)|);
              IdsIn(ids, invoices) && summary.kept == CountStatus(invoices, ids, MatchedStatus)
    {
      var matched := MatchedIds(invoices, p, |invoices|);
      MatchedIdsComplete(invoices, p, |invoices|);
      var received := ReceivedValueForPo(p);
      var o := Order(p, FactsAt(pos, p), received);
      ghost var before := invoices;
      var kept, demoted: nat := 0, 0;
      for k := 0 to |matched|
        invariant |invoices| == |before|
        invariant ReevaluationSoFar(o, before, invoices, matched, k, kept, demoted)
      {
        var i := matched[k];
        var m := JudgeAlone(o, invoices, i);
        ReevaluationAdvances(o, before, invoices, matched, k, kept, demoted);
        invoices := Stored(invoices, i, m);
        if m.outcome == Matched {
          kept := kept + 1;
        } else {
          demoted := demoted + 1;
        }
      }
      assert matched[..|matched|] == matched;
      summary := ReevaluateSummary(|matched|, kept, demoted);
    }

    method Register(input: RegisterInput, tax: Tax.TaxPolicy) returns (refused: Option<Refusal>)
      requires Valid()
      modifies this`invoices, this`history
      ensures Valid() && history == old(history) + [EvRegister(input, tax)]
      ensures Performed(old(Snapshot()), LedgerSteps.Register(old(Snapshot()), input, tax), Snapshot(), refused)
    {
      ReplayRegister(history, input, tax);
      history := history + [EvRegister(input, tax)];
      var c := Tax.ComputeTax(input.lines, tax);
      if !Persistable(c) {
        return Some(BadRequest);
      }
      if NumberTaken(invoices, input.vendor, input.number) {
        return None;
      }
      var m: Option<MatchResult> := None;
      if input.po.Some? {
        var p := input.po.value;
        var received := 0;
        if p < |pos| {
          received := ReceivedValueForPo(p);
        }
        m := Some(MatchAgainstPo(FactsAt(pos, p), Bill(input.vendor, c.gross, input.currency, input.allowPartial),
                                 received, AllocatedValue(invoices, p)));
      }
      var status := if m.Some? then StatusFor(m.value) else Received;
      invoices := invoices + [Invoice(input.vendor, input.number, input.po, c.gross, c.vat, c.ewt, input.currency,
                                      input.receivedAt, status, m)];
      return None;
    }

    /** Paid invoices and live payment claims refuse the correction. */
    method AssertPoCorrectionAllowed(p: nat) returns (ok: bool)
      ensures ok == CorrectionAllowed(Snapshot(), p)
    {
      if HasPaidInvoice(invoices, p) {
        return false;
      }
      ok := !HasClaim(Snapshot(), p);
    }

    // ----- Receipts -----

    /** Quantities recorded so far, line number by line number. */
    method RunningByLine(p: nat) returns (running: map<int, int>)
      ensures forall no :: Lookup(running, no) == QuantityOn(receipts, receiptLines, p, no)
    {
      running := map[];
      for k := 0 to |receiptLines|
        invariant forall no :: Lookup(running, no) == QuantityOn(receipts, receiptLines[..k], p, no)
      {
        var l := receiptLines[k];
        ghost var was := running;
        if CountsFor(receipts, l, p) && l.lineNo.Some? {
          running := running[l.lineNo.value := Lookup(running, l.lineNo.value) + l.quantity];
        }
        forall no ensures Lookup(running, no) == QuantityOn(receipts, receiptLines[..k + 1], p, no) {
          assert Quantities(receipts, receiptLines[..k + 1], p, no)[..k]
              == Quantities(receipts, receiptLines[..k], p, no);
          assert Lookup(was, no) == QuantityOn(receipts, receiptLines[..k], p, no);
        }
      }
      assert receiptLines[..|receiptLines|] == receiptLines;
    }

    /** The over-receipt gate: lines accumulate in the running totals as they are
        accepted, so duplicates in one request cannot each pass on their own. */
    method PrepareLines(p: nat, inputs: seq<ReceiptInput>) returns (ok: bool, booked: seq<ReceiptLine>)
      requires p < |pos|
      ensures ok <==> AllResolve(p, pos[p], inputs)
                      && FitsOrder(Snapshot(), p, BookedLines(p, pos[p], inputs, |receipts|))
      ensures ok ==> booked == BookedLines(p, pos[p], inputs, |receipts|)
    {
      var po := pos[p];
      ghost var db := Snapshot();
      var running := RunningByLine(p);
      booked := [];
      for k := 0 to |inputs|
        invariant PreparedSoFar(db, p, inputs, k, booked, running)
      {
        var r := ResolveLine(p, po, inputs[k]);
        if r.Unresolved? {
          ok := false;
          return;
        }
        var line := ReceiptLine(|receipts|, r.lineNo, inputs[k].quantity);
        if r.lineNo.Some? && 1 <= r.lineNo.value <= |po.lines| {
          var no := r.lineNo.value;
          var already := Lookup(running, no);
          if already + line.quantity > po.lines[no - 1].quantity {
            ok := false;
            OverReceiptNeverFits(db, p, inputs, k, no);
            return;
          }
          PreparedAdvances(db, p, inputs, k, booked, running, line);
          running := running[no := already + line.quantity];
        } else {
          PreparedAdvances(db, p, inputs, k, booked, running, line);
        }
        booked := booked + [line];
      }
      assert inputs[..|inputs|] == inputs;
      ok := true;
    }

    method RecordReceipt(p: nat, inputs: seq<ReceiptInput>)
      returns (refused: Option<Refusal>, rematch: Option<RematchSummary>)
      requires Valid()
      modifies this`receipts, this`receiptLines, this`invoices, this`history
      ensures Valid() && history == old(history) + [EvRecordReceipt(p, inputs)]
      ensures Performed(old(Snapshot()), LedgerSteps.RecordReceipt(old(Snapshot()), p, inputs), Snapshot(), refused)
      ensures rematch.Some? <==> refused.None?
      ensures rematch.Some? ==>
                rematch.value.considered == rematch.value.matched + rematch.value.stillWaiting
                    + rematch.value.exceptions
    {
      ReplayReceipt(history, p, inputs);
      history := history + [EvRecordReceipt(p, inputs)];
      rematch := None;
      if |inputs| == 0 {
        refused := Some(Conflict);
      } else if p >= |pos| {
        refused := Some(NotFound);
      } else if !IsLive(pos[p]) {
        refused := Some(Conflict);
      } else {
        var ok, booked := PrepareLines(p, inputs);
        if ok {
          receipts := receipts + [Receipt(p, true)];
          receiptLines := receiptLines + booked;
          var summary := RematchOpenForPo(p);
          refused, rematch := None, Some(summary);
        } else {
          refused := Some(Conflict);
        }
      }
    }

    method CancelReceipt(r: nat) returns (refused: Option<Refusal>)
      requires Valid()
      modifies this`receipts, this`invoices, this`history
      ensures Valid() && history == old(history) + [EvCancelReceipt(r)]
      ensures Performed(old(Snapshot()), LedgerSteps.CancelReceipt(old(Snapshot()), r), Snapshot(), refused)
    {
      ReplayReceiptCancellation(history, r);
      history := history + [EvCancelReceipt(r)];
      ReceiptsHaveOrders(old(history));
      if r >= |receipts| {
        return Some(NotFound);
      }
      if !receipts[r].recorded {
        return Some(Conflict);
      }
      var saved, p := receipts, receipts[r].po;
      receipts := receipts[r := Receipt(p, false)];
      var ok := AssertPoCorrectionAllowed(p);
      if !ok {
        receipts := saved;
        return Some(Conflict);
      }
      var summary := ReevaluateMatchedForPo(p);
      return None;
    }

    // ----- Approvals -----

    method ReleaseCommitment(po: Po) returns (refused: Option<Refusal>)
      modifies this`budgets
      ensures Performed(old(Snapshot()), LedgerSteps.ReleaseCommitment(old(Snapshot()), po), Snapshot(), refused)
    {
      if !IsDatabaseInt(po.total) {
        return Some(BadRequest);
      }
      if po.requisition >= |reqs| {
        return Some(NotFound);
      }
      if reqs[po.requisition].budget.None? {
        return Some(Conflict);
      }
      var b := reqs[po.requisition].budget.value;
      if b >= |budgets| {
        return Some(NotFound);
      }
      if budgets[b].currency != po.currency || budgets[b].committed < po.total {
        return Some(Conflict);
      }
      budgets := budgets[b := budgets[b].(committed := budgets[b].committed - po.total)];
      return None;
    }

    /** Guards, the status change, the demotion of matched invoices and the budget
        release; a release that fails takes everything back. */
    method CancelOrder(p: nat, requisition: Option<nat>) returns (refused: Option<Refusal>)
      modifies this`pos, this`invoices, this`budgets
      ensures Performed(old(Snapshot()), LedgerSteps.CancelOrder(old(Snapshot()), p, requisition), Snapshot(), refused)
    {
      if p >= |pos| {
        return Some(NotFound);
      }
      var po := pos[p];
      if po.status == PoCancelled {
        return None;
      }
      if requisition != Some(po.requisition) {
        return Some(Conflict);
      }
      var allowed := AssertPoCorrectionAllowed(p);
      if !allowed || HasRecordedReceipt(receipts, p) {
        return Some(Conflict);
      }
      var savedPos, savedInvoices := pos, invoices;
      pos := pos[p := po.(status := PoCancelled)];
      var summary := ReevaluateMatchedForPo(p);
      refused := ReleaseCommitment(po);
      if refused.Some? {
        pos, invoices := savedPos, savedInvoices;
      }
    }

    method Decide(k: nat, verdict: Verdict, actor: string, credentials: Credentials) returns (refused: Option<Refusal>)
      requires Valid()
      modifies this`approvals, this`reqs, this`vendors, this`pos, this`invoices, this`budgets, this`history
      ensures Valid() && history == old(history) + [EvDecide(k, verdict, actor, credentials)]
      ensures Performed(old(Snapshot()), LedgerSteps.Decide(old(Snapshot()), k, verdict, actor, credentials),
              Snapshot(), refused)
    {
      ReplayDecision(history, k, verdict, actor, credentials);
      history := history + [EvDecide(k, verdict, actor, credentials)];
      if k >= |approvals| {
        return Some(NotFound);
      }
      var a := approvals[k];
      if a.status != Pending {
        return Some(Conflict);
      }
      if verdict == Override && !credentials.hasEvidence {
        return Some(BadRequest);
      }
      if !MayDecide(a, credentials) {
        return Some(Forbidden);
      }
      if a.requestedBy == actor {
        return Some(Forbidden);
      }
      var saved := approvals;
      approvals := approvals[k := a.(status := DecidedStatus(verdict), decidedBy := Some(Human(actor)))];
      refused := ApplyDecision(a, verdict);
      if refused.Some? {
        approvals := saved;
      }
    }

    /** What a recorded decision sets in motion. */
    method ApplyDecision(a: Approval, verdict: Verdict) returns (refused: Option<Refusal>)
      modifies this`reqs, this`vendors, this`pos, this`invoices, this`budgets
      ensures Performed(old(Snapshot()), DecisionEffect(old(Snapshot()), a, verdict), Snapshot(), refused)
    {
      if a.kind == PolicyEngine.PoCancellation {
        if verdict == Reject {
          return None;
        }
        if a.po.None? {
          return Some(Conflict);
        }
        refused := CancelOrder(a.po.value, a.requisition);
        return;
      }
      if a.kind == PolicyEngine.VendorGate && a.vendor.Some? {
        if verdict == Reject {
          return None;
        }
        if a.vendor.value >= |vendors| {
          return Some(NotFound);
        }
        vendors := vendors[a.vendor.value := vendors[a.vendor.value].(status := PolicyEngine.Active)];
        return None;
      }
      if a.requisition.Some? {
        var r := a.requisition.value;
        if r >= |reqs| {
          return Some(NotFound);
        }
        reqs := reqs[r := reqs[r].(status := NextReqStatus(approvals, r, verdict))];
      }
      return None;
    }

    // ----- Payment runs -----

    /** Only matched invoices are payable. */
    method AssertMatched(ids: seq<nat>) returns (ok: bool)
      requires IdsIn(ids, invoices)
      ensures ok <==> AllMatched(invoices, ids)
    {
      for k := 0 to |ids|
        invariant forall j :: 0 <= j < k ==> invoices[ids[j]].status == MatchedStatus
      {
        if invoices[ids[k]].status != MatchedStatus {
          return false;
        }
      }
      return true;
    }

    /** An invoice that names an order needs that order to be live. */
    method AssertLiveOrders(ids: seq<nat>) returns (ok: bool)
      requires IdsIn(ids, invoices)
      ensures ok <==> AllLive(Snapshot(), ids)
    {
      for k := 0 to |ids|
        invariant forall j :: 0 <= j < k ==> OrderIsLive(Snapshot(), invoices[ids[j]])
      {
        if !OrderIsLive(Snapshot(), invoices[ids[k]]) {
          return false;
        }
      }
      return true;
    }

    /** Freezes row by row; the first row that cannot be frozen decides. */
    method FreezeBeneficiaries(ids: seq<nat>) returns (refused: Option<Refusal>, snapshots: seq<Batch.Snapshot>)
      requires IdsIn(ids, invoices)
      ensures refused == FreezeGate(Snapshot(), ids)
      ensures refused.None? ==>
                |snapshots| == |ids|
                && forall k :: 0 <= k < |ids| ==> Some(snapshots[k]) == SnapshotFor(Snapshot(), invoices[ids[k]])
    {
      snapshots := [];
      for k := 0 to |ids|
        invariant |snapshots| == k
        invariant forall j :: 0 <= j < k ==> Some(snapshots[j]) == SnapshotFor(Snapshot(), invoices[ids[j]])
      {
        var invoice := invoices[ids[k]];
        if invoice.vendor >= |vendors| {
          assert AllFreezable(Snapshot(), ids[..k]);
          return Some(NotFound), [];
        }
        var frozen := Batch.FreezeBeneficiary(invoice.number, invoice.vendor, vendors[invoice.vendor].bank);
        if frozen.None? {
          FirstUnfrozen(Snapshot(), ids, k);
          return Some(BadRequest), [];
        }
        snapshots := snapshots + [frozen.value];
      }
      return None, snapshots;
    }

    method TotalNet(ids: seq<nat>) returns (total: int)
      requires IdsIn(ids, invoices)
      ensures total == Sum(NetsOf(Snapshot(), ids))
    {
      total := 0;
      for k := 0 to |ids|
        invariant total == Sum(NetsOf(Snapshot(), ids)[..k])
      {
        assert NetsOf(Snapshot(), ids)[..k + 1][..k] == NetsOf(Snapshot(), ids)[..k];
        total := total + NetPayable(invoices[ids[k]]);
      }
      assert NetsOf(Snapshot(), ids)[..|ids|] == NetsOf(Snapshot(), ids);
    }

    /** One planned line per invoice, with its net and its frozen beneficiary. */
    method PlanLines(ids: seq<nat>, snapshots: seq<Batch.Snapshot>, run: nat) returns (lines: seq<RunLine>)
      requires IdsIn(ids, invoices) && |snapshots| == |ids|
      requires forall k :: 0 <= k < |ids| ==> Some(snapshots[k]) == SnapshotFor(Snapshot(), invoices[ids[k]])
      ensures AllFreezable(Snapshot(), ids) && lines == PlannedLines(Snapshot(), ids, run)
    {
      assert AllFreezable(Snapshot(), ids) by {
        forall k | 0 <= k < |ids| ensures SnapshotFor(Snapshot(), invoices[ids[k]]).Some? {
          assert Some(snapshots[k]) == SnapshotFor(Snapshot(), invoices[ids[k]]);
        }
      }
      lines := [];
      for k := 0 to |ids|
        invariant lines == PlannedLines(Snapshot(), ids, run)[..k]
      {
        lines := lines + [RunLine(run, ids[k], NetPayable(invoices[ids[k]]), snapshots[k], Planned)];
      }
    }

    /** The gates in the order of the service, then the total and the lines. */
    method PlanRun(ids: seq<nat>, run: nat) returns (refused: Option<Refusal>, total: int, lines: seq<RunLine>)
      requires IdsIn(ids, invoices)
      ensures refused == PlanningGate(Snapshot(), ids)
      ensures refused.None? ==>
                total == Sum(NetsOf(Snapshot(), ids))
                && AllFreezable(Snapshot(), ids) && lines == PlannedLines(Snapshot(), ids, run)
    {
      if SomeUnverified(Snapshot(), ids) {
        return Some(BadRequest), 0, [];
      }
      var ok := AssertMatched(ids);
      if !ok {
        return Some(BadRequest), 0, [];
      }
      ok := AssertLiveOrders(ids);
      if !ok {
        return Some(Conflict), 0, [];
      }
      var unfrozen, snapshots := FreezeBeneficiaries(ids);
      if unfrozen.Some? {
        return unfrozen, 0, [];
      }
      if !AllInPesos(invoices, ids) {
        return Some(BadRequest), 0, [];
      }
      total := TotalNet(ids);
      if !IsDatabaseInt(total) {
        return Some(BadRequest), 0, [];
      }
      if SomeClaimed(Snapshot(), ids) {
        return Some(Conflict), 0, [];
      }
      lines := PlanLines(ids, snapshots, run);
      return None, total, lines;
    }

    method CreateRun(invoiceIds: seq<nat>, maker: string) returns (refused: Option<Refusal>)
      requires Valid()
      modifies this`runs, this`runLines, this`history
      ensures Valid() && history == old(history) + [EvCreateRun(invoiceIds, maker)]
      ensures Performed(old(Snapshot()), LedgerSteps.CreateRun(old(Snapshot()), invoiceIds, maker), Snapshot(), refused)
    {
      ReplayRun(history, invoiceIds, maker);
      history := history + [EvCreateRun(invoiceIds, maker)];
      var ids := Unique(invoiceIds);
      if |invoiceIds| == 0 {
        refused := Some(BadRequest);
      } else if !IdsIn(ids, invoices) {
        refused := Some(NotFound);
      } else {
        var total, lines;
        refused, total, lines := PlanRun(ids, |runs|);
        if refused.None? {
          runs := runs + [Run(maker, None, None, RunDraft, total)];
          runLines := runLines + lines;
        }
      }
    }

    method ApproveRun(r: nat, actor: string) returns (refused: Option<Refusal>)
      requires Valid()
      modifies this`runs, this`history
      ensures Valid() && history == old(history) + [EvApproveRun(r, actor)]
      ensures Performed(old(Snapshot()), LedgerSteps.ApproveRun(old(Snapshot()), r, actor), Snapshot(), refused)
    {
      ReplayExtends(history, EvApproveRun(r, actor));
      history := history + [EvApproveRun(r, actor)];
      if r >= |runs| {
        return Some(NotFound);
      }
      var run := runs[r];
      if run.status != RunDraft {
        return Some(Conflict);
      }
      if run.createdBy == actor {
        return Some(BadRequest);
      }
      runs := runs[r := run.(status := RunApproved, approvedBy := Some(actor))];
      return None;
    }

    method ExecuteRun(r: nat) returns (refused: Option<Refusal>)
      requires Valid()
      modifies this`runs, this`history
      ensures Valid() && history == old(history) + [EvExecuteRun(r)]
      ensures Performed(old(Snapshot()), LedgerSteps.ExecuteRun(old(Snapshot()), r), Snapshot(), refused)
    {
      ReplayExtends(history, EvExecuteRun(r));
      history := history + [EvExecuteRun(r)];
      if r >= |runs| {
        return Some(NotFound);
      }
      if runs[r].status != RunApproved {
        return Some(Conflict);
      }
      runs := runs[r := runs[r].(status := RunExecuted)];
      return None;
    }

    method VoidRun(r: nat, actor: string, blankReason: bool) returns (refused: Option<Refusal>)
      requires Valid()
      modifies this`runs, this`history
      ensures Valid() && history == old(history) + [EvVoidRun(r, actor, blankReason)]
      ensures Performed(old(Snapshot()), LedgerSteps.VoidRun(old(Snapshot()), r, actor, blankReason), Snapshot(),
              refused)
    {
      ReplayExtends(history, EvVoidRun(r, actor, blankReason));
      history := history + [EvVoidRun(r, actor, blankReason)];
      if blankReason {
        refused := Some(BadRequest);
      } else if r >= |runs| {
        refused := Some(NotFound);
      } else if runs[r].status != RunDraft && runs[r].status != RunApproved {
        refused := Some(Conflict);
      } else if runs[r].status == RunApproved && runs[r].createdBy == actor {
        refused := Some(BadRequest);
      } else {
        runs := runs[r := runs[r].(status := RunVoided, voidedBy := Some(actor))];
        refused := None;
      }
    }

    method SettlePaidInvoice(i: nat)
      requires i < |invoices|
      modifies this`invoices, this`budgets
      ensures Snapshot() == SettlePaid(old(Snapshot()), i)
    {
      var inv := invoices[i];
      if inv.status == Paid {
        return;
      }
      invoices := invoices[i := inv.(status := Paid)];
      if inv.po.None? || inv.po.value >= |pos| {
        return;
      }
      var owner := BudgetOf(reqs, pos[inv.po.value]);
      if owner.None? || owner.value >= |budgets| {
        return;
      }
      var budget := budgets[owner.value];
      budgets := budgets[owner.value := budget.(
                   committed := Max(0, budget.committed - inv.amount),
                   spent := budget.spent + inv.amount)];
    }

    /** A run without a planned line left is reconciled. */
    method CloseRunIfDone(r: nat)
      requires r < |runs|
      modifies this`runs
      ensures Snapshot() == CloseIfDone(old(Snapshot()), r)
    {
      if !StillPlanned(runLines, r) {
        runs := runs[r := runs[r].(status := RunReconciled)];
      }
    }

    method Reconcile(r: nat, l: nat, outcome: BankOutcome) returns (refused: Option<Refusal>)
      requires Valid()
      modifies this`runs, this`runLines, this`invoices, this`budgets, this`history
      ensures Valid() && history == old(history) + [EvReconcile(r, l, outcome)]
      ensures Performed(old(Snapshot()), LedgerSteps.Reconcile(old(Snapshot()), r, l, outcome), Snapshot(), refused)
    {
      ReplayReconciliation(history, r, l, outcome);
      history := history + [EvReconcile(r, l, outcome)];
      if r >= |runs| {
        refused := Some(NotFound);
      } else if runs[r].status != RunExecuted {
        refused := Some(Conflict);
      } else if l >= |runLines| || runLines[l].run != r {
        refused := Some(NotFound);
      } else if runLines[l].status != Planned {
        refused := Some(Conflict);
      } else if outcome == BankPaid && runLines[l].invoice >= |invoices| {
        refused := Some(NotFound);
      } else {
        var line := runLines[l];
        runLines := runLines[l := line.(status := LineStatus(outcome))];
        if outcome == BankPaid {
          SettlePaidInvoice(line.invoice);
        }
        CloseRunIfDone(r);
        refused := None;
      }
    }
  }

  /** Row `k` is the first that cannot be frozen, and its vendor is there. */
  lemma FirstUnfrozen(db: Db, ids: seq<nat>, k: nat)
    requires IdsIn(ids, db.invoices) && k < |ids| && SnapshotFor(db, db.invoices[ids[k]]).None?
    requires db.invoices[ids[k]].vendor < |db.vendors|
    requires forall j :: 0 <= j < k ==> SnapshotFor(db, db.invoices[ids[j]]).Some?
    ensures FreezeGate(db, ids) == Some(BadRequest)
  {
    forall j | 0 <= j < |ids| && db.invoices[ids[j]].vendor >= |db.vendors| ensures !AllFreezable(db, ids[..j]) {
      assert j > k;
      assert ids[..j][k] == ids[k];
    }
  }

  lemma {:induction false} CountUntouched(a: seq<Invoice>, b: seq<Invoice>, ids: seq<nat>, i: nat)
    requires IdsIn(ids, a) && |a| == |b| && i !in ids
    requires forall j :: 0 <= j < |a| && j != i ==> b[j] == a[j]
    ensures forall s :: CountStatus(b, ids, s) == CountStatus(a, ids, s)
  {
    if |ids| > 0 {
      CountUntouched(a, b, ids[..|ids| - 1], i);
      assert ids[|ids| - 1] in ids;
    }
  }

  /** One more judgement stored: the counters move by its status only. */
  lemma StoredCounts(invoices: seq<Invoice>, ids: seq<nat>, k: nat, m: MatchResult)
    requires IdsIn(ids, invoices) && Distinct(ids) && k < |ids|
    ensures var next := Stored(invoices, ids[k], m);
            forall s :: CountStatus(next, ids[..k + 1], s)
                     == CountStatus(invoices, ids[..k], s) + (if s == StatusFor(m) then 1 else 0)
  {
    CountUntouched(invoices, Stored(invoices, ids[k], m), ids[..k], ids[k]);
    assert ids[..k + 1][..k] == ids[..k];
  }

  /** The first `k` open invoices are judged and counted, the rest are to come. */
  predicate RematchSoFar(o: Order, before: seq<Invoice>, invoices: seq<Invoice>, ids: seq<nat>, k: nat,
                         matched: nat, stillWaiting: nat, exceptions: nat)
    requires IdsIn(ids, before) && |invoices| == |before| && k <= |ids|
  {
    Rematched(o, before, ids) == Rematched(o, invoices, ids[k..])
    && matched == CountStatus(invoices, ids[..k], MatchedStatus)
    && stillWaiting == CountStatus(invoices, ids[..k], Received)
    && exceptions == CountStatus(invoices, ids[..k], Exception)
    && matched + stillWaiting + exceptions == k
  }

  lemma RematchAdvances(o: Order, before: seq<Invoice>, invoices: seq<Invoice>, ids: seq<nat>, k: nat,
                        matched: nat, stillWaiting: nat, exceptions: nat)
    requires IdsIn(ids, before) && |invoices| == |before| && Distinct(ids) && k < |ids|
    requires RematchSoFar(o, before, invoices, ids, k, matched, stillWaiting, exceptions)
    ensures var m := Judge(o, invoices, ids[k]);
            var s := StatusFor(m);
            RematchSoFar(o, before, Stored(invoices, ids[k], m), ids, k + 1,
                         if s == MatchedStatus then matched + 1 else matched,
                         if s == Received then stillWaiting + 1 else stillWaiting,
                         if s == Exception then exceptions + 1 else exceptions)
  {
    StoredCounts(invoices, ids, k, Judge(o, invoices, ids[k]));
    assert ids[k..][1..] == ids[k + 1..];
  }

  predicate ReevaluationSoFar(o: Order, before: seq<Invoice>, invoices: seq<Invoice>, ids: seq<nat>, k: nat,
                              kept: nat, demoted: nat)
    requires IdsIn(ids, before) && |invoices| == |before| && k <= |ids|
  {
    Reevaluated(o, before, ids) == Reevaluated(o, invoices, ids[k..])
    && kept == CountStatus(invoices, ids[..k], MatchedStatus)
    && kept + demoted == k
  }

  lemma ReevaluationAdvances(o: Order, before: seq<Invoice>, invoices: seq<Invoice>, ids: seq<nat>, k: nat,
                             kept: nat, demoted: nat)
    requires IdsIn(ids, before) && |invoices| == |before| && Distinct(ids) && k < |ids|
    requires ReevaluationSoFar(o, before, invoices, ids, k, kept, demoted)
    ensures var m := JudgeAlone(o, invoices, ids[k]);
            ReevaluationSoFar(o, before, Stored(invoices, ids[k], m), ids, k + 1,
                              if m.outcome == Matched then kept + 1 else kept,
                              if m.outcome == Matched then demoted else demoted + 1)
  {
    StoredCounts(invoices, ids, k, JudgeAlone(o, invoices, ids[k]));
    assert ids[k..][1..] == ids[k + 1..];
  }

  /** What line `no` would have in receipts once `booked` is recorded too. */
  function TakenOn(db: Db, p: nat, booked: seq<ReceiptLine>, no: int): int {
    QuantityOn(db.receipts, db.receiptLines, p, no) + Sum(RequestedOn(booked, no))
  }

  lemma RequestGrows(booked: seq<ReceiptLine>, line: ReceiptLine, no: int)
    ensures Sum(RequestedOn(booked + [line], no))
         == Sum(RequestedOn(booked, no)) + (if line.lineNo == Some(no) then line.quantity else 0)
  {
    assert RequestedOn(booked + [line], no)[..|booked|] == RequestedOn(booked, no);
  }

  predicate LineFits(db: Db, p: nat, booked: seq<ReceiptLine>, line: ReceiptLine)
    requires p < |db.pos|
  {
    line.lineNo.Some? && 1 <= line.lineNo.value <= |db.pos[p].lines| ==>
      TakenOn(db, p, booked, line.lineNo.value) + line.quantity <= db.pos[p].lines[line.lineNo.value - 1].quantity
  }

  /** One more accepted line. */
  lemma BookedGrows(db: Db, p: nat, inputs: seq<ReceiptInput>, k: nat, booked: seq<ReceiptLine>, line: ReceiptLine)
    requires p < |db.pos| && k < |inputs| && AllResolve(p, db.pos[p], inputs[..k])
    requires booked == BookedLines(p, db.pos[p], inputs[..k], |db.receipts|)
    requires var r := ResolveLine(p, db.pos[p], inputs[k]);
             r.ResolvedTo? && line == ReceiptLine(|db.receipts|, r.lineNo, inputs[k].quantity)
    ensures AllResolve(p, db.pos[p], inputs[..k + 1])
    ensures booked + [line] == BookedLines(p, db.pos[p], inputs[..k + 1], |db.receipts|)
    ensures forall no :: TakenOn(db, p, booked + [line], no)
                      == TakenOn(db, p, booked, no) + (if line.lineNo == Some(no) then line.quantity else 0)
    ensures FitsOrder(db, p, booked) && LineFits(db, p, booked, line) ==> FitsOrder(db, p, booked + [line])
  {
    forall no ensures TakenOn(db, p, booked + [line], no)
                   == TakenOn(db, p, booked, no) + (if line.lineNo == Some(no) then line.quantity else 0)
    {
      RequestGrows(booked, line, no);
    }
  }

  /** The first `k` requested lines are resolved and fit, and the running totals
      of the order's lines include them. */
  ghost predicate PreparedSoFar(db: Db, p: nat, inputs: seq<ReceiptInput>, k: nat, booked: seq<ReceiptLine>,
                                running: map<int, int>)
    requires p < |db.pos| && k <= |inputs|
  {
    AllResolve(p, db.pos[p], inputs[..k]) && booked == BookedLines(p, db.pos[p], inputs[..k], |db.receipts|)
    && (forall no :: 1 <= no <= |db.pos[p].lines| ==> Lookup(running, no) == TakenOn(db, p, booked, no))
    && FitsOrder(db, p, booked)
  }

  lemma PreparedAdvances(db: Db, p: nat, inputs: seq<ReceiptInput>, k: nat, booked: seq<ReceiptLine>,
                         running: map<int, int>, line: ReceiptLine)
    requires p < |db.pos| && k < |inputs| && PreparedSoFar(db, p, inputs, k, booked, running)
    requires var r := ResolveLine(p, db.pos[p], inputs[k]);
             r.ResolvedTo? && line == ReceiptLine(|db.receipts|, r.lineNo, inputs[k].quantity)
    requires LineFits(db, p, booked, line)
    ensures var onOrder := line.lineNo.Some? && 1 <= line.lineNo.value <= |db.pos[p].lines|;
            PreparedSoFar(db, p, inputs, k + 1, booked + [line],
                          if onOrder
                          then running[line.lineNo.value := Lookup(running, line.lineNo.value) + line.quantity]
                          else running)
  {
    BookedGrows(db, p, inputs, k, booked, line);
  }

  lemma PrefixAtMost(a: seq<int>, k: nat)
    requires k < |a| && forall i :: 0 <= i < |a| ==> 0 <= a[i]
    ensures Sum(a[..k]) + a[k] <= Sum(a)
  {
    var front, rest := a[..k + 1], a[k + 1..];
    forall i | 0 <= i < |rest| ensures 0 <= rest[i] {
      assert rest[i] == a[k + 1 + i];
    }
    SumNonnegative(rest);
    SumConcat(front, rest);
    assert a == front + rest;
    assert front[..k] == a[..k];
  }

  /** Once a line overflows, nothing later in the request can make it fit. */
  lemma OverReceiptNeverFits(db: Db, p: nat, inputs: seq<ReceiptInput>, k: nat, no: int)
    requires p < |db.pos| && k < |inputs| && 1 <= no <= |db.pos[p].lines|
    requires AllResolve(p, db.pos[p], inputs[..k]) && ResolveLine(p, db.pos[p], inputs[k]) == ResolvedTo(Some(no))
    requires QuantityOn(db.receipts, db.receiptLines, p, no)
             + Sum(RequestedOn(BookedLines(p, db.pos[p], inputs[..k], |db.receipts|), no))
             + inputs[k].quantity > db.pos[p].lines[no - 1].quantity
    ensures !(AllResolve(p, db.pos[p], inputs)
              && FitsOrder(db, p, BookedLines(p, db.pos[p], inputs, |db.receipts|)))
  {
    if AllResolve(p, db.pos[p], inputs) {
      var booked := BookedLines(p, db.pos[p], inputs, |db.receipts|);
      var wanted := RequestedOn(booked, no);
      forall i | 0 <= i < |wanted| ensures 0 <= wanted[i] {
        assert ResolveLine(p, db.pos[p], inputs[i]).ResolvedTo?;
      }
      assert wanted[..k] == RequestedOn(BookedLines(p, db.pos[p], inputs[..k], |db.receipts|), no);
      PrefixAtMost(wanted, k);
      assert booked[k].lineNo == Some(no);
    }
  }
}

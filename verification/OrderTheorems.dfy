/** Purchase orders: what an issue does for every status of the vendor, what the new
    order holds, and how orders and their gates move over whole histories. */
module OrderTheorems {
  import opened Common
  import opened Sums
  import opened Matching
  import opened LedgerModel
  import opened LedgerSteps
  import opened RequisitionTheorems
  import opened SourcingTheorems
  import LedgerTheorems
  import PolicyEngine

  // ----- Issue, by the status of the vendor -----

  /** Approved, funded, to a known vendor, and every earlier order is cancelled. */
  predicate Orderable(db: Db, r: nat, v: nat) {
    r < |db.reqs| && db.reqs[r].status == ReqApproved && db.reqs[r].budget.Some? && v < |db.vendors|
    && forall p :: 0 <= p < |db.pos| && db.pos[p].requisition == r ==> db.pos[p].status == PoCancelled
  }

  predicate NeverSourced(db: Db, r: nat) {
    forall q :: 0 <= q < |db.quotes| ==> db.quotes[q].requisition != r
  }

  predicate IsAwardOf(db: Db, r: nat, q: nat) {
    q < |db.quotes| && db.quotes[q].requisition == r && db.quotes[q].status == QuoteAccepted
  }

  /** The award is to this vendor and may still be ordered. */
  predicate AwardUsable(db: Db, r: nat, v: nat, now: int, q: nat) {
    IsAwardOf(db, r, q) && db.quotes[q].vendor == v && StillValid(db.quotes[q], now)
  }

  predicate MayIssue(db: Db, r: nat, v: nat, now: int) {
    Orderable(db, r, v) && (NeverSourced(db, r) || exists q :: 0 <= q < |db.quotes| && AwardUsable(db, r, v, now, q))
  }

  lemma AwardIsThatOne(db: Db, r: nat, q: nat)
    requires QuotesOk(db.quotes) && IsAwardOf(db, r, q)
    ensures AcceptedOf(db.quotes, r, |db.quotes|) == [q] && Sourced(db.quotes, r)
  {
    OnlyAcceptedQuote(db.quotes, q, |db.quotes|);
  }

  lemma {:induction false} UnsourcedHasNoAward(db: Db, r: nat, n: nat)
    requires NeverSourced(db, r) && n <= |db.quotes|
    ensures AcceptedOf(db.quotes, r, n) == [] && !Sourced(db.quotes, r)
  {
    if n > 0 {
      UnsourcedHasNoAward(db, r, n - 1);
    }
  }

  /** The source's own reading of the quotes agrees with the plain one. */
  lemma AwardIsUsable(db: Db, r: nat, v: nat, now: int)
    requires QuotesOk(db.quotes)
    ensures var accepted := AcceptedOf(db.quotes, r, |db.quotes|);
            (NeverSourced(db, r) || exists q :: 0 <= q < |db.quotes| && AwardUsable(db, r, v, now, q))
            <==> !(Sourced(db.quotes, r) && |accepted| != 1)
                 && (|accepted| > 0 ==>
                       db.quotes[accepted[0]].vendor == v && !Expired(db.quotes[accepted[0]], now))
  {
    var accepted := AcceptedOf(db.quotes, r, |db.quotes|);
    if NeverSourced(db, r) {
      UnsourcedHasNoAward(db, r, |db.quotes|);
    } else if q :| 0 <= q < |db.quotes| && AwardUsable(db, r, v, now, q) {
      AwardIsThatOne(db, r, q);
    } else if |accepted| > 0 {
      assert IsAwardOf(db, r, accepted[0]) && !AwardUsable(db, r, v, now, accepted[0]);
    }
  }

  /** A blacklisted vendor is never ordered from: the issue is refused. */
  lemma BlacklistedIsRefused(db: Db, r: nat, v: nat, terms: Terms, actor: string, now: int)
    requires v < |db.vendors| && db.vendors[v].status == PolicyEngine.Blacklisted
    ensures IssuePo(db, r, v, terms, actor, now).Refused?
    ensures MayIssue(db, r, v, now) && QuotesOk(db.quotes) ==> IssuePo(db, r, v, terms, actor, now) == Refused(Conflict)
    ensures Step(db, EvIssue(r, v, terms, actor, now)) == db
  {
    if QuotesOk(db.quotes) {
      AwardIsUsable(db, r, v, now);
    }
  }

  /** An open gate that asks for vendor `v` on behalf of requisition `r`. */
  predicate AsksForVendor(a: Approval, r: nat, v: nat) {
    a.kind == PolicyEngine.VendorGate && a.requisition == Some(r) && a.vendor == Some(v) && a.status == Pending
  }

  predicate VendorIsAsked(db: Db, r: nat, v: nat) {
    exists k :: 0 <= k < |db.approvals| && AsksForVendor(db.approvals[k], r, v)
  }

  /** A prospective or watched vendor is not ordered from yet: the issue goes through
      exactly when everything but the vendor is in order, adds no order, and leaves a
      gate for procurement, unless one is open already. */
  lemma UnqualifiedIsAskedFor(db: Db, r: nat, v: nat, terms: Terms, actor: string, now: int)
    requires QuotesOk(db.quotes) && v < |db.vendors|
    requires db.vendors[v].status == PolicyEngine.Prospective || db.vendors[v].status == PolicyEngine.Watch
    ensures IssuePo(db, r, v, terms, actor, now).Done? <==> MayIssue(db, r, v, now)
    ensures MayIssue(db, r, v, now) ==>
              var after := After(db, IssuePo(db, r, v, terms, actor, now));
              VendorIsAsked(after, r, v)
              && (VendorIsAsked(db, r, v) ==> after == db)
              && (!VendorIsAsked(db, r, v) ==>
                    after == db.(approvals := db.approvals
                      + [Approval(PolicyEngine.VendorGate, Some(r), None, Some(v), Pending, actor, None,
                                  ["procurement"])]))
  {
    AwardIsUsable(db, r, v, now);
    var after := After(db, IssuePo(db, r, v, terms, actor, now));
    if MayIssue(db, r, v, now) && !VendorIsAsked(db, r, v) {
      assert AsksForVendor(after.approvals[|db.approvals|], r, v);
    }
  }

  predicate BudgetHolds(db: Db, r: nat, total: int)
    requires r < |db.reqs| && db.reqs[r].budget.Some?
  {
    var b := db.reqs[r].budget.value;
    b < |db.budgets| && db.budgets[b].currency == db.reqs[r].currency && FitsColumn(total)
    && db.budgets[b].committed + db.budgets[b].spent + total <= db.budgets[b].limit
  }

  /** How a budget that does not hold the total refuses. */
  function BudgetFault(db: Db, r: nat, total: int): Refusal
    requires r < |db.reqs| && db.reqs[r].budget.Some?
  {
    var b := db.reqs[r].budget.value;
    if b >= |db.budgets| then NotFound
    else if db.budgets[b].currency != db.reqs[r].currency || !FitsColumn(total) then BadRequest
    else Conflict
  }

  /** The new order, with its total committed; nothing else changes. */
  predicate Ordered(db: Db, after: Db, po: Po)
    requires po.requisition < |db.reqs| && db.reqs[po.requisition].budget.Some?
  {
    var b := db.reqs[po.requisition].budget.value;
    b < |db.budgets|
    && after == db.(pos := db.pos + [po],
                    budgets := db.budgets[b := db.budgets[b].(committed := db.budgets[b].committed + po.total)])
  }

  /** An active vendor, and no quotes: the order copies the lines of the requisition and
      commits their total, exactly when the budget still holds it. */
  lemma DirectOrder(db: Db, r: nat, v: nat, terms: Terms, actor: string, now: int)
    requires Orderable(db, r, v) && NeverSourced(db, r) && db.vendors[v].status == PolicyEngine.Active
    ensures var total := Sum(LineTotals(db.reqs[r].lines));
            (IssuePo(db, r, v, terms, actor, now).Done? <==> BudgetHolds(db, r, total))
            && (BudgetHolds(db, r, total) ==>
                  Ordered(db, After(db, IssuePo(db, r, v, terms, actor, now)),
                          Po(r, None, v, PoIssued, db.reqs[r].currency, total, db.reqs[r].lines, terms)))
            && (!BudgetHolds(db, r, total) ==>
                  IssuePo(db, r, v, terms, actor, now) == Refused(BudgetFault(db, r, total)))
  {
    UnsourcedHasNoAward(db, r, |db.quotes|);
  }

  /** Every offered line has a storable amount, and together they are the total. */
  predicate OfferAddsUp(quote: Quote) {
    quote.total.Some? && 0 < quote.total.value && FitsColumn(quote.total.value)
    && (|quote.lines| > 0 ==>
          (forall i :: 0 <= i < |quote.lines| ==>
             quote.lines[i].amount.Some? && FitsColumn(quote.lines[i].amount.value))
          && Sum(OfferAmounts(quote)) == quote.total.value)
  }

  function OfferAmounts(quote: Quote): seq<int> {
    seq(|quote.lines|, i requires 0 <= i < |quote.lines| =>
      if quote.lines[i].amount.Some? then quote.lines[i].amount.value else 0)
  }

  /** The offered quantity and price if they make up the amount, otherwise one piece. */
  predicate LineFromOffer(line: Line, offer: OfferLine) {
    offer.amount == Some(line.lineTotal)
    && (if offer.quantity.Some? && offer.unitPrice.Some? && 0 < offer.quantity.value && 0 <= offer.unitPrice.value
           && offer.quantity.value * offer.unitPrice.value == line.lineTotal
        then line.quantity == offer.quantity.value && line.unitPrice == offer.unitPrice.value
        else line.quantity == 1 && line.unitPrice == line.lineTotal)
  }

  predicate LinesFromOffer(lines: seq<Line>, quote: Quote)
    requires quote.total.Some?
  {
    if |quote.lines| == 0 then lines == [Line(1, quote.total.value, quote.total.value)]
    else |lines| == |quote.lines| && forall i :: 0 <= i < |lines| ==> LineFromOffer(lines[i], quote.lines[i])
  }

  lemma OfferedLines(quote: Quote)
    ensures LinesFromAwardedQuote(quote).GoodLines? <==> OfferAddsUp(quote)
    ensures OfferAddsUp(quote) ==>
              var lines := LinesFromAwardedQuote(quote).lines;
              LinesFromOffer(lines, quote) && Sum(LineTotals(lines)) == quote.total.value
  {
    if |quote.lines| > 0 && forall i :: 0 <= i < |quote.lines| ==> OfferLineOk(quote.lines[i]) {
      var lines := seq(|quote.lines|, i requires 0 <= i < |quote.lines| => OrderLineOf(quote.lines[i]));
      assert LineTotals(lines) == OfferAmounts(quote);
    } else if |quote.lines| == 0 && quote.total.Some? {
      SumSingle(quote.total.value);
      assert LineTotals([Line(1, quote.total.value, quote.total.value)]) == [quote.total.value];
    }
  }

  lemma OfferFault(quote: Quote)
    requires !OfferAddsUp(quote)
    ensures LinesFromAwardedQuote(quote) == BadLines(if quote.total.None? then Conflict else BadRequest)
  {
    OfferedLines(quote);
  }

  lemma SumSingle(x: int)
    ensures Sum([x]) == x
  {
    assert [x][..0] == [];
  }

  /** An active vendor, and an award: the order copies what was offered and commits the
      quoted total, exactly when the award is this vendor's, is still valid, adds up, was
      never ordered before, and the budget holds it. */
  lemma AwardedOrder(db: Db, r: nat, v: nat, terms: Terms, actor: string, now: int, q: nat)
    requires QuotesOk(db.quotes) && Orderable(db, r, v) && db.vendors[v].status == PolicyEngine.Active
    requires IsAwardOf(db, r, q)
    ensures var quote := db.quotes[q];
            IssuePo(db, r, v, terms, actor, now).Done?
            <==> AwardUsable(db, r, v, now, q) && quote.currency == db.reqs[r].currency && OfferAddsUp(quote)
                 && BudgetHolds(db, r, quote.total.value)
                 && forall p :: 0 <= p < |db.pos| ==> db.pos[p].quote != Some(q)
    ensures var quote, o := db.quotes[q], IssuePo(db, r, v, terms, actor, now);
            o.Done? ==>
              |o.db.pos| == |db.pos| + 1
              && var po := o.db.pos[|db.pos|];
                 quote.total.Some? && LinesFromOffer(po.lines, quote)
                 && Ordered(db, o.db, Po(r, Some(q), v, PoIssued, db.reqs[r].currency, quote.total.value, po.lines,
                                         terms))
  {
    AwardIsThatOne(db, r, q);
    OfferedLines(db.quotes[q]);
  }

  lemma UsableAwardCommits(db: Db, r: nat, v: nat, terms: Terms, actor: string, now: int, q: nat)
    requires QuotesOk(db.quotes) && Orderable(db, r, v) && db.vendors[v].status == PolicyEngine.Active
    requires AwardUsable(db, r, v, now, q)
    ensures IssuePo(db, r, v, terms, actor, now) == CommitOrder(db, r, v, Some(q), terms)
  {
    AwardIsThatOne(db, r, q);
  }

  /** An award that was ordered before is refused by the unique column alone. */
  lemma OrderedAwardIsRefused(db: Db, r: nat, v: nat, terms: Terms, actor: string, now: int, q: nat)
    requires QuotesOk(db.quotes) && Orderable(db, r, v) && db.vendors[v].status == PolicyEngine.Active
    requires AwardUsable(db, r, v, now, q) && db.quotes[q].currency == db.reqs[r].currency
    requires OfferAddsUp(db.quotes[q]) && BudgetHolds(db, r, db.quotes[q].total.value)
    requires exists p :: 0 <= p < |db.pos| && db.pos[p].quote == Some(q)
    ensures IssuePo(db, r, v, terms, actor, now) == Refused(UniqueViolation)
  {
    UsableAwardCommits(db, r, v, terms, actor, now, q);
    OfferedLines(db.quotes[q]);
    assert QuoteUsed(db.pos, q);
  }

  /** How an award that is in order otherwise is refused for its currency, its offer or
      its budget, in this order. */
  lemma AwardRefusals(db: Db, r: nat, v: nat, terms: Terms, actor: string, now: int, q: nat)
    requires QuotesOk(db.quotes) && Orderable(db, r, v) && db.vendors[v].status == PolicyEngine.Active
    requires AwardUsable(db, r, v, now, q)
    requires var b := db.reqs[r].budget.value; b < |db.budgets| && db.budgets[b].currency == db.reqs[r].currency
    ensures var quote, o := db.quotes[q], IssuePo(db, r, v, terms, actor, now);
            (quote.currency != db.reqs[r].currency ==> o == Refused(BadRequest))
            && (quote.currency == db.reqs[r].currency && !OfferAddsUp(quote) ==>
                  o == Refused(if quote.total.None? then Conflict else BadRequest))
            && (quote.currency == db.reqs[r].currency && OfferAddsUp(quote)
                && !BudgetHolds(db, r, quote.total.value) ==>
                  o == Refused(Conflict))
  {
    UsableAwardCommits(db, r, v, terms, actor, now, q);
    OfferedLines(db.quotes[q]);
    if !OfferAddsUp(db.quotes[q]) {
      OfferFault(db.quotes[q]);
    }
  }

  /** Several quotes and none of them awarded, or an award to somebody else: no order. */
  lemma NoOrderPastTheAward(db: Db, r: nat, v: nat, terms: Terms, actor: string, now: int)
    requires QuotesOk(db.quotes) && !MayIssue(db, r, v, now)
    ensures IssuePo(db, r, v, terms, actor, now)
         == Refused(if r >= |db.reqs| then NotFound
                    else if db.reqs[r].status != ReqApproved || db.reqs[r].budget.None? then Conflict
                    else if v >= |db.vendors| then NotFound
                    else Conflict)
  {
    AwardIsUsable(db, r, v, now);
  }

  /** Whatever the step: an order that was added is from an active vendor, for a
      requisition that is approved and had no live order. */
  lemma NewOrderIsQualified(db: Db, e: Event)
    requires |Step(db, e).pos| > |db.pos|
    ensures e.EvIssue? && Orderable(db, e.r, e.v) && db.vendors[e.v].status == PolicyEngine.Active
    ensures |Step(db, e).pos| == |db.pos| + 1
            && var po := Step(db, e).pos[|db.pos|];
               po.requisition == e.r && po.vendor == e.v && po.status == PoIssued && po.terms == e.terms
  {
    if e.EvDecide? {
      NoDecisionAddsOrders(db, e);
    } else if !e.EvIssue? {
      OnlyIssueAddsOrders(db, e);
    }
  }

  lemma OnlyIssueAddsOrders(db: Db, e: Event)
    requires !e.EvIssue? && !e.EvDecide?
    ensures |Step(db, e).pos| == |db.pos|
  {
  }

  lemma NoDecisionAddsOrders(db: Db, e: Event)
    requires e.EvDecide?
    ensures |Step(db, e).pos| == |db.pos|
  {
    LedgerTheorems.DecisionMovesOneOrder(db, e.k, e.verdict, e.actor, e.credentials);
  }

  // ----- Confirmation and cancellation requests -----

  /** Exactly an issued order is confirmed. */
  lemma ConfirmationMoves(db: Db, p: nat)
    ensures ConfirmPo(db, p)
         == (if p >= |db.pos| then Refused(NotFound)
             else if db.pos[p].status == PoIssued
             then Done(db.(pos := db.pos[p := db.pos[p].(status := PoConfirmed)]))
             else Refused(Conflict))
  {
  }

  predicate AsksToCancel(a: Approval, p: nat) {
    a.kind == PolicyEngine.PoCancellation && a.po == Some(p) && a.status == Pending
  }

  predicate CancellationIsAsked(db: Db, p: nat) {
    exists k :: 0 <= k < |db.approvals| && AsksToCancel(db.approvals[k], p)
  }

  /** A live order can be asked to be cancelled; finance decides, and an open question
      is not asked twice. */
  lemma CancellationIsAskedFor(db: Db, p: nat, actor: string)
    ensures RequestCancellation(db, p, actor).Done? <==> p < |db.pos| && db.pos[p].status != PoCancelled
    ensures RequestCancellation(db, p, actor).Refused? ==>
              RequestCancellation(db, p, actor).why == (if p < |db.pos| then Conflict else NotFound)
    ensures RequestCancellation(db, p, actor).Done? ==>
              var after := RequestCancellation(db, p, actor).db;
              CancellationIsAsked(after, p)
              && (CancellationIsAsked(db, p) ==> after == db)
              && (!CancellationIsAsked(db, p) ==>
                    after == db.(approvals := db.approvals
                      + [Approval(PolicyEngine.PoCancellation, Some(db.pos[p].requisition), Some(p), None, Pending,
                                  actor, None, ["finance"])]))
  {
    var o := RequestCancellation(db, p, actor);
    if o.Done? && !CancellationIsAsked(db, p) {
      assert AsksToCancel(o.db.approvals[|db.approvals|], p);
    }
  }

  /** Nothing of the order is paid, and no run that can still pay is about it. */
  predicate Unclaimed(db: Db, p: nat) {
    (forall i :: 0 <= i < |db.invoices| && db.invoices[i].po == Some(p) ==> db.invoices[i].status != Paid)
    && forall l :: 0 <= l < |db.runLines| && db.runLines[l].invoice < |db.invoices|
                   && db.invoices[db.runLines[l].invoice].po == Some(p) ==>
         db.runLines[l].status != LinePaid
         && !(db.runLines[l].status == Planned && db.runLines[l].run < |db.runs|
              && db.runs[db.runLines[l].run].status != RunVoided)
  }

  lemma CorrectionNeedsUnclaimed(db: Db, p: nat)
    ensures CorrectionAllowed(db, p) <==> Unclaimed(db, p)
  {
  }

  predicate NothingReceivedOn(db: Db, p: nat) {
    forall r :: 0 <= r < |db.receipts| && db.receipts[r].po == p ==> !db.receipts[r].recorded
  }

  /** The budget of the order is there, in its currency, and has its whole commitment. */
  predicate CommitmentIsThere(db: Db, po: Po) {
    FitsColumn(po.total) && po.requisition < |db.reqs| && db.reqs[po.requisition].budget.Some?
    && var b := db.reqs[po.requisition].budget.value;
       b < |db.budgets| && db.budgets[b].currency == po.currency && po.total <= db.budgets[b].committed
  }

  /** How a budget without the commitment refuses. */
  function CommitmentFault(db: Db, po: Po): Refusal {
    if !FitsColumn(po.total) then BadRequest
    else if po.requisition >= |db.reqs| then NotFound
    else if db.reqs[po.requisition].budget.Some? && db.reqs[po.requisition].budget.value >= |db.budgets| then NotFound
    else Conflict
  }

  lemma CancelOrderExactly(db: Db, p: nat, requisition: Option<nat>)
    requires p < |db.pos| && db.pos[p].status != PoCancelled
    ensures CancelOrder(db, p, requisition).Done?
       <==> requisition == Some(db.pos[p].requisition) && Unclaimed(db, p) && NothingReceivedOn(db, p)
            && CommitmentIsThere(db, db.pos[p])
    ensures CancelOrder(db, p, requisition).Refused? ==>
              CancelOrder(db, p, requisition).why
              == (if requisition == Some(db.pos[p].requisition) && Unclaimed(db, p) && NothingReceivedOn(db, p)
                  then CommitmentFault(db, db.pos[p]) else Conflict)
  {
    CorrectionNeedsUnclaimed(db, p);
  }

  /** The approval of a cancellation of a live order goes through exactly when it is
      allowed, the gate names the order's own requisition, nothing of the order is
      claimed, paid or received, and its budget has the whole commitment. */
  lemma CancellationGoesThrough(db: Db, k: nat, verdict: Verdict, actor: string, c: Credentials, p: nat)
    requires p < |db.pos| && db.pos[p].status != PoCancelled && verdict != Reject
    requires k < |db.approvals| && db.approvals[k].kind == PolicyEngine.PoCancellation
    requires db.approvals[k].po == Some(p)
    ensures Decide(db, k, verdict, actor, c).Done?
       <==> DecisionAllowed(db, k, verdict, actor, c) && db.approvals[k].requisition == Some(db.pos[p].requisition)
            && Unclaimed(db, p) && NothingReceivedOn(db, p) && CommitmentIsThere(db, db.pos[p])
    ensures DecisionAllowed(db, k, verdict, actor, c) && Decide(db, k, verdict, actor, c).Refused? ==>
              Decide(db, k, verdict, actor, c).why
              == (if db.approvals[k].requisition == Some(db.pos[p].requisition) && Unclaimed(db, p)
                     && NothingReceivedOn(db, p)
                  then CommitmentFault(db, db.pos[p]) else Conflict)
  {
    var decided := db.(approvals := db.approvals[k := db.approvals[k].(
                         status := DecidedStatus(verdict), decidedBy := Some(Human(actor)))]);
    CancelOrderExactly(decided, p, db.approvals[k].requisition);
    assert DecisionEffect(decided, db.approvals[k], verdict) == CancelOrder(decided, p, db.approvals[k].requisition);
  }

  // ----- No question is open twice -----

  /** Both ask for the same vendor, or to cancel the same order, and both are open. */
  predicate SameQuestion(a: Approval, b: Approval) {
    a.status == Pending && b.status == Pending && a.kind == b.kind
    && ((a.kind == PolicyEngine.VendorGate && a.requisition == b.requisition && a.vendor == b.vendor)
        || (a.kind == PolicyEngine.PoCancellation && a.po == b.po))
  }

  predicate NothingAskedTwice(approvals: seq<Approval>) {
    forall j, k :: 0 <= j < k < |approvals| ==> !SameQuestion(approvals[j], approvals[k])
  }

  predicate NewQuestion(approvals: seq<Approval>, a: Approval) {
    forall j :: 0 <= j < |approvals| ==> !SameQuestion(approvals[j], a)
  }

  lemma IssueAsksOnce(db: Db, r: nat, v: nat, terms: Terms, actor: string, now: int)
    requires NothingAskedTwice(db.approvals)
    ensures NothingAskedTwice(After(db, IssuePo(db, r, v, terms, actor, now)).approvals)
  {
    var after := After(db, IssuePo(db, r, v, terms, actor, now));
    if after.approvals != db.approvals {
      assert NewQuestion(db.approvals, after.approvals[|db.approvals|]);
    }
  }

  lemma CancellationAsksOnce(db: Db, p: nat, actor: string)
    requires NothingAskedTwice(db.approvals)
    ensures NothingAskedTwice(After(db, RequestCancellation(db, p, actor)).approvals)
  {
    var after := After(db, RequestCancellation(db, p, actor));
    if after.approvals != db.approvals {
      assert NewQuestion(db.approvals, after.approvals[|db.approvals|]);
    }
  }

  lemma SubmissionAsksElse(db: Db, r: nat, policy: Option<PolicyEngine.ThresholdPolicy>)
    requires NothingAskedTwice(db.approvals)
    ensures NothingAskedTwice(After(db, SubmitRequisition(db, r, policy)).approvals)
  {
    if SubmitRequisition(db, r, policy).Done? {
      SubmissionOpensGate(db, r, policy);
      assert NewQuestion(db.approvals, SubmitRequisition(db, r, policy).db.approvals[|db.approvals|]);
    }
  }

  lemma StepAsksOnce(db: Db, e: Event)
    requires NothingAskedTwice(db.approvals)
    ensures NothingAskedTwice(Step(db, e).approvals)
  {
    match e
    case EvSubmit(r, policy) => SubmissionAsksElse(db, r, policy);
    case EvIssue(r, v, terms, actor, now) => IssueAsksOnce(db, r, v, terms, actor, now);
    case EvRequestCancellation(p, actor) => CancellationAsksOnce(db, p, actor);
    case EvDecide(k, verdict, actor, c) =>
      if Decide(db, k, verdict, actor, c).Done? {
        DecisionIsRecorded(db, k, verdict, actor, c);
      }
    case _ => OthersKeepSpend(db, e);
  }

  /** Over every history, each order has at most one open cancellation, and each pair of
      requisition and vendor at most one open vendor gate. */
  lemma {:induction false} NothingIsAskedTwice(history: seq<Event>)
    ensures NothingAskedTwice(LedgerSteps.Replay(history).approvals)
  {
    if |history| > 0 {
      var before := history[..|history| - 1];
      NothingIsAskedTwice(before);
      StepAsksOnce(LedgerSteps.Replay(before), history[|history| - 1]);
    }
  }
}

/** Sourcing and issue over whole histories: what an award fixes, and who may
    decide what. */
module SourcingTheorems {
  import opened Common
  import opened Sums
  import opened Matching
  import opened LedgerModel
  import opened LedgerSteps
  import opened LedgerTheorems
  import LedgerSafety

  /** However requests, quotes, awards, orders and cancellations interleave, a
      requisition has at most one accepted quote and at most one live order. */
  lemma OneAwardOneOrder(history: seq<Event>)
    ensures var db := LedgerSteps.Replay(history);
            (forall i, j :: 0 <= i < j < |db.quotes| && db.quotes[i].requisition == db.quotes[j].requisition ==>
              !(db.quotes[i].status == QuoteAccepted && db.quotes[j].status == QuoteAccepted))
            && (forall p, q :: 0 <= p < q < |db.pos| && db.pos[p].requisition == db.pos[q].requisition ==>
                  !(IsLive(db.pos[p]) && IsLive(db.pos[q])))
  {
    EveryHistoryIsSafe(history);
  }

  // ----- Requests, offers and the award -----

  predicate StillValid(quote: Quote, now: int) {
    quote.validUntil.Some? ==> now <= quote.validUntil.value
  }

  predicate AskedOf(quotes: seq<Quote>, r: nat, v: nat) {
    exists q :: 0 <= q < |quotes| && quotes[q].requisition == r && quotes[q].vendor == v
  }

  /** The table grew by open requests of `r` alone, each to one of the vendors. */
  predicate RequestsAdded(before: seq<Quote>, after: seq<Quote>, r: nat, vendors: seq<nat>, currency: string) {
    before <= after
    && (forall q :: |before| <= q < |after| ==>
          after[q] == Quote(r, after[q].vendor, QuoteRequested, currency, None, None, [])
          && after[q].vendor in vendors && !AskedOf(after[..q], r, after[q].vendor))
    && forall i :: 0 <= i < |vendors| ==> AskedOf(after, r, vendors[i])
  }

  lemma {:induction false} EveryVendorIsAsked(quotes: seq<Quote>, r: nat, vendors: seq<nat>, currency: string)
    ensures RequestsAdded(quotes, WithRequested(quotes, r, vendors, currency), r, vendors, currency)
    decreases |vendors|
  {
    if |vendors| > 0 {
      var next := OneRequested(quotes, r, vendors[0], currency);
      var after := WithRequested(next, r, vendors[1..], currency);
      EveryVendorIsAsked(next, r, vendors[1..], currency);
      OneIsAsked(quotes, r, vendors[0], currency);
      RequestsChain(quotes, next, after, r, vendors, currency);
    }
  }

  function OneRequested(quotes: seq<Quote>, r: nat, v: nat, currency: string): seq<Quote> {
    if HasQuote(quotes, r, v) then quotes
    else quotes + [Quote(r, v, QuoteRequested, currency, None, None, [])]
  }

  lemma OneIsAsked(quotes: seq<Quote>, r: nat, v: nat, currency: string)
    ensures RequestsAdded(quotes, OneRequested(quotes, r, v, currency), r, [v], currency)
  {
    var next := OneRequested(quotes, r, v, currency);
    assert !HasQuote(quotes, r, v) ==> next[|quotes|].vendor == v && next[..|quotes|] == quotes;
  }

  lemma RequestsChain(a: seq<Quote>, b: seq<Quote>, c: seq<Quote>, r: nat, vendors: seq<nat>, currency: string)
    requires |vendors| > 0 && RequestsAdded(a, b, r, [vendors[0]], currency)
    requires RequestsAdded(b, c, r, vendors[1..], currency)
    ensures RequestsAdded(a, c, r, vendors, currency)
  {
    forall q | |a| <= q < |c|
      ensures c[q] == Quote(r, c[q].vendor, QuoteRequested, currency, None, None, [])
      ensures c[q].vendor in vendors && !AskedOf(c[..q], r, c[q].vendor)
    {
      if q < |b| {
        assert c[q] == b[q] && c[..q] == b[..q];
      }
    }
    forall i | 0 <= i < |vendors| ensures AskedOf(c, r, vendors[i]) {
      if i == 0 {
        assert AskedOf(b, r, [vendors[0]][0]);
        var q :| 0 <= q < |b| && b[q].requisition == r && b[q].vendor == vendors[0];
        assert c[q] == b[q];
      } else {
        assert AskedOf(c, r, vendors[1..][i - 1]);
      }
    }
  }

  /** Vendors are asked for an approved requisition only, all of them must exist, and
      each of them has exactly one row afterwards; earlier rows stay as they are. */
  lemma RequestsReachEveryVendor(db: Db, r: nat, vendors: seq<nat>)
    ensures RequestQuotes(db, r, vendors).Done?
       <==> r < |db.reqs| && db.reqs[r].status == ReqApproved
            && forall i :: 0 <= i < |vendors| ==> vendors[i] < |db.vendors|
    ensures RequestQuotes(db, r, vendors).Refused? ==>
              RequestQuotes(db, r, vendors).why
              == (if r < |db.reqs| && db.reqs[r].status != ReqApproved then Conflict else NotFound)
    ensures RequestQuotes(db, r, vendors).Done? ==>
              var after := RequestQuotes(db, r, vendors).db;
              after == db.(quotes := after.quotes)
              && RequestsAdded(db.quotes, after.quotes, r, vendors, db.reqs[r].currency)
  {
    if r < |db.reqs| {
      EveryVendorIsAsked(db.quotes, r, vendors, db.reqs[r].currency);
    }
  }

  /** An offer is taken for an open request or in place of an earlier offer, for a
      positive total in the currency of the request; what it leaves out stays. */
  lemma OfferIsRecorded(db: Db, q: nat, total: int, currency: Option<string>, validUntil: Option<int>,
                        lines: Option<seq<OfferLine>>)
    ensures ReceiveQuote(db, q, total, currency, validUntil, lines).Done?
       <==> q < |db.quotes| && 0 < total <= 2_147_483_647
            && (currency.Some? ==> currency.value == db.quotes[q].currency)
            && db.quotes[q].status in {QuoteRequested, QuoteReceived}
    ensures ReceiveQuote(db, q, total, currency, validUntil, lines).Refused? ==>
              ReceiveQuote(db, q, total, currency, validUntil, lines).why
              == (if q >= |db.quotes| then NotFound
                  else if 0 < total <= 2_147_483_647 && (currency.Some? ==> currency.value == db.quotes[q].currency)
                  then Conflict
                  else BadRequest)
    ensures ReceiveQuote(db, q, total, currency, validUntil, lines).Done? ==>
              var after := ReceiveQuote(db, q, total, currency, validUntil, lines).db;
              |after.quotes| == |db.quotes| && after == db.(quotes := db.quotes[q := after.quotes[q]])
              && after.quotes[q] == Quote(db.quotes[q].requisition, db.quotes[q].vendor, QuoteReceived,
                                          db.quotes[q].currency, Some(total), after.quotes[q].validUntil,
                                          after.quotes[q].lines)
              && after.quotes[q].validUntil == (if validUntil.Some? then validUntil else db.quotes[q].validUntil)
              && Some(after.quotes[q].lines) == (if lines.Some? then lines else Some(db.quotes[q].lines))
  {
  }

  /** What the award does to one quote. */
  predicate JudgedByAward(before: Quote, after: Quote, winner: bool, r: nat) {
    after == before.(status := if winner then QuoteAccepted
                               else if before.requisition == r && before.status == QuoteReceived then QuoteRejected
                               else before.status)
  }

  /** A received, still valid offer in the requisition's currency wins if nothing was
      accepted before; the other offers of the requisition lose, and nothing else moves. */
  lemma AwardDecides(db: Db, q: nat, now: int)
    ensures AwardQuote(db, q, now).Done?
       <==> q < |db.quotes| && db.quotes[q].status == QuoteReceived && db.quotes[q].total.Some?
            && StillValid(db.quotes[q], now)
            && db.quotes[q].requisition < |db.reqs|
            && db.quotes[q].currency == db.reqs[db.quotes[q].requisition].currency
            && forall i :: 0 <= i < |db.quotes| && db.quotes[i].requisition == db.quotes[q].requisition ==>
                 db.quotes[i].status != QuoteAccepted
    ensures AwardQuote(db, q, now).Refused? ==>
              AwardQuote(db, q, now).why
              == (if q >= |db.quotes| then NotFound
                  else if db.quotes[q].total.None? then BadRequest
                  else if !StillValid(db.quotes[q], now) then Conflict
                  else if db.quotes[q].requisition >= |db.reqs| then NotFound
                  else if db.quotes[q].currency != db.reqs[db.quotes[q].requisition].currency then BadRequest
                  else Conflict)
    ensures AwardQuote(db, q, now).Done? ==>
              var after := AwardQuote(db, q, now).db;
              after == db.(quotes := after.quotes) && |after.quotes| == |db.quotes|
              && forall i :: 0 <= i < |db.quotes| ==>
                   JudgedByAward(db.quotes[i], after.quotes[i], i == q, db.quotes[q].requisition)
  {
  }

  // ----- An order is what was awarded -----

  /** The order was issued against an accepted quote, to its vendor, for its
      requisition and at its total. */
  predicate FollowsAward(quotes: seq<Quote>, po: Po) {
    po.quote.Some? ==>
      var q := po.quote.value;
      q < |quotes| && quotes[q].status == QuoteAccepted
      && quotes[q].requisition == po.requisition && quotes[q].vendor == po.vendor
      && quotes[q].total == Some(po.total) && quotes[q].currency == po.currency
  }

  predicate OrdersFollowAwards(quotes: seq<Quote>, pos: seq<Po>) {
    forall p :: 0 <= p < |pos| ==> FollowsAward(quotes, pos[p])
  }

  /** An accepted quote is never touched again. */
  predicate AwardsStay(before: seq<Quote>, after: seq<Quote>) {
    |before| <= |after|
    && forall q :: 0 <= q < |before| && before[q].status == QuoteAccepted ==> after[q] == before[q]
  }

  lemma {:induction false} RequestsKeepRows(quotes: seq<Quote>, r: nat, vendors: seq<nat>, currency: string)
    ensures |quotes| <= |WithRequested(quotes, r, vendors, currency)|
    ensures WithRequested(quotes, r, vendors, currency)[..|quotes|] == quotes
    decreases |vendors|
  {
    if |vendors| > 0 {
      var next := if HasQuote(quotes, r, vendors[0]) then quotes
                  else quotes + [Quote(r, vendors[0], QuoteRequested, currency, None, None, [])];
      RequestsKeepRows(next, r, vendors[1..], currency);
      assert next[..|quotes|] == quotes;
    }
  }

  lemma RequestingKeepsAwards(db: Db, r: nat, vendors: seq<nat>)
    ensures AwardsStay(db.quotes, After(db, RequestQuotes(db, r, vendors)).quotes)
  {
    var o := RequestQuotes(db, r, vendors);
    if o.Done? {
      RequestsKeepRows(db.quotes, r, vendors, db.reqs[r].currency);
      forall q | 0 <= q < |db.quotes| ensures o.db.quotes[q] == db.quotes[q] {
        assert o.db.quotes[..|db.quotes|][q] == db.quotes[q];
      }
    }
  }

  predicate TouchesQuotes(e: Event) {
    e.EvRequestQuotes? || e.EvReceiveQuote? || e.EvAward?
  }

  lemma OfferKeepsAwards(db: Db, q: nat, total: int, currency: Option<string>, validUntil: Option<int>,
                         lines: Option<seq<OfferLine>>)
    ensures AwardsStay(db.quotes, After(db, ReceiveQuote(db, q, total, currency, validUntil, lines)).quotes)
  {
  }

  lemma AwardKeepsAwards(db: Db, q: nat, now: int)
    ensures AwardsStay(db.quotes, After(db, AwardQuote(db, q, now)).quotes)
  {
  }

  lemma OthersKeepQuotes(db: Db, e: Event)
    requires !TouchesQuotes(e)
    ensures Step(db, e).quotes == db.quotes
  {
  }

  lemma AwardIsFinal(db: Db, e: Event)
    requires QuotesOk(db.quotes)
    ensures AwardsStay(db.quotes, Step(db, e).quotes)
    ensures !TouchesQuotes(e) ==> Step(db, e).quotes == db.quotes
  {
    match e
    case EvRequestQuotes(r, vendors) => RequestingKeepsAwards(db, r, vendors);
    case EvReceiveQuote(q, total, offered, until, offer) => OfferKeepsAwards(db, q, total, offered, until, offer);
    case EvAward(q, now) => AwardKeepsAwards(db, q, now);
    case _ => OthersKeepQuotes(db, e);
  }

  lemma IssuedOrderFollowsAward(db: Db, r: nat, v: nat, terms: Terms, actor: string, now: int)
    requires OrdersFollowAwards(db.quotes, db.pos)
    ensures OrdersFollowAwards(db.quotes, Step(db, EvIssue(r, v, terms, actor, now)).pos)
  {
    var o := IssuePo(db, r, v, terms, actor, now);
    if o.Done? && o.db.pos != db.pos {
      var accepted := AcceptedOf(db.quotes, r, |db.quotes|);
      var po := o.db.pos[|db.pos|];
      assert o.db.pos == db.pos + [po];
      if |accepted| > 0 {
        LedgerSafety.AwardedLinesOk(db.quotes[accepted[0]]);
      }
      assert FollowsAward(db.quotes, po);
    }
  }

  lemma SameAwards(before: seq<Quote>, after: seq<Quote>, a: seq<Po>, b: seq<Po>)
    requires AwardsStay(before, after) && OrdersFollowAwards(before, a)
    requires |a| == |b|
    requires forall p :: 0 <= p < |a| ==> b[p] == a[p].(status := b[p].status)
    ensures OrdersFollowAwards(after, b)
  {
    forall p | 0 <= p < |b| ensures FollowsAward(after, b[p]) {
      assert FollowsAward(before, a[p]);
    }
  }

  predicate MovesOrders(e: Event) {
    e.EvIssue? || e.EvConfirm? || e.EvDecide?
  }

  lemma OtherStepsKeepOrders(db: Db, e: Event)
    requires !MovesOrders(e)
    ensures Step(db, e).pos == db.pos
  {
  }

  lemma StepFollowsAwards(db: Db, e: Event)
    requires QuotesOk(db.quotes) && OrdersFollowAwards(db.quotes, db.pos)
    ensures OrdersFollowAwards(Step(db, e).quotes, Step(db, e).pos)
  {
    AwardIsFinal(db, e);
    if e.EvIssue? {
      IssuedOrderFollowsAward(db, e.r, e.v, e.terms, e.actor, e.now);
    } else {
      if e.EvDecide? {
        DecisionMovesOneOrder(db, e.k, e.verdict, e.actor, e.credentials);
      } else if !e.EvConfirm? {
        OtherStepsKeepOrders(db, e);
      }
      SameAwards(db.quotes, Step(db, e).quotes, db.pos, Step(db, e).pos);
    }
  }

  /** In every reachable state an order issued against a quote still has its
      award: same requisition, vendor, currency and total. */
  lemma {:induction false} OrdersMatchAwards(history: seq<Event>)
    ensures var db := LedgerSteps.Replay(history); OrdersFollowAwards(db.quotes, db.pos)
  {
    if |history| > 0 {
      var before := history[..|history| - 1];
      OrdersMatchAwards(before);
      EveryHistoryIsSafe(before);
      StepFollowsAwards(LedgerSteps.Replay(before), history[|history| - 1]);
    }
  }

  // ----- A sourced requisition is ordered once -----

  /** The accepted quote `q` of its requisition already has an order. */
  predicate AwardOrdered(db: Db, q: nat) {
    q < |db.quotes| && db.quotes[q].status == QuoteAccepted && QuoteUsed(db.pos, q)
  }

  lemma {:induction false} OnlyAcceptedQuote(quotes: seq<Quote>, q: nat, n: nat)
    requires QuotesOk(quotes) && q < n <= |quotes| && quotes[q].status == QuoteAccepted
    ensures AcceptedOf(quotes, quotes[q].requisition, n) == [q]
  {
    if n - 1 == q {
      NoOtherAccepted(quotes, q, q);
    } else {
      OnlyAcceptedQuote(quotes, q, n - 1);
    }
  }

  lemma {:induction false} NoOtherAccepted(quotes: seq<Quote>, q: nat, n: nat)
    requires QuotesOk(quotes) && n <= q < |quotes| && quotes[q].status == QuoteAccepted
    ensures AcceptedOf(quotes, quotes[q].requisition, n) == []
  {
    if n > 0 {
      NoOtherAccepted(quotes, q, n - 1);
    }
  }

  /** The unique award column refuses a second order for the same award, so an
      attempt to issue the requisition again never adds one, whatever became of
      the first order. */
  lemma ReissueAddsNothing(db: Db, q: nat, v: nat, terms: Terms, actor: string, now: int)
    requires QuotesOk(db.quotes) && AwardOrdered(db, q)
    ensures Step(db, EvIssue(db.quotes[q].requisition, v, terms, actor, now)).pos == db.pos
  {
    OnlyAcceptedQuote(db.quotes, q, |db.quotes|);
  }

  lemma {:induction false} AcceptedOfIsComplete(quotes: seq<Quote>, r: nat, n: nat)
    requires n <= |quotes|
    ensures forall q :: 0 <= q < n && quotes[q].requisition == r && quotes[q].status == QuoteAccepted ==>
              q in AcceptedOf(quotes, r, n)
  {
    if n > 0 {
      AcceptedOfIsComplete(quotes, r, n - 1);
    }
  }

  /** The lines an order of requisition `r` would get. */
  function LinesFor(db: Db, r: nat): OrderLines
    requires r < |db.reqs|
  {
    var accepted := AcceptedOf(db.quotes, r, |db.quotes|);
    if |accepted| > 0 then LinesFromAwardedQuote(db.quotes[accepted[0]]) else GoodLines(db.reqs[r].lines)
  }

  /** Every gate of an issue but the unique award column. */
  predicate OtherGatesPass(db: Db, r: nat, v: nat, now: int) {
    r < |db.reqs| && db.reqs[r].status == ReqApproved && v < |db.vendors|
    && (forall p :: 0 <= p < |db.pos| && db.pos[p].requisition == r ==> db.pos[p].status == PoCancelled)
    && db.reqs[r].budget.Some? && db.reqs[r].budget.value < |db.budgets|
    && db.budgets[db.reqs[r].budget.value].currency == db.reqs[r].currency
    && db.vendors[v].status == PolicyEngine.Active
    && AwardFits(db, r, v, now)
    && LinesFor(db, r).GoodLines?
    && FitsBudget(db.budgets[db.reqs[r].budget.value], Sum(LineTotals(LinesFor(db, r).lines)))
  }

  /** No quotes at all, or exactly one accepted, of this vendor, in this currency
      and not expired. */
  predicate AwardFits(db: Db, r: nat, v: nat, now: int)
    requires r < |db.reqs|
  {
    var accepted := AcceptedOf(db.quotes, r, |db.quotes|);
    ((exists q :: 0 <= q < |db.quotes| && db.quotes[q].requisition == r) ==> |accepted| == 1)
    && (|accepted| > 0 ==>
          db.quotes[accepted[0]].vendor == v && StillValid(db.quotes[accepted[0]], now)
          && db.quotes[accepted[0]].currency == db.reqs[r].currency)
  }

  predicate FitsBudget(b: Budget, total: int) {
    IsDatabaseInt(total) && b.committed + b.spent + total <= b.limit
  }

  /** Exact: an issue adds an order if and only if the other gates pass and no
      accepted quote of the requisition was ever ordered before. */
  lemma IssueAddsExactly(db: Db, r: nat, v: nat, terms: Terms, actor: string, now: int)
    ensures Step(db, EvIssue(r, v, terms, actor, now)).pos != db.pos
       <==> OtherGatesPass(db, r, v, now)
            && forall q ::
                 0 <= q < |db.quotes| && db.quotes[q].requisition == r && db.quotes[q].status == QuoteAccepted
                 ==> !QuoteUsed(db.pos, q)
  {
    AcceptedOfIsComplete(db.quotes, r, |db.quotes|);
    var accepted := AcceptedOf(db.quotes, r, |db.quotes|);
    if |accepted| > 0 {
      assert accepted[0] in accepted;
    }
    if |accepted| == 1 {
      assert accepted == [accepted[0]];
    }
  }

  function OrdersOf(pos: seq<Po>, r: nat): seq<int> {
    seq(|pos|, p requires 0 <= p < |pos| => if pos[p].requisition == r then 1 else 0)
  }

  /** Number of orders ever issued for requisition `r`, cancelled ones included. */
  function OrderCount(pos: seq<Po>, r: nat): int {
    Sum(OrdersOf(pos, r))
  }

  lemma IssueAddsOneOrder(db: Db, r: nat, v: nat, terms: Terms, actor: string, now: int, other: nat)
    ensures var after := Step(db, EvIssue(r, v, terms, actor, now)).pos;
            after == db.pos
            || (OrderCount(after, other) == OrderCount(db.pos, other) + (if other == r then 1 else 0)
                && db.pos <= after)
  {
    var after := Step(db, EvIssue(r, v, terms, actor, now)).pos;
    if after != db.pos {
      assert OrdersOf(after, other)[..|db.pos|] == OrdersOf(db.pos, other);
    }
  }

  lemma OrderedStep(db: Db, e: Event, q: nat)
    requires QuotesOk(db.quotes) && AwardOrdered(db, q)
    ensures AwardOrdered(Step(db, e), q)
    ensures Step(db, e).quotes[q] == db.quotes[q]
    ensures OrderCount(Step(db, e).pos, db.quotes[q].requisition) == OrderCount(db.pos, db.quotes[q].requisition)
  {
    var r, after := db.quotes[q].requisition, Step(db, e);
    AwardIsFinal(db, e);
    var p :| 0 <= p < |db.pos| && db.pos[p].quote == Some(q);
    if e.EvIssue? {
      IssueAddsOneOrder(db, e.r, e.v, e.terms, e.actor, e.now, r);
      if e.r == r {
        ReissueAddsNothing(db, q, e.v, e.terms, e.actor, e.now);
      }
    } else {
      if e.EvDecide? {
        DecisionMovesOneOrder(db, e.k, e.verdict, e.actor, e.credentials);
      } else if !e.EvConfirm? {
        OtherStepsKeepOrders(db, e);
      }
      assert OrdersOf(after.pos, r) == OrdersOf(db.pos, r);
    }
    assert after.pos[p].quote == Some(q);
  }

  /** From the moment an award has its order, the requisition never gets another
      one, even after that order is cancelled. */
  lemma {:induction false} SourcedOrderedOnce(history: seq<Event>, more: seq<Event>, q: nat)
    requires AwardOrdered(LedgerSteps.Replay(history), q)
    ensures var was, now := LedgerSteps.Replay(history), LedgerSteps.Replay(history + more);
            AwardOrdered(now, q) && now.quotes[q] == was.quotes[q]
            && OrderCount(now.pos, was.quotes[q].requisition) == OrderCount(was.pos, was.quotes[q].requisition)
    decreases |more|
  {
    if |more| == 0 {
      assert history + more == history;
    } else {
      var k := |more| - 1;
      SourcedOrderedOnce(history, more[..k], q);
      EveryHistoryIsSafe(history + more[..k]);
      OrderedStep(LedgerSteps.Replay(history + more[..k]), more[k], q);
      assert (history + more)[..|history + more| - 1] == history + more[..k];
    }
  }

  // ----- Separation of duties -----

  /** In every reachable state: a run that can pay was approved by somebody other
      than its maker, an approved run was voided only by somebody else, and no
      human decided their own request. */
  lemma NobodyDecidesAlone(history: seq<Event>)
    ensures var db := LedgerSteps.Replay(history);
            (forall r :: 0 <= r < |db.runs|
                         && (db.runs[r].status == RunExecuted || db.runs[r].status == RunReconciled) ==>
              db.runs[r].approvedBy.Some? && db.runs[r].approvedBy.value != db.runs[r].createdBy)
            && (forall r :: 0 <= r < |db.runs| && db.runs[r].status == RunVoided && db.runs[r].approvedBy.Some? ==>
                  db.runs[r].voidedBy.Some? && db.runs[r].voidedBy.value != db.runs[r].createdBy)
            && (forall k :: 0 <= k < |db.approvals| && db.approvals[k].decidedBy.Some? ==>
                  db.approvals[k].decidedBy.value != Human(db.approvals[k].requestedBy))
  {
    EveryHistoryIsSafe(history);
    var db := LedgerSteps.Replay(history);
    forall r | 0 <= r < |db.runs| ensures RunOk(db.runs[r]) {
    }
    forall k | 0 <= k < |db.approvals| ensures ApprovalOk(db.approvals[k]) {
    }
  }
}

/** A reachable requisition that was sourced, ordered and cancelled, and can never
    be ordered again. */
module ReissueScenario {
  import opened Common
  import opened LedgerModel
  import opened MatchPasses
  import opened LedgerSteps
  import opened PurchaseScenario
  import PolicyEngine
  import SourcingTheorems

  const CHECKER: Credentials := Credentials(Some(FINANCE), false)

  const SOURCING: seq<Event> := STARTING + [Requisitioning(100)] + [EvSubmit(0, Some(RULE))]
  const QUOTING: seq<Event> := SOURCING + [EvRequestQuotes(0, [0])] + [EvReceiveQuote(0, 100, None, None, None)]
  const ORDERING: seq<Event> := QUOTING + [EvAward(0, 0)] + [Issuing(0)]
  const CANCELLING: seq<Event> := ORDERING + [EvRequestCancellation(0, "m")] + [EvDecide(1, Approve, "c", CHECKER)]

  const SOURCED: Db := STARTED.(reqs := [Req(100, ReqApproved)], approvals := [Auto(0)])

  function Offered(status: QuoteStatus, total: Option<int>): Quote {
    Quote(0, 0, status, PHP, total, None, [])
  }

  const QUOTED: Db := SOURCED.(quotes := [Offered(QuoteReceived, Some(100))])

  function AwardedOrder(status: PoStatus): Po {
    Po(0, Some(0), 0, status, PHP, 100, [Line(1, 100, 100)], TERMS)
  }

  const ORDERED: Db := SOURCED.(
    quotes := [Offered(QuoteAccepted, Some(100))],
    pos := [AwardedOrder(PoIssued)],
    budgets := [Budget(PHP, 103, 100, 0)])

  function Gate(status: ApprovalStatus, decided: Option<Decider>): Approval {
    Approval(PolicyEngine.PoCancellation, Some(0), Some(0), None, status, "m", decided, [FINANCE])
  }

  const ASKED_BACK: Db := ORDERED.(approvals := [Auto(0), Gate(Pending, None)])

  const CANCELLED: Db := ORDERED.(
    approvals := [Auto(0), Gate(ApprovalApproved, Some(Human("c")))],
    pos := [AwardedOrder(PoCancelled)],
    budgets := [Budget(PHP, 103, 0, 0)])

  lemma SourcedState()
    ensures LedgerSteps.Replay(SOURCING) == SOURCED
  {
    Started();
    var asked := STARTED.(reqs := [Req(100, ReqDraft)]);
    Requisitioned(STARTED, 100);
    assert STARTED.(reqs := STARTED.reqs + [Req(100, ReqDraft)]) == asked;
    Further(STARTING, STARTED, Requisitioning(100), asked);
    Submitted(asked, 0, 100);
    Further(STARTING + [Requisitioning(100)], asked, EvSubmit(0, Some(RULE)), SOURCED);
  }

  lemma QuotedState()
    ensures LedgerSteps.Replay(QUOTING) == QUOTED
  {
    SourcedState();
    var requested := SOURCED.(quotes := [Offered(QuoteRequested, None)]);
    assert WithRequested([Offered(QuoteRequested, None)], 0, [], PHP) == [Offered(QuoteRequested, None)];
    Further(SOURCING, SOURCED, EvRequestQuotes(0, [0]), requested);
    Further(SOURCING + [EvRequestQuotes(0, [0])], requested, EvReceiveQuote(0, 100, None, None, None), QUOTED);
  }

  const AWARDED: Db := QUOTED.(quotes := [Offered(QuoteAccepted, Some(100))])

  lemma AwardedState()
    ensures LedgerSteps.Replay(QUOTING + [EvAward(0, 0)]) == AWARDED
  {
    QuotedState();
    assert Awarded(QUOTED.quotes, 0) == AWARDED.quotes;
    Further(QUOTING, QUOTED, EvAward(0, 0), AWARDED);
  }

  lemma OrderedOnce()
    ensures Step(AWARDED, Issuing(0)) == ORDERED
  {
    SumOne(100);
    assert LineTotals([Line(1, 100, 100)]) == [100];
    assert AcceptedOf(AWARDED.quotes, 0, 0) == [] && AcceptedOf(AWARDED.quotes, 0, 1) == [0];
  }

  lemma OrderedState()
    ensures LedgerSteps.Replay(ORDERING) == ORDERED
  {
    AwardedState();
    OrderedOnce();
    Further(QUOTING + [EvAward(0, 0)], AWARDED, Issuing(0), ORDERED);
  }

  lemma Cancelled()
    ensures Step(ASKED_BACK, EvDecide(1, Approve, "c", CHECKER)) == CANCELLED
  {
    assert MatchedIds([], 0, 0) == [];
  }

  lemma CancelledState()
    ensures LedgerSteps.Replay(CANCELLING) == CANCELLED
  {
    OrderedState();
    Further(ORDERING, ORDERED, EvRequestCancellation(0, "m"), ASKED_BACK);
    Cancelled();
    Further(ORDERING + [EvRequestCancellation(0, "m")], ASKED_BACK, EvDecide(1, Approve, "c", CHECKER), CANCELLED);
  }

  lemma OtherGatesStillPass()
    ensures SourcingTheorems.OtherGatesPass(CANCELLED, 0, 0, 0)
    ensures IssuePo(CANCELLED, 0, 0, TERMS, "m", 0) == Refused(UniqueViolation)
  {
    SumOne(100);
    assert LineTotals([Line(1, 100, 100)]) == [100];
    assert AcceptedOf(CANCELLED.quotes, 0, 0) == [] && AcceptedOf(CANCELLED.quotes, 0, 1) == [0];
    assert CANCELLED.pos[0].quote == Some(0);
  }

  /** The requisition is still approved, its only order is cancelled and its money
      is back; every other gate passes, and the issue is refused by the unique
      award column. */
  lemma SourcedRequisitionIsStuck()
    ensures var db := LedgerSteps.Replay(CANCELLING);
            |db.pos| == 1 && db.pos[0].status == PoCancelled
            && SourcingTheorems.AwardOrdered(db, 0) && db.quotes[0].requisition == 0
            && SourcingTheorems.OtherGatesPass(db, 0, 0, 0)
            && IssuePo(db, 0, 0, TERMS, "m", 0) == Refused(UniqueViolation)
  {
    CancelledState();
    OtherGatesStillPass();
  }
}

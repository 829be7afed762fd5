/** A small reachable purchase: two orders, of 100 and of 3, on a budget of 103,
    the first received and invoiced, the invoice on an executed payment run. */
module PurchaseScenario {
  import opened Common
  import opened Sums
  import opened Matching
  import opened LedgerModel
  import opened MatchPasses
  import opened LedgerSteps
  import Batch
  import PolicyEngine
  import Tax
  import opened Text

  const RULE: PolicyEngine.ThresholdPolicy :=
    PolicyEngine.ThresholdPolicy("rule", 1, None, Some(1_000), ["finance"], true)
  const NO_TAX: Tax.TaxPolicy := Tax.TaxPolicy(0, map[])
  const TERMS: Terms := Terms(false, None, false, false)
  const BANK: Batch.VendorBank :=
    Batch.VendorBank("V", None, Batch.Account(Some("B"), Some("1"), None, Some("H")), Some(0), Some("c"), None, None)
  const VENDOR: Vendor := Vendor(PolicyEngine.Active, BANK)

  function OneLine(amount: int): seq<LineInput> {
    [LineInput(1, amount, PHP)]
  }

  function Requisitioning(amount: int): Event {
    EvCreateRequisition("m", "cc", Some(0), OneLine(amount))
  }

  function Issuing(r: nat): Event {
    EvIssue(r, 0, TERMS, "m", 0)
  }

  const STARTING: seq<Event> := [EvAddBudget(PHP, 103), EvPutVendor(0, VENDOR)]
  const ASKING: seq<Event> := STARTING + [Requisitioning(100)] + [Requisitioning(3)]
  const APPROVING: seq<Event> := ASKING + [EvSubmit(0, Some(RULE))] + [EvSubmit(1, Some(RULE))]
  const BUYING: seq<Event> := APPROVING + [Issuing(0)] + [Issuing(1)]

  function Auto(r: nat): Approval {
    Approval(PolicyEngine.ThresholdGate, Some(r), None, None, ApprovalApproved, "m", Some(System), [])
  }

  function Req(amount: int, status: ReqStatus): Requisition {
    Requisition("m", "cc", status, Some(0), PHP, [Line(1, amount, amount)])
  }

  function Ordered(r: nat, amount: int): Po {
    Po(r, None, 0, PoIssued, PHP, amount, [Line(1, amount, amount)], TERMS)
  }

  const STARTED: Db := EMPTY.(budgets := [Budget(PHP, 103, 0, 0)], vendors := [VENDOR])

  const ASKED: Db := STARTED.(reqs := [Req(100, ReqDraft), Req(3, ReqDraft)])

  const APPROVED: Db := STARTED.(reqs := [Req(100, ReqApproved), Req(3, ReqApproved)], approvals := [Auto(0), Auto(1)])

  const BOUGHT: Db := APPROVED.(budgets := [Budget(PHP, 103, 103, 0)], pos := [Ordered(0, 100), Ordered(1, 3)])

  lemma SumOne(x: int)
    ensures Sum([x]) == x
  {
  }

  lemma OneLineTotal(amount: int)
    ensures LineTotals(PricedLines(OneLine(amount))) == [amount]
    ensures PricedLines(OneLine(amount)) == [Line(1, amount, amount)]
    ensures Sum(LineTotals([Line(1, amount, amount)])) == amount
  {
    assert LineTotals([Line(1, amount, amount)]) == [amount];
  }

  lemma Requisitioned(db: Db, amount: int)
    requires IsDatabaseInt(amount) && |db.budgets| == 1 && db.budgets[0].currency == PHP
    ensures Step(db, EvCreateRequisition("m", "cc", Some(0), OneLine(amount)))
         == db.(reqs := db.reqs + [Req(amount, ReqDraft)])
  {
    OneLineTotal(amount);
  }

  lemma Submitted(db: Db, r: nat, amount: int)
    requires |db.budgets| == 1 && r < |db.reqs| && db.reqs[r] == Req(amount, ReqDraft) && 0 < amount <= 103
    requires db.budgets[0] == Budget(PHP, 103, 0, 0)
    ensures Step(db, EvSubmit(r, Some(RULE)))
         == db.(reqs := db.reqs[r := Req(amount, ReqApproved)], approvals := db.approvals + [Auto(r)])
  {
    OneLineTotal(amount);
  }

  lemma Issued(db: Db, r: nat, amount: int, committed: nat)
    requires r < |db.reqs| && db.reqs[r] == Req(amount, ReqApproved) && 0 <= amount && committed + amount <= 103
    requires db.budgets == [Budget(PHP, 103, committed, 0)] && db.vendors == [VENDOR] && db.quotes == []
    requires forall p :: 0 <= p < |db.pos| ==> db.pos[p].requisition != r
    ensures Step(db, EvIssue(r, 0, TERMS, "m", 0))
         == db.(pos := db.pos + [Ordered(r, amount)], budgets := [Budget(PHP, 103, committed + amount, 0)])
  {
    OneLineTotal(amount);
    assert IsDatabaseInt(amount);
  }

  /** Replaying one event further. */
  lemma Further(history: seq<Event>, before: Db, e: Event, after: Db)
    requires LedgerSteps.Replay(history) == before && Step(before, e) == after
    ensures LedgerSteps.Replay(history + [e]) == after
  {
    assert (history + [e])[..|history|] == history;
  }

  lemma Started()
    ensures LedgerSteps.Replay(STARTING) == STARTED
  {
    var funded := EMPTY.(budgets := [Budget(PHP, 103, 0, 0)]);
    Further([], EMPTY, EvAddBudget(PHP, 103), funded);
    Further([] + [EvAddBudget(PHP, 103)], funded, EvPutVendor(0, VENDOR), STARTED);
    assert [] + [EvAddBudget(PHP, 103)] + [EvPutVendor(0, VENDOR)] == STARTING;
  }

  lemma Asked()
    ensures LedgerSteps.Replay(ASKING) == ASKED
  {
    Started();
    var half := STARTED.(reqs := [Req(100, ReqDraft)]);
    Requisitioned(STARTED, 100);
    assert STARTED.(reqs := STARTED.reqs + [Req(100, ReqDraft)]) == half;
    Further(STARTING, STARTED, Requisitioning(100), half);
    Requisitioned(half, 3);
    assert half.(reqs := half.reqs + [Req(3, ReqDraft)]) == ASKED;
    Further(STARTING + [Requisitioning(100)], half, Requisitioning(3), ASKED);
  }

  lemma Approved()
    ensures LedgerSteps.Replay(APPROVING) == APPROVED
  {
    Asked();
    var half := ASKED.(reqs := [Req(100, ReqApproved), Req(3, ReqDraft)], approvals := [Auto(0)]);
    Submitted(ASKED, 0, 100);
    Further(ASKING, ASKED, EvSubmit(0, Some(RULE)), half);
    Submitted(half, 1, 3);
    Further(ASKING + [EvSubmit(0, Some(RULE))], half, EvSubmit(1, Some(RULE)), APPROVED);
  }

  lemma Bought()
    ensures LedgerSteps.Replay(BUYING) == BOUGHT
  {
    Approved();
    var half := APPROVED.(pos := [Ordered(0, 100)], budgets := [Budget(PHP, 103, 100, 0)]);
    Issued(APPROVED, 0, 100, 0);
    Further(APPROVING, APPROVED, Issuing(0), half);
    Issued(half, 1, 3, 100);
    Further(APPROVING + [Issuing(0)], half, Issuing(1), BOUGHT);
  }

  // ----- Receipt, invoice and payment run of the first order -----

  const RECEIPT: Event := EvRecordReceipt(0, [ReceiptInput(None, Some(1), 1)])

  const RECEIVED: Db := BOUGHT.(receipts := [Receipt(0, true)], receiptLines := [ReceiptLine(0, Some(1), 1)])

  /** An invoice on the first order, as a partial one or not. */
  function Billing(amount: int, partial: bool): Event {
    EvRegister(RegisterInput(0, "n", Some(0), PHP, [Tax.TaxLine(amount, Tax.Goods, true)], 0, partial), NO_TAX)
  }

  function Judged(amount: int, partial: bool): MatchResult {
    MatchAgainstPo(Some(PoFacts(true, 0, PHP, 100, false)), Bill(0, amount, PHP, partial), 100, 0)
  }

  function Invoiced(amount: int, partial: bool, status: InvoiceStatus): Invoice {
    Invoice(0, "n", Some(0), amount, 0, 0, PHP, 0, status, Some(Judged(amount, partial)))
  }

  /** The invoice is persistable and matches the received order. */
  predicate Bills(amount: int, partial: bool) {
    IsDatabaseInt(amount) && Judged(amount, partial).outcome == Matched
  }

  lemma ReceiptOfOne()
    ensures ReceivedAt(RECEIVED.pos, RECEIVED.receipts, RECEIVED.receiptLines, 0) == 100
    ensures Step(BOUGHT, RECEIPT) == RECEIVED
  {
    var po := Ordered(0, 100);
    var booked := [ReceiptLine(0, Some(1), 1)];
    var inputs := [ReceiptInput(None, Some(1), 1)];
    assert ReceivedValues(po.lines, RECEIVED.receipts, RECEIVED.receiptLines, 0) == [100];
    assert BookedLines(0, po, inputs, 0) == booked;
    assert RequestedOn(booked, 1) == [1];
    assert Quantities([], [], 0, 1) == [];
    assert FitsOrder(BOUGHT, 0, booked);
    assert OpenIds(RECEIVED.invoices, 0, 0) == [];
  }

  lemma TaxOfOne(amount: int)
    ensures var c := Tax.Computation([Tax.TaxLine(amount, Tax.Goods, true)], NO_TAX);
            c.gross == amount && c.vat == 0 && c.ewt == 0 && c.netPayable == amount
  {
    var lines := [Tax.TaxLine(amount, Tax.Goods, true)];
    assert Tax.Amounts(lines) == [amount] && Tax.Vats(lines, NO_TAX) == [0] && Tax.Ewts(lines, NO_TAX) == [0];
    SumOne(amount);
    SumOne(0);
  }

  function MatchedOn(amount: int, partial: bool): Db {
    RECEIVED.(invoices := [Invoiced(amount, partial, MatchedStatus)])
  }

  lemma BillOfOne(amount: int, partial: bool)
    requires Bills(amount, partial)
    ensures Step(RECEIVED, Billing(amount, partial)) == MatchedOn(amount, partial)
  {
    TaxOfOne(amount);
    ReceiptOfOne();
    assert Holdings([], 0) == [];
  }

  const FROZEN: Batch.Snapshot := Batch.Snapshot("n", 0, "V", None, Batch.Beneficiary("B", "1", "H"))

  function RunWith(amount: int, status: RunStatus): Run {
    Run("m", if status == RunDraft then None else Some("c"), None, status, amount)
  }

  function WithRun(amount: int, partial: bool, status: RunStatus): Db {
    MatchedOn(amount, partial).(
      runs := [RunWith(amount, status)],
      runLines := [RunLine(0, 0, amount, FROZEN, Planned)])
  }

  lemma Frozen()
    ensures Batch.FreezeBeneficiary("n", 0, BANK) == Some(FROZEN)
  {
    assert Trim("B") == "B" && Trim("1") == "1" && Trim("H") == "H";
  }

  lemma TheOneInvoice()
    ensures Unique([0]) == [0]
  {
    var ids := [0];
    assert ids[..0] == [] && Unique(ids[..0]) == [];
  }

  lemma TheOneNet(amount: int, partial: bool)
    ensures NetsOf(MatchedOn(amount, partial), [0]) == [amount] && Sum([amount]) == amount
  {
    SumOne(amount);
  }

  lemma TheOneSnapshot(amount: int, partial: bool)
    ensures AllFreezable(MatchedOn(amount, partial), [0])
    ensures SnapshotFor(MatchedOn(amount, partial), MatchedOn(amount, partial).invoices[0]) == Some(FROZEN)
  {
    Frozen();
    assert SnapshotFor(MatchedOn(amount, partial), MatchedOn(amount, partial).invoices[0]) == Some(FROZEN);
  }

  lemma NothingStopsThePlan(amount: int, partial: bool)
    requires IsDatabaseInt(amount)
    ensures IdsIn([0], MatchedOn(amount, partial).invoices)
    ensures PlanningGate(MatchedOn(amount, partial), [0]).None?
  {
    TheOneNet(amount, partial);
    TheOneSnapshot(amount, partial);
  }

  lemma Drafted(amount: int, partial: bool)
    requires IsDatabaseInt(amount)
    ensures Step(MatchedOn(amount, partial), EvCreateRun([0], "m")) == WithRun(amount, partial, RunDraft)
  {
    TheOneInvoice();
    NothingStopsThePlan(amount, partial);
    TheOneNet(amount, partial);
    TheOneSnapshot(amount, partial);
    assert PlannedLines(MatchedOn(amount, partial), [0], 0) == [RunLine(0, 0, amount, FROZEN, Planned)];
  }

  lemma Checked(amount: int, partial: bool)
    ensures Step(WithRun(amount, partial, RunDraft), EvApproveRun(0, "c")) == WithRun(amount, partial, RunApproved)
    ensures Step(WithRun(amount, partial, RunApproved), EvExecuteRun(0)) == WithRun(amount, partial, RunExecuted)
  {
  }

  /** From the orders to the matched invoice. */
  function Billed(amount: int, partial: bool): seq<Event> {
    BUYING + [RECEIPT] + [Billing(amount, partial)]
  }

  /** From the orders to the executed run. */
  function Paying(amount: int, partial: bool): seq<Event> {
    Billed(amount, partial) + [EvCreateRun([0], "m")] + [EvApproveRun(0, "c")] + [EvExecuteRun(0)]
  }

  lemma BilledState(amount: int, partial: bool)
    requires Bills(amount, partial)
    ensures LedgerSteps.Replay(Billed(amount, partial)) == MatchedOn(amount, partial)
  {
    Bought();
    ReceiptOfOne();
    Further(BUYING, BOUGHT, RECEIPT, RECEIVED);
    BillOfOne(amount, partial);
    Further(BUYING + [RECEIPT], RECEIVED, Billing(amount, partial), MatchedOn(amount, partial));
  }

  lemma DraftedState(amount: int, partial: bool)
    requires Bills(amount, partial)
    ensures LedgerSteps.Replay(Billed(amount, partial) + [EvCreateRun([0], "m")]) == WithRun(amount, partial, RunDraft)
  {
    BilledState(amount, partial);
    Drafted(amount, partial);
    Further(Billed(amount, partial), MatchedOn(amount, partial), EvCreateRun([0], "m"),
            WithRun(amount, partial, RunDraft));
  }

  /** After this history the invoice is on an executed run of its own. */
  lemma ExecutedState(amount: int, partial: bool)
    requires Bills(amount, partial)
    ensures LedgerSteps.Replay(Paying(amount, partial)) == WithRun(amount, partial, RunExecuted)
  {
    var drafting := Billed(amount, partial) + [EvCreateRun([0], "m")];
    DraftedState(amount, partial);
    Checked(amount, partial);
    Further(drafting, WithRun(amount, partial, RunDraft), EvApproveRun(0, "c"), WithRun(amount, partial, RunApproved));
    Further(drafting + [EvApproveRun(0, "c")], WithRun(amount, partial, RunApproved), EvExecuteRun(0),
            WithRun(amount, partial, RunExecuted));
  }

  lemma SlightlyMore()
    ensures Bills(105, false)
  {
    ToleranceIsExact(105, 100);
    assert RoundRatio(50_000, 100) == 500;
  }

  lemma NothingAtAll()
    ensures Bills(0, true)
  {
  }
}

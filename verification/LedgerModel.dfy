/** The procure-to-pay tables and the quantities the services read from them.
    A row's identifier is its index, so a new row gets a fresh identifier. */
module LedgerModel {
  import opened Common
  import opened Sums
  import opened Matching
  import Batch
  import PolicyEngine

  const PHP: string := "PHP"

  datatype Budget = Budget(currency: string, limit: int, committed: int, spent: int)

  datatype Vendor = Vendor(status: PolicyEngine.VendorStatus, bank: Batch.VendorBank)

  datatype Line = Line(quantity: int, unitPrice: int, lineTotal: int)

  datatype ReqStatus = ReqDraft | ReqSubmitted | ReqApproved | ReqRejected | ReqException

  datatype Requisition = Requisition(
    requester: string,
    costCenter: string,
    status: ReqStatus,
    budget: Option<nat>,
    currency: string,
    lines: seq<Line>)

  datatype QuoteStatus = QuoteRequested | QuoteReceived | QuoteAccepted | QuoteRejected

  /** One offered line; a number that is not a safe integer is `None`. */
  datatype OfferLine = OfferLine(amount: Option<int>, quantity: Option<int>, unitPrice: Option<int>)

  datatype Quote = Quote(
    requisition: nat,
    vendor: nat,
    status: QuoteStatus,
    currency: string,
    total: Option<int>,
    validUntil: Option<int>,
    lines: seq<OfferLine>)

  datatype PoStatus = PoIssued | PoConfirmed | PoCancelled

  /** Line `k` of an order has line number `k + 1`. */
  datatype Po = Po(
    requisition: nat,
    quote: Option<nat>,
    vendor: nat,
    status: PoStatus,
    currency: string,
    total: int,
    lines: seq<Line>,
    terms: Terms)

  datatype ApprovalStatus = Pending | ApprovalApproved | ApprovalRejected | Overridden

  datatype Decider = System | Human(name: string)

  datatype Approval = Approval(
    kind: PolicyEngine.GateKind,
    requisition: Option<nat>,
    po: Option<nat>,
    vendor: Option<nat>,
    status: ApprovalStatus,
    requestedBy: string,
    decidedBy: Option<Decider>,
    route: seq<string>)

  datatype Receipt = Receipt(po: nat, recorded: bool)

  datatype ReceiptLine = ReceiptLine(receipt: nat, lineNo: Option<int>, quantity: int)

  datatype Invoice = Invoice(
    vendor: nat,
    number: string,
    po: Option<nat>,
    amount: int,
    vat: int,
    ewt: int,
    currency: string,
    receivedAt: int,
    status: InvoiceStatus,
    result: Option<MatchResult>)

  datatype RunStatus = RunDraft | RunApproved | RunExecuted | RunReconciled | RunVoided

  datatype PaymentStatus = Planned | LinePaid | Dishonored | LineRejected

  datatype Run = Run(createdBy: string, approvedBy: Option<string>, voidedBy: Option<string>, status: RunStatus,
                     total: int)

  datatype RunLine = RunLine(run: nat, invoice: nat, net: int, snapshot: Batch.Snapshot, status: PaymentStatus)

  /** One snapshot of the whole database. */
  datatype Db = Db(
    budgets: seq<Budget>,
    vendors: seq<Vendor>,
    reqs: seq<Requisition>,
    quotes: seq<Quote>,
    pos: seq<Po>,
    approvals: seq<Approval>,
    receipts: seq<Receipt>,
    receiptLines: seq<ReceiptLine>,
    invoices: seq<Invoice>,
    runs: seq<Run>,
    runLines: seq<RunLine>)

  const EMPTY: Db := Db([], [], [], [], [], [], [], [], [], [], [])

  // ----- Orders -----

  predicate IsLive(po: Po) {
    po.status == PoIssued || po.status == PoConfirmed
  }

  function LineTotals(lines: seq<Line>): seq<int> {
    seq(|lines|, i requires 0 <= i < |lines| => lines[i].lineTotal)
  }

  predicate LineOk(l: Line) {
    0 <= l.quantity && 0 <= l.unitPrice && l.lineTotal == l.quantity * l.unitPrice
  }

  predicate LinesOk(lines: seq<Line>) {
    forall i :: 0 <= i < |lines| ==> LineOk(lines[i])
  }

  function FactsAt(pos: seq<Po>, p: nat): Option<PoFacts> {
    if p < |pos|
    then Some(PoFacts(IsLive(pos[p]), pos[p].vendor, pos[p].currency, pos[p].total, pos[p].terms.AllowPartial()))
    else None
  }

  // ----- Receipts -----

  /** The receipt line belongs to a recorded receipt of order `p`. */
  predicate CountsFor(receipts: seq<Receipt>, l: ReceiptLine, p: nat) {
    l.receipt < |receipts| && receipts[l.receipt].po == p && receipts[l.receipt].recorded
  }

  /** A line number that is not on the order is priced at zero. */
  function PriceAt(lines: seq<Line>, no: Option<int>): int {
    if no.Some? && 1 <= no.value <= |lines| then lines[no.value - 1].unitPrice else 0
  }

  function ReceivedValues(lines: seq<Line>, receipts: seq<Receipt>, rls: seq<ReceiptLine>, p: nat): seq<int> {
    seq(|rls|, i requires 0 <= i < |rls| =>
      if CountsFor(receipts, rls[i], p) then rls[i].quantity * PriceAt(lines, rls[i].lineNo) else 0)
  }

  /** Value of the recorded receipts of order `p`, at order prices. */
  function ReceivedValue(lines: seq<Line>, receipts: seq<Receipt>, rls: seq<ReceiptLine>, p: nat): int {
    Sum(ReceivedValues(lines, receipts, rls, p))
  }

  function ReceivedAt(pos: seq<Po>, receipts: seq<Receipt>, rls: seq<ReceiptLine>, p: nat): int {
    if p < |pos| then ReceivedValue(pos[p].lines, receipts, rls, p) else 0
  }

  function Quantities(receipts: seq<Receipt>, rls: seq<ReceiptLine>, p: nat, no: int): seq<int> {
    seq(|rls|, i requires 0 <= i < |rls| =>
      if CountsFor(receipts, rls[i], p) && rls[i].lineNo == Some(no) then rls[i].quantity else 0)
  }

  /** Quantity received so far on line `no` of order `p`. */
  function QuantityOn(receipts: seq<Receipt>, rls: seq<ReceiptLine>, p: nat, no: int): int {
    Sum(Quantities(receipts, rls, p, no))
  }

  // ----- Invoices -----

  /** A matched or paid invoice reserves value of its order. */
  predicate Holds(inv: Invoice, p: nat) {
    inv.po == Some(p) && (inv.status == MatchedStatus || inv.status == Paid)
  }

  function Holdings(invoices: seq<Invoice>, p: nat): seq<int> {
    seq(|invoices|, i requires 0 <= i < |invoices| => if Holds(invoices[i], p) then invoices[i].amount else 0)
  }

  function AllocatedValue(invoices: seq<Invoice>, p: nat): int {
    Sum(Holdings(invoices, p))
  }

  /** The same without the reservation of invoice `i` itself. */
  function AllocatedExcept(invoices: seq<Invoice>, p: nat, i: nat): int
    requires i < |invoices|
  {
    Sum(Holdings(invoices, p)[i := 0])
  }

  function BillOf(inv: Invoice): Bill {
    Bill(inv.vendor, inv.amount, inv.currency, inv.result.Some? && inv.result.value.isPartial)
  }

  function NetPayable(inv: Invoice): int {
    inv.amount + inv.vat - inv.ewt
  }

  // ----- Budgets -----

  function BudgetOf(reqs: seq<Requisition>, po: Po): Option<nat> {
    if po.requisition < |reqs| then reqs[po.requisition].budget else None
  }

  function Commitments(reqs: seq<Requisition>, pos: seq<Po>, b: nat): seq<int> {
    seq(|pos|, i requires 0 <= i < |pos| =>
      if pos[i].status != PoCancelled && BudgetOf(reqs, pos[i]) == Some(b) then pos[i].total else 0)
  }

  /** Total of the orders of budget `b` that are not cancelled. */
  function OpenTotal(reqs: seq<Requisition>, pos: seq<Po>, b: nat): int {
    Sum(Commitments(reqs, pos, b))
  }

  predicate PaidUnder(reqs: seq<Requisition>, pos: seq<Po>, inv: Invoice, b: nat) {
    inv.status == Paid && inv.po.Some? && inv.po.value < |pos| && BudgetOf(reqs, pos[inv.po.value]) == Some(b)
  }

  function Payments(reqs: seq<Requisition>, pos: seq<Po>, invoices: seq<Invoice>, b: nat): seq<int> {
    seq(|invoices|, i requires 0 <= i < |invoices| =>
      if PaidUnder(reqs, pos, invoices[i], b) then invoices[i].amount else 0)
  }

  /** Total of the paid invoices under the orders of budget `b`. */
  function PaidTotal(reqs: seq<Requisition>, pos: seq<Po>, invoices: seq<Invoice>, b: nat): int {
    Sum(Payments(reqs, pos, invoices, b))
  }

  // ----- Payment runs -----

  /** A planned line on a run that is not voided reserves its invoice. */
  predicate LiveClaim(runs: seq<Run>, l: RunLine) {
    l.status == Planned && l.run < |runs| && runs[l.run].status != RunVoided
  }

  function RunNets(runLines: seq<RunLine>, r: nat): seq<int> {
    seq(|runLines|, i requires 0 <= i < |runLines| => if runLines[i].run == r then runLines[i].net else 0)
  }

  function RunNet(runLines: seq<RunLine>, r: nat): int {
    Sum(RunNets(runLines, r))
  }

  // ----- Invariants, each over just the tables it reads -----

  predicate ReqsOk(budgets: seq<Budget>, reqs: seq<Requisition>) {
    forall r :: 0 <= r < |reqs| ==>
      LinesOk(reqs[r].lines)
      && (reqs[r].budget.Some? ==>
            reqs[r].budget.value < |budgets| && budgets[reqs[r].budget.value].currency == reqs[r].currency)
  }

  predicate PoOk(reqs: seq<Requisition>, po: Po) {
    po.requisition < |reqs| && reqs[po.requisition].budget.Some?
    && po.currency == reqs[po.requisition].currency
    && LinesOk(po.lines) && po.total == Sum(LineTotals(po.lines)) && IsDatabaseInt(po.total)
  }

  predicate PosOk(reqs: seq<Requisition>, pos: seq<Po>) {
    forall p :: 0 <= p < |pos| ==> PoOk(reqs, pos[p])
  }

  /** At most one order that is not cancelled per requisition, and at most one
      order at all per awarded quote. */
  predicate ExclusiveOrders(pos: seq<Po>) {
    forall p, q :: 0 <= p < q < |pos| ==>
      (IsLive(pos[p]) && IsLive(pos[q]) ==> pos[p].requisition != pos[q].requisition)
      && (pos[p].quote.Some? ==> pos[p].quote != pos[q].quote)
  }

  predicate QuotesOk(quotes: seq<Quote>) {
    (forall i, j :: 0 <= i < j < |quotes| && quotes[i].requisition == quotes[j].requisition ==>
      quotes[i].vendor != quotes[j].vendor
      && !(quotes[i].status == QuoteAccepted && quotes[j].status == QuoteAccepted))
    && (forall i :: 0 <= i < |quotes| && quotes[i].status == QuoteAccepted ==> quotes[i].total.Some?)
  }

  predicate ReceiptLineOk(receipts: seq<Receipt>, l: ReceiptLine) {
    l.receipt < |receipts| && 0 < l.quantity
  }

  /** Received quantities stay within the ordered ones, line by line, and a
      cancelled order has no recorded receipt. */
  predicate ReceiptsOk(pos: seq<Po>, receipts: seq<Receipt>, rls: seq<ReceiptLine>) {
    (forall r :: 0 <= r < |receipts| ==> receipts[r].po < |pos|)
    && (forall r :: 0 <= r < |receipts| && receipts[r].recorded ==> IsLive(pos[receipts[r].po]))
    && (forall i :: 0 <= i < |rls| ==> ReceiptLineOk(receipts, rls[i]))
    && (forall p, no :: 0 <= p < |pos| && 1 <= no <= |pos[p].lines| ==>
          QuantityOn(receipts, rls, p, no) <= pos[p].lines[no - 1].quantity)
  }

  predicate InvoiceOk(pos: seq<Po>, inv: Invoice) {
    0 <= inv.amount && 0 <= inv.vat && 0 <= inv.ewt && 0 <= NetPayable(inv)
    && (inv.status == MatchedStatus || inv.status == Paid ==>
          inv.po.Some? && inv.po.value < |pos| && IsLive(pos[inv.po.value]))
  }

  predicate InvoicesOk(pos: seq<Po>, invoices: seq<Invoice>) {
    (forall i :: 0 <= i < |invoices| ==> InvoiceOk(pos, invoices[i]))
    && (forall i, j :: 0 <= i < j < |invoices| && invoices[i].vendor == invoices[j].vendor ==>
          invoices[i].number != invoices[j].number)
  }

  /** Matched and paid value within 21001/20000 of the received value. */
  predicate WithinTolerance(reservedValue: int, received: int) {
    20_000 * reservedValue <= 21_001 * received
  }

  /** Value is only reserved once something of the order was received. */
  predicate Backed(pos: seq<Po>, receipts: seq<Receipt>, rls: seq<ReceiptLine>, inv: Invoice) {
    (inv.status == MatchedStatus || inv.status == Paid) && inv.po.Some? ==>
      0 < ReceivedAt(pos, receipts, rls, inv.po.value)
  }

  predicate AllocationOk(pos: seq<Po>, receipts: seq<Receipt>, rls: seq<ReceiptLine>, invoices: seq<Invoice>) {
    forall p :: 0 <= p < |pos| ==>
      WithinTolerance(AllocatedValue(invoices, p), ReceivedAt(pos, receipts, rls, p))
  }

  predicate BackedOk(pos: seq<Po>, receipts: seq<Receipt>, rls: seq<ReceiptLine>, invoices: seq<Invoice>) {
    forall i :: 0 <= i < |invoices| ==> Backed(pos, receipts, rls, invoices[i])
  }

  predicate PaysFor(l: RunLine, v: nat) {
    l.invoice == v && l.status == LinePaid
  }

  predicate HasPayment(runLines: seq<RunLine>, v: nat) {
    exists i :: 0 <= i < |runLines| && PaysFor(runLines[i], v)
  }

  /** Claims and payments: a live claim is on a matched invoice and is the only
      one; an invoice is paid exactly when one line paid it, and only one did. */
  predicate ClaimsOk(invoices: seq<Invoice>, runs: seq<Run>, runLines: seq<RunLine>) {
    (forall i :: 0 <= i < |runLines| ==> runLines[i].run < |runs| && runLines[i].invoice < |invoices|)
    && (forall i :: 0 <= i < |runLines| && LiveClaim(runs, runLines[i]) ==>
          invoices[runLines[i].invoice].status == MatchedStatus)
    && (forall i, j :: 0 <= i < j < |runLines| && LiveClaim(runs, runLines[i]) && LiveClaim(runs, runLines[j]) ==>
          runLines[i].invoice != runLines[j].invoice)
    && (forall i :: 0 <= i < |runLines| && runLines[i].status == LinePaid ==>
          invoices[runLines[i].invoice].status == Paid)
    && (forall i, j :: 0 <= i < j < |runLines| && runLines[i].status == LinePaid && runLines[j].status == LinePaid ==>
          runLines[i].invoice != runLines[j].invoice)
    && (forall v :: 0 <= v < |invoices| && invoices[v].status == Paid ==> HasPayment(runLines, v))
  }

  /** Lines move only on executed runs, a reconciled run has no planned line, and
      an approved run was approved by somebody other than its maker. */
  predicate RunLineOk(invoices: seq<Invoice>, runs: seq<Run>, l: RunLine) {
    l.run < |runs| && l.invoice < |invoices|
    && l.net == NetPayable(invoices[l.invoice])
    && Batch.UsableSnapshot(l.snapshot)
    && (l.status != Planned ==> runs[l.run].status == RunExecuted || runs[l.run].status == RunReconciled)
    && (l.status == Planned ==> runs[l.run].status != RunReconciled)
  }

  predicate RunOk(run: Run) {
    (run.status == RunApproved || run.status == RunExecuted || run.status == RunReconciled ==>
       run.approvedBy.Some?)
    && (run.approvedBy.Some? ==>
       run.approvedBy.value != run.createdBy
       && (run.status == RunVoided ==> run.voidedBy.Some? && run.voidedBy.value != run.createdBy))
    && (run.status == RunDraft ==> run.approvedBy.None?)
    && IsDatabaseInt(run.total)
  }

  predicate RunsOk(invoices: seq<Invoice>, runs: seq<Run>, runLines: seq<RunLine>) {
    (forall i :: 0 <= i < |runLines| ==> RunLineOk(invoices, runs, runLines[i]))
    && (forall r :: 0 <= r < |runs| ==> RunOk(runs[r]) && runs[r].total == RunNet(runLines, r))
  }

  predicate BudgetOk(b: Budget, open: int, paid: int) {
    b.spent == paid
    && open <= b.limit
    && Max(0, open - b.spent) <= b.committed <= open
  }

  predicate BudgetsOk(budgets: seq<Budget>, reqs: seq<Requisition>, pos: seq<Po>, invoices: seq<Invoice>) {
    forall b :: 0 <= b < |budgets| ==>
      BudgetOk(budgets[b], OpenTotal(reqs, pos, b), PaidTotal(reqs, pos, invoices, b))
  }

  /** A human decision is never taken by whoever asked for it. */
  predicate ApprovalOk(a: Approval) {
    (a.status == Pending <==> a.decidedBy.None?)
    && (a.decidedBy.Some? ==> a.decidedBy.value != Human(a.requestedBy))
  }

  predicate Cancels(a: Approval, p: nat) {
    a.kind == PolicyEngine.PoCancellation && a.po == Some(p)
    && (a.status == ApprovalApproved || a.status == Overridden)
    && a.decidedBy.Some? && a.decidedBy.value.Human?
  }

  predicate CancellationDecided(approvals: seq<Approval>, p: nat) {
    exists k :: 0 <= k < |approvals| && Cancels(approvals[k], p)
  }

  predicate ApprovalsOk(pos: seq<Po>, approvals: seq<Approval>) {
    (forall k :: 0 <= k < |approvals| ==> ApprovalOk(approvals[k]))
    && (forall p :: 0 <= p < |pos| && !IsLive(pos[p]) ==> CancellationDecided(approvals, p))
  }

  /** What every reachable state of the database satisfies. */
  predicate Inv(db: Db) {
    ReqsOk(db.budgets, db.reqs)
    && PosOk(db.reqs, db.pos)
    && ExclusiveOrders(db.pos)
    && QuotesOk(db.quotes)
    && ReceiptsOk(db.pos, db.receipts, db.receiptLines)
    && InvoicesOk(db.pos, db.invoices)
    && AllocationOk(db.pos, db.receipts, db.receiptLines, db.invoices)
    && BackedOk(db.pos, db.receipts, db.receiptLines, db.invoices)
    && ClaimsOk(db.invoices, db.runs, db.runLines)
    && RunsOk(db.invoices, db.runs, db.runLines)
    && BudgetsOk(db.budgets, db.reqs, db.pos, db.invoices)
    && ApprovalsOk(db.pos, db.approvals)
  }
}

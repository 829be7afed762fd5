/** Every transaction of the procure-to-pay services as a function from one
    database snapshot to the next. A refused transaction changes nothing. */
module LedgerSteps {
  import opened Common
  import opened Sums
  import opened Matching
  import opened LedgerModel
  import opened MatchPasses
  import Batch
  import PolicyEngine
  import Tax

  /** The class of the exception a refused transaction raises; a violated unique
      column surfaces as the database's own error. */
  datatype Refusal = NotFound | Conflict | BadRequest | Forbidden | UniqueViolation

  datatype Outcome = Refused(why: Refusal) | Done(db: Db)

  /** The database after the transaction. */
  function After(db: Db, o: Outcome): Db {
    if o.Done? then o.db else db
  }

  // ----- Master data -----

  function AddBudget(db: Db, currency: string, limit: int): Outcome {
    if !IsDatabaseInt(limit) then Refused(BadRequest)
    else Done(db.(budgets := db.budgets + [Budget(currency, limit, 0, 0)]))
  }

  /** The vendor services may rewrite any vendor at any time. */
  function PutVendor(db: Db, id: nat, v: Vendor): Outcome {
    if id < |db.vendors| then Done(db.(vendors := db.vendors[id := v]))
    else Done(db.(vendors := db.vendors + [v]))
  }

  // ----- Requisitions -----

  datatype LineInput = LineInput(quantity: int, unitPrice: int, currency: string)

  predicate LineInputOk(l: LineInput) {
    IsDatabaseInt(l.quantity) && IsDatabaseInt(l.unitPrice) && IsDatabaseInt(l.quantity * l.unitPrice)
  }

  function PricedLines(inputs: seq<LineInput>): seq<Line> {
    seq(|inputs|, i requires 0 <= i < |inputs| =>
      Line(inputs[i].quantity, inputs[i].unitPrice, inputs[i].quantity * inputs[i].unitPrice))
  }

  predicate SingleCurrency(inputs: seq<LineInput>) {
    forall i :: 0 < i < |inputs| ==> inputs[i].currency == inputs[0].currency
  }

  function CreateRequisition(db: Db, requester: string, costCenter: string, budget: Option<nat>,
                             inputs: seq<LineInput>): Outcome {
    if |inputs| == 0 then Refused(BadRequest)
    else if !(forall i :: 0 <= i < |inputs| ==> LineInputOk(inputs[i])) then Refused(BadRequest)
    else if !IsDatabaseInt(Sum(LineTotals(PricedLines(inputs)))) then Refused(BadRequest)
    else if !SingleCurrency(inputs) then Refused(BadRequest)
    else if budget.Some? && budget.value >= |db.budgets| then Refused(NotFound)
    else if budget.Some? && db.budgets[budget.value].currency != inputs[0].currency then Refused(BadRequest)
    else Done(db.(reqs := db.reqs +
                          [Requisition(requester, costCenter, ReqDraft, budget, inputs[0].currency,
                              PricedLines(inputs))]))
  }

  function SubmitContext(db: Db, r: Requisition): PolicyEngine.GateContext {
    PolicyEngine.GateContext(
      r.costCenter,
      Sum(LineTotals(r.lines)),
      r.budget.Some?,
      if r.budget.Some? && r.budget.value < |db.budgets| then
        var b := db.budgets[r.budget.value]; Some(b.limit - b.committed - b.spent)
      else None)
  }

  /** `policy` is the effective threshold policy for the requisition's cost center. */
  function SubmitRequisition(db: Db, id: nat, policy: Option<PolicyEngine.ThresholdPolicy>): Outcome {
    if id >= |db.reqs| then Refused(NotFound)
    else
      var r := db.reqs[id];
      if r.status != ReqDraft then Refused(Conflict)
      else if r.budget.Some? && r.budget.value >= |db.budgets| then Refused(NotFound)
      else if r.budget.Some? && db.budgets[r.budget.value].currency != r.currency then Refused(BadRequest)
      else
        var d := PolicyEngine.EvaluateThresholdGate(policy, SubmitContext(db, r));
        var status := if d.outcome == PolicyEngine.Pass then ReqApproved
                      else if d.outcome == PolicyEngine.Block then ReqException
                      else ReqSubmitted;
        var gate := if d.outcome == PolicyEngine.Pass
                    then Approval(PolicyEngine.ThresholdGate, Some(id), None, None, ApprovalApproved, r.requester,
                                  Some(System), [])
                    else Approval(d.kind, Some(id), None, None, Pending, r.requester, None, d.approvers);
        Done(db.(reqs := db.reqs[id := r.(status := status)], approvals := db.approvals + [gate]))
  }

  // ----- Sourcing -----

  predicate HasQuote(quotes: seq<Quote>, r: nat, v: nat) {
    exists i :: 0 <= i < |quotes| && quotes[i].requisition == r && quotes[i].vendor == v
  }

  /** One quote row per vendor; a vendor that has one already keeps it. */
  function WithRequested(quotes: seq<Quote>, r: nat, vendors: seq<nat>, currency: string): seq<Quote>
    decreases |vendors|
  {
    if |vendors| == 0 then quotes
    else
      var v := vendors[0];
      WithRequested(
        if HasQuote(quotes, r, v) then quotes
        else quotes + [Quote(r, v, QuoteRequested, currency, None, None, [])],
        r, vendors[1..], currency)
  }

  function RequestQuotes(db: Db, r: nat, vendors: seq<nat>): Outcome {
    if r >= |db.reqs| then Refused(NotFound)
    else if db.reqs[r].status != ReqApproved then Refused(Conflict)
    else if exists i :: 0 <= i < |vendors| && vendors[i] >= |db.vendors| then Refused(NotFound)
    else Done(db.(quotes := WithRequested(db.quotes, r, vendors, db.reqs[r].currency)))
  }

  function ReceiveQuote(db: Db, q: nat, total: int, currency: Option<string>, validUntil: Option<int>,
                        lines: Option<seq<OfferLine>>): Outcome {
    if q >= |db.quotes| then Refused(NotFound)
    else
      var quote := db.quotes[q];
      if !(0 < total <= DATABASE_INT_MAX) then Refused(BadRequest)
      else if currency.Some? && currency.value != quote.currency then Refused(BadRequest)
      else if quote.status != QuoteRequested && quote.status != QuoteReceived then Refused(Conflict)
      else Done(db.(quotes := db.quotes[q := quote.(
                      status := QuoteReceived,
                      total := Some(total),
                      validUntil := if validUntil.Some? then validUntil else quote.validUntil,
                      lines := if lines.Some? then lines.value else quote.lines)]))
  }

  predicate Expired(quote: Quote, now: int) {
    quote.validUntil.Some? && quote.validUntil.value < now
  }

  predicate AcceptedExists(quotes: seq<Quote>, r: nat) {
    exists i :: 0 <= i < |quotes| && quotes[i].requisition == r && quotes[i].status == QuoteAccepted
  }

  /** The winner is accepted and every received sibling rejected. */
  function Awarded(quotes: seq<Quote>, q: nat): seq<Quote>
    requires q < |quotes|
  {
    seq(|quotes|, i requires 0 <= i < |quotes| =>
      if i == q then quotes[i].(status := QuoteAccepted)
      else if quotes[i].requisition == quotes[q].requisition && quotes[i].status == QuoteReceived
      then quotes[i].(status := QuoteRejected)
      else quotes[i])
  }

  function AwardQuote(db: Db, q: nat, now: int): Outcome {
    if q >= |db.quotes| then Refused(NotFound)
    else
      var quote := db.quotes[q];
      if quote.total.None? then Refused(BadRequest)
      else if Expired(quote, now) then Refused(Conflict)
      else if quote.requisition >= |db.reqs| then Refused(NotFound)
      else if quote.currency != db.reqs[quote.requisition].currency then Refused(BadRequest)
      else if quote.status != QuoteReceived then Refused(Conflict)
      else if AcceptedExists(db.quotes, quote.requisition) then Refused(Conflict)
      else Done(db.(quotes := Awarded(db.quotes, q)))
  }

  // ----- Purchase orders -----

  datatype OrderLines = BadLines(why: Refusal) | GoodLines(lines: seq<Line>)

  predicate OfferLineOk(l: OfferLine) {
    l.amount.Some? && IsDatabaseInt(l.amount.value)
  }

  function OrderLineOf(l: OfferLine): Line
    requires OfferLineOk(l)
  {
    var amount := l.amount.value;
    var supplied := l.quantity.Some? && l.quantity.value > 0 && l.unitPrice.Some? && l.unitPrice.value >= 0
                    && l.quantity.value * l.unitPrice.value == amount;
    Line(if supplied then l.quantity.value else 1, if supplied then l.unitPrice.value else amount, amount)
  }

  function LinesFromAwardedQuote(q: Quote): OrderLines {
    if q.total.None? then BadLines(Conflict)
    else if !IsDatabaseInt(q.total.value) || q.total.value <= 0 then BadLines(BadRequest)
    else if |q.lines| == 0 then GoodLines([Line(1, q.total.value, q.total.value)])
    else if !(forall i :: 0 <= i < |q.lines| ==> OfferLineOk(q.lines[i])) then BadLines(BadRequest)
    else
      var lines := seq(|q.lines|, i requires 0 <= i < |q.lines| => OrderLineOf(q.lines[i]));
      var total := Sum(LineTotals(lines));
      if !IsDatabaseInt(total) || total != q.total.value then BadLines(BadRequest) else GoodLines(lines)
  }

  predicate OrderedAlready(pos: seq<Po>, r: nat) {
    exists p :: 0 <= p < |pos| && pos[p].requisition == r && pos[p].status != PoCancelled
  }

  predicate QuoteUsed(pos: seq<Po>, q: nat) {
    exists p :: 0 <= p < |pos| && pos[p].quote == Some(q)
  }

  /** The accepted quotes of a requisition among the first `n` rows. */
  function AcceptedOf(quotes: seq<Quote>, r: nat, n: nat): (ids: seq<nat>)
    requires n <= |quotes|
    ensures forall k :: 0 <= k < |ids| ==>
              ids[k] < n && quotes[ids[k]].requisition == r && quotes[ids[k]].status == QuoteAccepted
  {
    if n == 0 then []
    else if quotes[n - 1].requisition == r && quotes[n - 1].status == QuoteAccepted
    then AcceptedOf(quotes, r, n - 1) + [n - 1]
    else AcceptedOf(quotes, r, n - 1)
  }

  predicate Sourced(quotes: seq<Quote>, r: nat) {
    exists i :: 0 <= i < |quotes| && quotes[i].requisition == r
  }

  predicate GatePending(approvals: seq<Approval>, r: nat, v: nat) {
    exists k :: 0 <= k < |approvals| && approvals[k].requisition == Some(r) && approvals[k].vendor == Some(v)
                && approvals[k].kind == PolicyEngine.VendorGate && approvals[k].status == Pending
  }

  /** The vendor is not qualified: make sure a gate is pending and stop there. */
  function AskForVendor(db: Db, r: nat, v: nat, actor: string): Db {
    if GatePending(db.approvals, r, v) then db
    else db.(approvals := db.approvals +
                          [Approval(PolicyEngine.VendorGate, Some(r), None, Some(v), Pending, actor, None,
                                    [PROCUREMENT])])
  }

  function IssuePo(db: Db, r: nat, v: nat, terms: Terms, actor: string, now: int): Outcome {
    if r >= |db.reqs| then Refused(NotFound)
    else
      var req := db.reqs[r];
      if req.status != ReqApproved || req.budget.None? then Refused(Conflict)
      else if v >= |db.vendors| then Refused(NotFound)
      else if OrderedAlready(db.pos, r) then Refused(Conflict)
      else
        var accepted := AcceptedOf(db.quotes, r, |db.quotes|);
        if Sourced(db.quotes, r) && |accepted| != 1 then Refused(Conflict)
        else
          var awarded: Option<nat> := if |accepted| > 0 then Some(accepted[0]) else None;
          if awarded.Some? && (db.quotes[awarded.value].vendor != v || Expired(db.quotes[awarded.value], now))
          then Refused(Conflict)
          else
            match PolicyEngine.EvaluateVendorGate(db.vendors[v].status)
            case Block => Refused(Conflict)
            case NeedApproval => Done(AskForVendor(db, r, v, actor))
            case Pass => CommitOrder(db, r, v, awarded, terms)
  }

  /** The budget commit and the new order, in one transaction. */
  function CommitOrder(db: Db, r: nat, v: nat, awarded: Option<nat>, terms: Terms): Outcome
    requires r < |db.reqs| && db.reqs[r].budget.Some?
    requires awarded.Some? ==> awarded.value < |db.quotes|
  {
    var req, b := db.reqs[r], db.reqs[r].budget.value;
    if b >= |db.budgets| then Refused(NotFound)
    else
      var budget := db.budgets[b];
      if budget.currency != req.currency then Refused(BadRequest)
      else if awarded.Some? && db.quotes[awarded.value].currency != req.currency then Refused(BadRequest)
      else
        match (if awarded.Some? then LinesFromAwardedQuote(db.quotes[awarded.value]) else GoodLines(req.lines))
        case BadLines(why) => Refused(why)
        case GoodLines(lines) =>
          var total := Sum(LineTotals(lines));
          if !IsDatabaseInt(total) then Refused(BadRequest)
          else if budget.committed + budget.spent + total > budget.limit then Refused(Conflict)
          else if awarded.Some? && QuoteUsed(db.pos, awarded.value) then Refused(UniqueViolation)
          else Done(db.(
                    pos := db.pos + [Po(r, awarded, v, PoIssued, req.currency, total, lines, terms)],
                    budgets := db.budgets[b := budget.(committed := budget.committed + total)]))
  }

  function ConfirmPo(db: Db, p: nat): Outcome {
    if p >= |db.pos| then Refused(NotFound)
    else if db.pos[p].status != PoIssued then Refused(Conflict)
    else Done(db.(pos := db.pos[p := db.pos[p].(status := PoConfirmed)]))
  }

  predicate CancellationPending(approvals: seq<Approval>, p: nat) {
    exists k :: 0 <= k < |approvals| && approvals[k].po == Some(p)
                && approvals[k].kind == PolicyEngine.PoCancellation && approvals[k].status == Pending
  }

  function RequestCancellation(db: Db, p: nat, actor: string): Outcome {
    if p >= |db.pos| then Refused(NotFound)
    else if !IsLive(db.pos[p]) then Refused(Conflict)
    else if CancellationPending(db.approvals, p) then Done(db)
    else Done(db.(approvals := db.approvals +
                               [Approval(PolicyEngine.PoCancellation, Some(db.pos[p].requisition), Some(p), None,
                                         Pending, actor, None, [FINANCE])]))
  }

  // ----- Corrections -----

  predicate HasPaidInvoice(invoices: seq<Invoice>, p: nat) {
    exists i :: 0 <= i < |invoices| && invoices[i].po == Some(p) && invoices[i].status == Paid
  }

  /** A paid line, or a planned line on a run that is not voided, for an invoice
      of the order. */
  predicate HasClaim(db: Db, p: nat) {
    exists i :: 0 <= i < |db.runLines| && BlocksCorrection(db, db.runLines[i], p)
  }

  predicate BlocksCorrection(db: Db, l: RunLine, p: nat) {
    l.invoice < |db.invoices| && db.invoices[l.invoice].po == Some(p)
    && (l.status == LinePaid || LiveClaim(db.runs, l))
  }

  predicate CorrectionAllowed(db: Db, p: nat) {
    !HasPaidInvoice(db.invoices, p) && !HasClaim(db, p)
  }

  function OrderAt(db: Db, p: nat): Order {
    Order(p, FactsAt(db.pos, p), ReceivedAt(db.pos, db.receipts, db.receiptLines, p))
  }

  function ReevaluateOn(db: Db, p: nat): Db {
    db.(invoices := Reevaluated(OrderAt(db, p), db.invoices, MatchedIds(db.invoices, p, |db.invoices|)))
  }

  function RematchOn(db: Db, p: nat): Db {
    db.(invoices := Rematched(OrderAt(db, p), db.invoices, OpenIds(db.invoices, p, |db.invoices|)))
  }

  // ----- Receipts -----

  /** A received line; `poLine` refers to a line of some order by order and number. */
  datatype ReceiptInput = ReceiptInput(poLine: Option<(nat, int)>, lineNo: Option<int>, quantity: int)

  datatype Resolved = Unresolved | ResolvedTo(lineNo: Option<int>)

  /** The line number a received line is booked under. */
  function ResolveLine(p: nat, po: Po, l: ReceiptInput): Resolved {
    if !(0 < l.quantity <= DATABASE_INT_MAX) then Unresolved
    else if l.poLine.Some? then
      var (owner, no) := l.poLine.value;
      if owner != p || !(1 <= no <= |po.lines|) then Unresolved
      else if l.lineNo.Some? && l.lineNo.value != no then Unresolved
      else ResolvedTo(Some(no))
    else ResolvedTo(l.lineNo)
  }

  predicate AllResolve(p: nat, po: Po, inputs: seq<ReceiptInput>) {
    forall i :: 0 <= i < |inputs| ==> ResolveLine(p, po, inputs[i]).ResolvedTo?
  }

  function BookedLines(p: nat, po: Po, inputs: seq<ReceiptInput>, receipt: nat): seq<ReceiptLine>
    requires AllResolve(p, po, inputs)
  {
    seq(|inputs|, i requires 0 <= i < |inputs| =>
      ReceiptLine(receipt, ResolveLine(p, po, inputs[i]).lineNo, inputs[i].quantity))
  }

  function RequestedOn(rls: seq<ReceiptLine>, no: int): seq<int> {
    seq(|rls|, i requires 0 <= i < |rls| => if rls[i].lineNo == Some(no) then rls[i].quantity else 0)
  }

  /** Line by line, what was received before plus everything in this request is
      within the ordered quantity. */
  predicate FitsOrder(db: Db, p: nat, booked: seq<ReceiptLine>)
    requires p < |db.pos|
  {
    forall i :: 0 <= i < |booked| ==>
      booked[i].lineNo.Some? && 1 <= booked[i].lineNo.value <= |db.pos[p].lines| ==>
        QuantityOn(db.receipts, db.receiptLines, p, booked[i].lineNo.value)
        + Sum(RequestedOn(booked, booked[i].lineNo.value))
        <= db.pos[p].lines[booked[i].lineNo.value - 1].quantity
  }

  function RecordReceipt(db: Db, p: nat, inputs: seq<ReceiptInput>): Outcome {
    if |inputs| == 0 then Refused(Conflict)
    else if p >= |db.pos| then Refused(NotFound)
    else if !IsLive(db.pos[p]) then Refused(Conflict)
    else if !AllResolve(p, db.pos[p], inputs) then Refused(Conflict)
    else
      var booked := BookedLines(p, db.pos[p], inputs, |db.receipts|);
      if !FitsOrder(db, p, booked) then Refused(Conflict)
      else Done(RematchOn(Booked(db, p, booked), p))
  }

  function Booked(db: Db, p: nat, booked: seq<ReceiptLine>): Db {
    db.(receipts := db.receipts + [Receipt(p, true)], receiptLines := db.receiptLines + booked)
  }

  function CancelReceipt(db: Db, r: nat): Outcome {
    if r >= |db.receipts| then Refused(NotFound)
    else if !db.receipts[r].recorded then Refused(Conflict)
    else
      var p := db.receipts[r].po;
      if !CorrectionAllowed(db, p) then Refused(Conflict)
      else Done(ReevaluateOn(db.(receipts := db.receipts[r := Receipt(p, false)]), p))
  }

  // ----- Approvals -----

  datatype Verdict = Approve | Reject | Override

  predicate HasRecordedReceipt(receipts: seq<Receipt>, p: nat) {
    exists r :: 0 <= r < |receipts| && receipts[r].po == p && receipts[r].recorded
  }

  function DecidedStatus(verdict: Verdict): ApprovalStatus {
    match verdict case Approve => ApprovalApproved case Reject => ApprovalRejected case Override => Overridden
  }

  const ADMIN: string := "admin"
  const FINANCE: string := "finance"
  const PROCUREMENT: string := "procurement"

  /** What the transaction finds about a decision: the role of the actor, if the
      actor is a known user, and whether evidence came with it. */
  datatype Credentials = Credentials(role: Option<string>, hasEvidence: bool)

  /** A known user whose role is on the route, or an administrator. */
  predicate MayDecide(a: Approval, c: Credentials) {
    c.role.Some? && (c.role.value == ADMIN || c.role.value in a.route)
  }

  function Decide(db: Db, k: nat, verdict: Verdict, actor: string, credentials: Credentials): Outcome {
    if k >= |db.approvals| then Refused(NotFound)
    else
      var a := db.approvals[k];
      if a.status != Pending then Refused(Conflict)
      else if verdict == Override && !credentials.hasEvidence then Refused(BadRequest)
      else if !MayDecide(a, credentials) then Refused(Forbidden)
      else if a.requestedBy == actor then Refused(Forbidden)
      else
        var decided := db.(approvals := db.approvals[k := a.(
                             status := DecidedStatus(verdict), decidedBy := Some(Human(actor)))]);
        DecisionEffect(decided, a, verdict)
  }

  /** What the decision on `a` does once it is recorded in `db`. */
  function DecisionEffect(db: Db, a: Approval, verdict: Verdict): Outcome {
    if a.kind == PolicyEngine.PoCancellation then
      if verdict == Reject then Done(db)
      else if a.po.None? then Refused(Conflict)
      else CancelOrder(db, a.po.value, a.requisition)
    else if a.kind == PolicyEngine.VendorGate && a.vendor.Some? then
      if verdict == Reject then Done(db)
      else if a.vendor.value >= |db.vendors| then Refused(NotFound)
      else Done(db.(vendors := db.vendors[a.vendor.value := db.vendors[a.vendor.value].(
                      status := PolicyEngine.Active)]))
    else if a.requisition.Some? then
      if a.requisition.value >= |db.reqs| then Refused(NotFound)
      else Done(db.(reqs := db.reqs[a.requisition.value := db.reqs[a.requisition.value].(
                      status := NextReqStatus(db.approvals, a.requisition.value, verdict))]))
    else Done(db)
  }

  predicate HasGate(approvals: seq<Approval>, r: nat, s: ApprovalStatus) {
    exists k :: 0 <= k < |approvals| && approvals[k].requisition == Some(r) && approvals[k].status == s
  }

  function NextReqStatus(approvals: seq<Approval>, r: nat, verdict: Verdict): ReqStatus {
    if verdict == Reject || HasGate(approvals, r, ApprovalRejected) then ReqRejected
    else if HasGate(approvals, r, Pending) then ReqSubmitted
    else ReqApproved
  }

  /** The approved cancellation of an order: guards, demotion, budget release. */
  function CancelOrder(db: Db, p: nat, requisition: Option<nat>): Outcome {
    if p >= |db.pos| then Refused(NotFound)
    else
      var po := db.pos[p];
      if po.status == PoCancelled then Done(db)
      else if requisition != Some(po.requisition) then Refused(Conflict)
      else if !CorrectionAllowed(db, p) then Refused(Conflict)
      else if HasRecordedReceipt(db.receipts, p) then Refused(Conflict)
      else ReleaseCommitment(ReevaluateOn(db.(pos := db.pos[p := po.(status := PoCancelled)]), p), po)
  }

  /** The whole commitment of the order is given back, or nothing happens. */
  function ReleaseCommitment(db: Db, po: Po): Outcome {
    if !IsDatabaseInt(po.total) then Refused(BadRequest)
    else if po.requisition >= |db.reqs| then Refused(NotFound)
    else if db.reqs[po.requisition].budget.None? then Refused(Conflict)
    else
      var b := db.reqs[po.requisition].budget.value;
      if b >= |db.budgets| then Refused(NotFound)
      else if db.budgets[b].currency != po.currency then Refused(Conflict)
      else if db.budgets[b].committed < po.total then Refused(Conflict)
      else Done(db.(budgets := db.budgets[b := db.budgets[b].(committed := db.budgets[b].committed - po.total)]))
  }

  // ----- Invoices -----

  datatype RegisterInput = RegisterInput(
    vendor: nat,
    number: string,
    po: Option<nat>,
    currency: string,
    lines: seq<Tax.TaxLine>,
    receivedAt: int,
    allowPartial: bool)

  predicate Persistable(c: Tax.TaxComputation) {
    IsDatabaseInt(c.gross) && IsDatabaseInt(c.vat) && IsDatabaseInt(c.ewt) && IsDatabaseInt(c.netPayable)
  }

  predicate NumberTaken(invoices: seq<Invoice>, vendor: nat, number: string) {
    exists i :: 0 <= i < |invoices| && invoices[i].vendor == vendor && invoices[i].number == number
  }

  function MatchOf(db: Db, input: RegisterInput, gross: int): Option<MatchResult> {
    match input.po
    case None => None
    case Some(p) =>
      Some(MatchAgainstPo(FactsAt(db.pos, p), Bill(input.vendor, gross, input.currency, input.allowPartial),
                          ReceivedAt(db.pos, db.receipts, db.receiptLines, p), AllocatedValue(db.invoices, p)))
  }

  function NewInvoice(db: Db, input: RegisterInput, c: Tax.TaxComputation): Invoice {
    var m := MatchOf(db, input, c.gross);
    Invoice(input.vendor, input.number, input.po, c.gross, c.vat, c.ewt, input.currency, input.receivedAt,
            if m.Some? then StatusFor(m.value) else Received, m)
  }

  /** Registering a number that the vendor already used returns the old row. */
  function Register(db: Db, input: RegisterInput, tax: Tax.TaxPolicy): Outcome {
    var c := Tax.Computation(input.lines, tax);
    if !Persistable(c) then Refused(BadRequest)
    else if NumberTaken(db.invoices, input.vendor, input.number) then Done(db)
    else Done(db.(invoices := db.invoices + [NewInvoice(db, input, c)]))
  }

  // ----- Payment runs -----

  /** The distinct identifiers, in the order of their first appearance. */
  function Unique(ids: seq<nat>): (r: seq<nat>)
    ensures forall k :: 0 <= k < |r| ==> r[k] in ids
    ensures Distinct(r)
  {
    if |ids| == 0 then []
    else
      var before := Unique(ids[..|ids| - 1]);
      if ids[|ids| - 1] in before then before else before + [ids[|ids| - 1]]
  }

  predicate UnverifiedBank(v: Batch.VendorBank) {
    v.account.NotAnObject? || v.verifiedAt.None? || v.verifiedBy.None? || v.changedAt.Some? || v.submittedBy.Some?
  }

  predicate OrderIsLive(db: Db, inv: Invoice) {
    inv.po.Some? ==> inv.po.value < |db.pos| && IsLive(db.pos[inv.po.value])
  }

  function SnapshotFor(db: Db, inv: Invoice): Option<Batch.Snapshot> {
    if inv.vendor < |db.vendors|
    then Batch.FreezeBeneficiary(inv.number, inv.vendor, db.vendors[inv.vendor].bank)
    else None
  }

  predicate Claimed(db: Db, v: nat) {
    exists i :: 0 <= i < |db.runLines| && db.runLines[i].invoice == v && LiveClaim(db.runs, db.runLines[i])
  }

  function NetsOf(db: Db, ids: seq<nat>): seq<int>
    requires IdsIn(ids, db.invoices)
  {
    seq(|ids|, k requires 0 <= k < |ids| => NetPayable(db.invoices[ids[k]]))
  }

  predicate AllFreezable(db: Db, ids: seq<nat>)
    requires IdsIn(ids, db.invoices)
  {
    forall k :: 0 <= k < |ids| ==> SnapshotFor(db, db.invoices[ids[k]]).Some?
  }

  /** The first row that cannot be frozen is one whose vendor is gone. */
  predicate VendorMissingFirst(db: Db, ids: seq<nat>)
    requires IdsIn(ids, db.invoices)
  {
    exists k :: 0 <= k < |ids| && db.invoices[ids[k]].vendor >= |db.vendors| && AllFreezable(db, ids[..k])
  }

  function PlannedLines(db: Db, ids: seq<nat>, run: nat): seq<RunLine>
    requires IdsIn(ids, db.invoices) && AllFreezable(db, ids)
  {
    seq(|ids|, k requires 0 <= k < |ids| =>
      RunLine(run, ids[k], NetPayable(db.invoices[ids[k]]), SnapshotFor(db, db.invoices[ids[k]]).value, Planned))
  }

  predicate SomeUnverified(db: Db, ids: seq<nat>)
    requires IdsIn(ids, db.invoices)
  {
    exists k :: 0 <= k < |ids| && db.invoices[ids[k]].vendor < |db.vendors|
                && UnverifiedBank(db.vendors[db.invoices[ids[k]].vendor].bank)
  }

  predicate AllMatched(invoices: seq<Invoice>, ids: seq<nat>)
    requires IdsIn(ids, invoices)
  {
    forall k :: 0 <= k < |ids| ==> invoices[ids[k]].status == MatchedStatus
  }

  predicate AllLive(db: Db, ids: seq<nat>)
    requires IdsIn(ids, db.invoices)
  {
    forall k :: 0 <= k < |ids| ==> OrderIsLive(db, db.invoices[ids[k]])
  }

  /** The first row that cannot be frozen decides how freezing is refused. */
  function FreezeGate(db: Db, ids: seq<nat>): Option<Refusal>
    requires IdsIn(ids, db.invoices)
  {
    if VendorMissingFirst(db, ids) then Some(NotFound)
    else if !AllFreezable(db, ids) then Some(BadRequest)
    else None
  }

  predicate AllInPesos(invoices: seq<Invoice>, ids: seq<nat>)
    requires IdsIn(ids, invoices)
  {
    forall k :: 0 <= k < |ids| ==> invoices[ids[k]].currency == PHP
  }

  predicate SomeClaimed(db: Db, ids: seq<nat>) {
    exists k :: 0 <= k < |ids| && Claimed(db, ids[k])
  }

  /** The first gate that stops a run over the invoices `ids`, if any. */
  function PlanningGate(db: Db, ids: seq<nat>): Option<Refusal>
    requires IdsIn(ids, db.invoices)
  {
    if SomeUnverified(db, ids) then Some(BadRequest)
    else if !AllMatched(db.invoices, ids) then Some(BadRequest)
    else if !AllLive(db, ids) then Some(Conflict)
    else if FreezeGate(db, ids).Some? then FreezeGate(db, ids)
    else if !AllInPesos(db.invoices, ids) then Some(BadRequest)
    else if !IsDatabaseInt(Sum(NetsOf(db, ids))) then Some(BadRequest)
    else if SomeClaimed(db, ids) then Some(Conflict)
    else None
  }

  function CreateRun(db: Db, invoiceIds: seq<nat>, maker: string): Outcome {
    var ids := Unique(invoiceIds);
    if |invoiceIds| == 0 then Refused(BadRequest)
    else if !IdsIn(ids, db.invoices) then Refused(NotFound)
    else
      match PlanningGate(db, ids)
      case Some(why) => Refused(why)
      case None =>
        GateImpliesFreezable(db, ids);
        Done(db.(
             runs := db.runs + [Run(maker, None, None, RunDraft, Sum(NetsOf(db, ids)))],
             runLines := db.runLines + PlannedLines(db, ids, |db.runs|)))
  }

  lemma GateImpliesFreezable(db: Db, ids: seq<nat>)
    requires IdsIn(ids, db.invoices) && PlanningGate(db, ids).None?
    ensures AllFreezable(db, ids)
  {
  }

  function ApproveRun(db: Db, r: nat, actor: string): Outcome {
    if r >= |db.runs| then Refused(NotFound)
    else if db.runs[r].status != RunDraft then Refused(Conflict)
    else if db.runs[r].createdBy == actor then Refused(BadRequest)
    else Done(db.(runs := db.runs[r := db.runs[r].(status := RunApproved, approvedBy := Some(actor))]))
  }

  function ExecuteRun(db: Db, r: nat): Outcome {
    if r >= |db.runs| then Refused(NotFound)
    else if db.runs[r].status != RunApproved then Refused(Conflict)
    else Done(db.(runs := db.runs[r := db.runs[r].(status := RunExecuted)]))
  }

  function VoidRun(db: Db, r: nat, actor: string, blankReason: bool): Outcome {
    if blankReason then Refused(BadRequest)
    else if r >= |db.runs| then Refused(NotFound)
    else if db.runs[r].status != RunDraft && db.runs[r].status != RunApproved then Refused(Conflict)
    else if db.runs[r].status == RunApproved && db.runs[r].createdBy == actor then Refused(BadRequest)
    else Done(db.(runs := db.runs[r := db.runs[r].(status := RunVoided, voidedBy := Some(actor))]))
  }

  datatype BankOutcome = BankPaid | BankDishonored | BankRejected

  function LineStatus(o: BankOutcome): PaymentStatus {
    match o case BankPaid => LinePaid case BankDishonored => Dishonored case BankRejected => LineRejected
  }

  predicate StillPlanned(runLines: seq<RunLine>, r: nat) {
    exists i :: 0 <= i < |runLines| && runLines[i].run == r && runLines[i].status == Planned
  }

  function Reconcile(db: Db, r: nat, l: nat, outcome: BankOutcome): Outcome {
    if r >= |db.runs| then Refused(NotFound)
    else if db.runs[r].status != RunExecuted then Refused(Conflict)
    else if l >= |db.runLines| || db.runLines[l].run != r then Refused(NotFound)
    else if db.runLines[l].status != Planned then Refused(Conflict)
    else if outcome == BankPaid && db.runLines[l].invoice >= |db.invoices| then Refused(NotFound)
    else
      var decided := db.(runLines := db.runLines[l := db.runLines[l].(status := LineStatus(outcome))]);
      var settled := if outcome == BankPaid then SettlePaid(decided, db.runLines[l].invoice) else decided;
      Done(CloseIfDone(settled, r))
  }

  function CloseIfDone(db: Db, r: nat): Db
    requires r < |db.runs|
  {
    if StillPlanned(db.runLines, r) then db
    else db.(runs := db.runs[r := db.runs[r].(status := RunReconciled)])
  }

  /** A paid invoice moves from committed to spent once, never below zero. */
  function SettlePaid(db: Db, i: nat): Db
    requires i < |db.invoices|
  {
    var inv := db.invoices[i];
    if inv.status == Paid then db
    else
      var paid := db.(invoices := db.invoices[i := inv.(status := Paid)]);
      if inv.po.None? || inv.po.value >= |db.pos| then paid
      else match BudgetOf(db.reqs, db.pos[inv.po.value])
           case None => paid
           case Some(b) =>
             if b >= |db.budgets| then paid
             else paid.(budgets := db.budgets[b := db.budgets[b].(
                          committed := Max(0, db.budgets[b].committed - inv.amount),
                          spent := db.budgets[b].spent + inv.amount)])
  }

  // ----- Any transaction, and any run of them -----

  datatype Event =
    | EvAddBudget(currency: string, limit: int)
    | EvPutVendor(id: nat, vendor: Vendor)
    | EvCreateRequisition(requester: string, costCenter: string, budget: Option<nat>, inputs: seq<LineInput>)
    | EvSubmit(id: nat, policy: Option<PolicyEngine.ThresholdPolicy>)
    | EvRequestQuotes(r: nat, vendors: seq<nat>)
    | EvReceiveQuote(q: nat, total: int, offered: Option<string>, validUntil: Option<int>,
        offer: Option<seq<OfferLine>>)
    | EvAward(q: nat, now: int)
    | EvIssue(r: nat, v: nat, terms: Terms, actor: string, now: int)
    | EvConfirm(p: nat)
    | EvRequestCancellation(p: nat, actor: string)
    | EvDecide(k: nat, verdict: Verdict, actor: string, credentials: Credentials)
    | EvRecordReceipt(p: nat, received: seq<ReceiptInput>)
    | EvCancelReceipt(r: nat)
    | EvRegister(input: RegisterInput, tax: Tax.TaxPolicy)
    | EvCreateRun(ids: seq<nat>, maker: string)
    | EvApproveRun(r: nat, actor: string)
    | EvExecuteRun(r: nat)
    | EvReconcile(r: nat, l: nat, outcome: BankOutcome)
    | EvVoidRun(r: nat, actor: string, blankReason: bool)

  function Perform(db: Db, e: Event): Outcome {
    match e
    case EvAddBudget(currency, limit) => AddBudget(db, currency, limit)
    case EvPutVendor(id, v) => PutVendor(db, id, v)
    case EvCreateRequisition(who, cc, b, inputs) => CreateRequisition(db, who, cc, b, inputs)
    case EvSubmit(id, policy) => SubmitRequisition(db, id, policy)
    case EvRequestQuotes(r, vendors) => RequestQuotes(db, r, vendors)
    case EvReceiveQuote(q, total, offered, until, offer) => ReceiveQuote(db, q, total, offered, until, offer)
    case EvAward(q, now) => AwardQuote(db, q, now)
    case EvIssue(r, v, terms, actor, now) => IssuePo(db, r, v, terms, actor, now)
    case EvConfirm(p) => ConfirmPo(db, p)
    case EvRequestCancellation(p, actor) => RequestCancellation(db, p, actor)
    case EvDecide(k, verdict, actor, evidence) => Decide(db, k, verdict, actor, evidence)
    case EvRecordReceipt(p, received) => RecordReceipt(db, p, received)
    case EvCancelReceipt(r) => CancelReceipt(db, r)
    case EvRegister(input, tax) => Register(db, input, tax)
    case EvCreateRun(ids, maker) => CreateRun(db, ids, maker)
    case EvApproveRun(r, actor) => ApproveRun(db, r, actor)
    case EvExecuteRun(r) => ExecuteRun(db, r)
    case EvReconcile(r, l, outcome) => Reconcile(db, r, l, outcome)
    case EvVoidRun(r, actor, blank) => VoidRun(db, r, actor, blank)
  }

  function Step(db: Db, e: Event): Db {
    After(db, Perform(db, e))
  }

  /** The database after a whole history of transactions, refused ones included. */
  function Replay(history: seq<Event>): Db {
    if |history| == 0 then EMPTY else Step(Replay(history[..|history| - 1]), history[|history| - 1])
  }
}

/** Requisitions and their gates: what a submission and a decision do, and how the
    status of a requisition follows its spend gate over whole histories. */
module RequisitionTheorems {
  import opened Common
  import opened Sums
  import opened Matching
  import opened LedgerModel
  import opened LedgerSteps
  import opened LedgerTheorems
  import PolicyEngine

  /** A non-negative value of a signed 32-bit column. */
  predicate FitsColumn(n: int) {
    0 <= n <= 2_147_483_647
  }

  // ----- Budgets -----

  /** A budget is opened with a limit that fits the column, nothing committed and
      nothing spent. */
  lemma BudgetIsOpened(db: Db, currency: string, limit: int)
    ensures AddBudget(db, currency, limit)
         == (if FitsColumn(limit) then Done(db.(budgets := db.budgets + [Budget(currency, limit, 0, 0)]))
             else Refused(BadRequest))
  {
  }

  // ----- A new requisition -----

  predicate LinesFit(inputs: seq<LineInput>) {
    |inputs| > 0
    && (forall i :: 0 <= i < |inputs| ==>
          FitsColumn(inputs[i].quantity) && FitsColumn(inputs[i].unitPrice)
          && FitsColumn(inputs[i].quantity * inputs[i].unitPrice) && inputs[i].currency == inputs[0].currency)
    && FitsColumn(Sum(Prices(inputs)))
  }

  function Prices(inputs: seq<LineInput>): seq<int> {
    seq(|inputs|, i requires 0 <= i < |inputs| => inputs[i].quantity * inputs[i].unitPrice)
  }

  /** A requisition is created exactly when its lines fit the columns in one currency,
      and its budget, if it names one, exists in that currency. It starts as a draft
      with the lines as given, each priced at quantity times unit price. */
  lemma RequisitionIsCreated(db: Db, requester: string, costCenter: string, budget: Option<nat>, inputs: seq<LineInput>)
    ensures CreateRequisition(db, requester, costCenter, budget, inputs).Done?
       <==> LinesFit(inputs)
            && (budget.Some? ==>
                  budget.value < |db.budgets| && db.budgets[budget.value].currency == inputs[0].currency)
    ensures CreateRequisition(db, requester, costCenter, budget, inputs).Refused? ==>
              CreateRequisition(db, requester, costCenter, budget, inputs).why
              == (if LinesFit(inputs) && budget.Some? && budget.value >= |db.budgets| then NotFound else BadRequest)
    ensures CreateRequisition(db, requester, costCenter, budget, inputs).Done? ==>
              var after, n := CreateRequisition(db, requester, costCenter, budget, inputs).db, |db.reqs|;
              |inputs| > 0 && |after.reqs| == n + 1
              && after == db.(reqs := db.reqs + [Requisition(requester, costCenter, ReqDraft, budget,
                                                             inputs[0].currency, after.reqs[n].lines)])
              && |after.reqs[n].lines| == |inputs|
              && forall i :: 0 <= i < |inputs| ==>
                   after.reqs[n].lines[i] == Line(inputs[i].quantity, inputs[i].unitPrice,
                                                  inputs[i].quantity * inputs[i].unitPrice)
  {
    assert LineTotals(PricedLines(inputs)) == Prices(inputs);
  }

  // ----- One decision -----

  /** An open gate, a known user on its route or an administrator, not its maker, and
      evidence for an override. */
  predicate DecisionAllowed(db: Db, k: nat, verdict: Verdict, actor: string, c: Credentials) {
    k < |db.approvals| && db.approvals[k].status == Pending && db.approvals[k].requestedBy != actor
    && c.role.Some? && (c.role.value == "admin" || c.role.value in db.approvals[k].route)
    && (verdict == Override ==> c.hasEvidence)
  }

  /** The gate afterwards: decided by the actor as the verdict says. */
  predicate DecidedAs(before: Approval, after: Approval, verdict: Verdict, actor: string) {
    after == before.(status := after.status, decidedBy := Some(Human(actor)))
    && (after.status == ApprovalApproved <==> verdict == Approve)
    && (after.status == ApprovalRejected <==> verdict == Reject)
    && (after.status == Overridden <==> verdict == Override)
  }

  /** A decision that goes through was allowed, and among the gates it changes only the
      decided one. */
  lemma DecisionIsRecorded(db: Db, k: nat, verdict: Verdict, actor: string, c: Credentials)
    ensures Decide(db, k, verdict, actor, c).Done? ==>
              DecisionAllowed(db, k, verdict, actor, c)
              && var after := Decide(db, k, verdict, actor, c).db;
                 |after.approvals| == |db.approvals| && DecidedAs(db.approvals[k], after.approvals[k], verdict, actor)
                 && forall j :: 0 <= j < |db.approvals| && j != k ==> after.approvals[j] == db.approvals[j]
  {
  }

  /** Why a decision is refused before it has any effect. */
  lemma DecisionRefusals(db: Db, k: nat, verdict: Verdict, actor: string, c: Credentials)
    ensures k >= |db.approvals| ==> Decide(db, k, verdict, actor, c) == Refused(NotFound)
    ensures k < |db.approvals| && db.approvals[k].status != Pending ==>
              Decide(db, k, verdict, actor, c) == Refused(Conflict)
    ensures k < |db.approvals| && db.approvals[k].status == Pending && verdict == Override && !c.hasEvidence ==>
              Decide(db, k, verdict, actor, c) == Refused(BadRequest)
    ensures k < |db.approvals| && db.approvals[k].status == Pending && (verdict == Override ==> c.hasEvidence)
            && !DecisionAllowed(db, k, verdict, actor, c) ==>
              Decide(db, k, verdict, actor, c) == Refused(Forbidden)
  {
  }

  predicate SomeGate(db: Db, r: nat, s: ApprovalStatus) {
    exists k :: 0 <= k < |db.approvals| && db.approvals[k].requisition == Some(r) && db.approvals[k].status == s
  }

  predicate DecidesRequisition(a: Approval) {
    a.kind != PolicyEngine.PoCancellation && !(a.kind == PolicyEngine.VendorGate && a.vendor.Some?)
    && a.requisition.Some?
  }

  /** A decision on a spend gate goes through exactly when it is allowed. Afterwards the
      requisition is rejected if any of its gates is, still submitted while one is open,
      and approved otherwise; nothing else changes but the gate itself. */
  lemma SpendDecision(db: Db, k: nat, verdict: Verdict, actor: string, c: Credentials)
    requires k < |db.approvals| && DecidesRequisition(db.approvals[k])
    requires db.approvals[k].requisition.value < |db.reqs|
    ensures Decide(db, k, verdict, actor, c).Done? <==> DecisionAllowed(db, k, verdict, actor, c)
    ensures Decide(db, k, verdict, actor, c).Done? ==>
              var after, r := Decide(db, k, verdict, actor, c).db, db.approvals[k].requisition.value;
              after == db.(approvals := after.approvals,
                           reqs := db.reqs[r := db.reqs[r].(status := after.reqs[r].status)])
              && (after.reqs[r].status == ReqRejected <==> SomeGate(after, r, ApprovalRejected))
              && (after.reqs[r].status == ReqSubmitted
                  <==> !SomeGate(after, r, ApprovalRejected) && SomeGate(after, r, Pending))
              && (after.reqs[r].status == ReqApproved
                  <==> !SomeGate(after, r, ApprovalRejected) && !SomeGate(after, r, Pending))
  {
    if Decide(db, k, verdict, actor, c).Done? {
      var after, r := Decide(db, k, verdict, actor, c).db, db.approvals[k].requisition.value;
      assert after.approvals[k].requisition == Some(r);
      assert verdict == Reject ==> after.approvals[k].status == ApprovalRejected;
    }
  }

  /** A decision on a vendor gate goes through exactly when it is allowed and, unless it
      rejects, the vendor exists. Anything but a rejection makes the vendor active; a
      rejection leaves it as it is. No requisition and no other vendor changes. */
  lemma VendorDecision(db: Db, k: nat, verdict: Verdict, actor: string, c: Credentials)
    requires k < |db.approvals|
    requires db.approvals[k].kind == PolicyEngine.VendorGate && db.approvals[k].vendor.Some?
    ensures var v := db.approvals[k].vendor.value;
            Decide(db, k, verdict, actor, c).Done?
            <==> DecisionAllowed(db, k, verdict, actor, c) && (verdict != Reject ==> v < |db.vendors|)
    ensures Decide(db, k, verdict, actor, c).Done? ==>
              var after, v := Decide(db, k, verdict, actor, c).db, db.approvals[k].vendor.value;
              after == db.(approvals := after.approvals, vendors := after.vendors)
              && (if verdict == Reject then after.vendors == db.vendors
                  else after.vendors == db.vendors[v := db.vendors[v].(status := PolicyEngine.Active)])
    ensures DecisionAllowed(db, k, verdict, actor, c) && Decide(db, k, verdict, actor, c).Refused? ==>
              Decide(db, k, verdict, actor, c).why == NotFound
  {
  }

  /** Rejecting a cancellation touches nothing but its gate; approving or overriding it
      goes through only together with the cancellation of the order it names. */
  lemma CancellationDecision(db: Db, k: nat, verdict: Verdict, actor: string, c: Credentials)
    requires k < |db.approvals| && db.approvals[k].kind == PolicyEngine.PoCancellation
    ensures verdict == Reject ==>
              (Decide(db, k, verdict, actor, c).Done? <==> DecisionAllowed(db, k, verdict, actor, c))
    ensures Decide(db, k, verdict, actor, c).Done? ==>
              var after, po := Decide(db, k, verdict, actor, c).db, db.approvals[k].po;
              (verdict == Reject ==> after == db.(approvals := after.approvals))
              && (verdict != Reject ==>
                    po.Some? && po.value < |db.pos| && po.value < |after.pos|
                    && after.pos[po.value].status == PoCancelled)
              && after.reqs == db.reqs && after.vendors == db.vendors
    ensures DecisionAllowed(db, k, verdict, actor, c) && verdict != Reject
            && (db.approvals[k].po.Some? ==> db.approvals[k].po.value >= |db.pos|) ==>
              Decide(db, k, verdict, actor, c)
              == Refused(if db.approvals[k].po.None? then Conflict else NotFound)
  {
  }

  // ----- Submission -----

  predicate HasBudgetRow(db: Db, r: nat)
    requires r < |db.reqs|
  {
    db.reqs[r].budget.Some? ==>
      db.reqs[r].budget.value < |db.budgets| && db.budgets[db.reqs[r].budget.value].currency == db.reqs[r].currency
  }

  /** What is left of the requisition's budget; without one there is no bound. */
  predicate BudgetCovers(db: Db, r: nat, amount: int)
    requires r < |db.reqs|
  {
    db.reqs[r].budget.Some? && db.reqs[r].budget.value < |db.budgets| ==>
      var b := db.budgets[db.reqs[r].budget.value];
      amount <= b.limit - b.committed - b.spent
  }

  /** The rule is for this cost center and lets the amount through unreviewed. */
  predicate RuleCovers(db: Db, r: nat, policy: Option<PolicyEngine.ThresholdPolicy>, amount: int)
    requires r < |db.reqs|
  {
    policy.Some? && PolicyEngine.ScopeApplies(policy.value.scope, db.reqs[r].costCenter)
    && policy.value.autoApproveUpTo.Some? && 0 < amount <= policy.value.autoApproveUpTo.value
    && (policy.value.budgetRequired ==> db.reqs[r].budget.Some? && BudgetCovers(db, r, amount))
  }

  /** The rule demands a budget that is missing or does not cover the amount. */
  predicate Overruns(db: Db, r: nat, policy: Option<PolicyEngine.ThresholdPolicy>, amount: int)
    requires r < |db.reqs|
  {
    policy.Some? && PolicyEngine.ScopeApplies(policy.value.scope, db.reqs[r].costCenter)
    && policy.value.budgetRequired && (db.reqs[r].budget.None? || !BudgetCovers(db, r, amount))
  }

  /** Not found: the requisition itself, or the budget row of a draft. */
  lemma UnknownIsNotSubmitted(db: Db, r: nat, policy: Option<PolicyEngine.ThresholdPolicy>)
    ensures SubmitRequisition(db, r, policy) == Refused(NotFound)
       <==> r >= |db.reqs|
            || (db.reqs[r].status == ReqDraft && db.reqs[r].budget.Some?
                && db.reqs[r].budget.value >= |db.budgets|)
  {
  }

  /** A draft whose budget row fits is submitted. Without a positive total it becomes an
      exception that only an administrator can decide; a rule that covers it approves it
      for the system; everything else waits for the route of the rule, or for finance,
      and an overrun waits under its own kind of gate. Exactly one gate is added. */
  lemma SubmissionOpensGate(db: Db, r: nat, policy: Option<PolicyEngine.ThresholdPolicy>)
    requires r < |db.reqs|
    ensures SubmitRequisition(db, r, policy).Done? <==> db.reqs[r].status == ReqDraft && HasBudgetRow(db, r)
    ensures SubmitRequisition(db, r, policy).Refused? ==>
              SubmitRequisition(db, r, policy).why
              == (if db.reqs[r].status != ReqDraft then Conflict
                  else if db.reqs[r].budget.Some? && db.reqs[r].budget.value >= |db.budgets| then NotFound
                  else BadRequest)
    ensures SubmitRequisition(db, r, policy).Done? ==>
              var after, n := SubmitRequisition(db, r, policy).db, |db.approvals|;
              var amount := Sum(LineTotals(db.reqs[r].lines));
              |after.approvals| == n + 1
              && after == db.(approvals := db.approvals + [after.approvals[n]],
                              reqs := db.reqs[r := db.reqs[r].(status := after.reqs[r].status)])
              && var gate := after.approvals[n];
                 gate.requisition == Some(r) && gate.po.None? && gate.vendor.None?
                 && gate.requestedBy == db.reqs[r].requester
                 && (if amount <= 0 then
                       after.reqs[r].status == ReqException && gate.status == Pending && gate.decidedBy.None?
                       && gate.kind == PolicyEngine.PolicyGate && gate.route == []
                     else if RuleCovers(db, r, policy, amount) then
                       after.reqs[r].status == ReqApproved && gate.status == ApprovalApproved
                       && gate.decidedBy == Some(System) && gate.kind == PolicyEngine.ThresholdGate
                     else
                       after.reqs[r].status == ReqSubmitted && gate.status == Pending && gate.decidedBy.None?
                       && gate.kind == (if Overruns(db, r, policy, amount) then PolicyEngine.BudgetOverride
                                        else PolicyEngine.ThresholdGate)
                       && gate.route == (if policy.Some?
                                            && PolicyEngine.ScopeApplies(policy.value.scope, db.reqs[r].costCenter)
                                            && |policy.value.approvalChain| > 0
                                         then policy.value.approvalChain else ["finance"]))
  {
  }

  // ----- The status follows the gate, over whole histories -----

  /** The gate that decides the spend itself. */
  predicate IsSpendGate(a: Approval) {
    a.kind == PolicyEngine.ThresholdGate || a.kind == PolicyEngine.BudgetOverride || a.kind == PolicyEngine.PolicyGate
  }

  predicate SpendGateOf(a: Approval, r: nat) {
    IsSpendGate(a) && a.requisition == Some(r)
  }

  /** What the status of a requisition must be, given its one spend gate. */
  predicate Mirrors(status: ReqStatus, gate: Approval) {
    match gate.status
    case Pending => status == (if gate.kind == PolicyEngine.PolicyGate then ReqException else ReqSubmitted)
    case ApprovalRejected => status == ReqRejected
    case _ => status == ReqApproved
  }

  predicate OneSpendGate(approvals: seq<Approval>) {
    forall j, k :: 0 <= j < k < |approvals| && IsSpendGate(approvals[j]) && IsSpendGate(approvals[k]) ==>
      approvals[j].requisition != approvals[k].requisition
  }

  /** A spend gate is mirrored by its requisition; any other gate is about one that is
      approved. */
  predicate GateMirrored(reqs: seq<Requisition>, a: Approval) {
    a.requisition.Some? && a.requisition.value < |reqs|
    && (if IsSpendGate(a) then a.vendor.None? && Mirrors(reqs[a.requisition.value].status, a)
        else reqs[a.requisition.value].status == ReqApproved && (a.kind == PolicyEngine.VendorGate ==> a.vendor.Some?))
  }

  predicate HasSpendGate(approvals: seq<Approval>, r: nat) {
    exists k :: 0 <= k < |approvals| && SpendGateOf(approvals[k], r)
  }

  predicate DraftWithoutGate(db: Db, r: nat)
    requires r < |db.reqs|
  {
    db.reqs[r].status == ReqDraft <==> !HasSpendGate(db.approvals, r)
  }

  predicate OrderOfApproved(reqs: seq<Requisition>, po: Po) {
    po.requisition < |reqs| && reqs[po.requisition].status == ReqApproved
  }

  /** A draft has no spend gate, everything else has one and follows it; orders are for
      approved requisitions only. */
  predicate StatusesFollow(db: Db) {
    OneSpendGate(db.approvals)
    && (forall k :: 0 <= k < |db.approvals| ==> GateMirrored(db.reqs, db.approvals[k]))
    && (forall r :: 0 <= r < |db.reqs| ==> DraftWithoutGate(db, r))
    && (forall p :: 0 <= p < |db.pos| ==> OrderOfApproved(db.reqs, db.pos[p]))
  }

  /** Requisitions are kept or drafts are added, gates are kept, and orders stay with
      their requisitions. */
  predicate KeepsSpend(a: Db, b: Db) {
    a.reqs <= b.reqs && (forall r :: |a.reqs| <= r < |b.reqs| ==> b.reqs[r].status == ReqDraft)
    && b.approvals == a.approvals && |b.pos| == |a.pos|
    && forall p :: 0 <= p < |a.pos| ==> b.pos[p].requisition == a.pos[p].requisition
  }

  lemma KeptSpendFollows(a: Db, b: Db)
    requires StatusesFollow(a) && KeepsSpend(a, b)
    ensures StatusesFollow(b)
  {
    forall k | 0 <= k < |b.approvals| ensures GateMirrored(b.reqs, b.approvals[k]) {
      assert GateMirrored(a.reqs, a.approvals[k]);
    }
    forall r | 0 <= r < |b.reqs| ensures DraftWithoutGate(b, r) {
      if r < |a.reqs| {
        assert DraftWithoutGate(a, r);
      }
    }
    forall p | 0 <= p < |b.pos| ensures OrderOfApproved(b.reqs, b.pos[p]) {
      assert OrderOfApproved(a.reqs, a.pos[p]);
    }
  }

  /** A gate about an approved requisition, and not about its spend, is added. */
  predicate AddsSideGate(a: Db, b: Db) {
    b.reqs == a.reqs && b.pos == a.pos && |b.approvals| == |a.approvals| + 1
    && b.approvals[..|a.approvals|] == a.approvals
    && !IsSpendGate(b.approvals[|a.approvals|]) && GateMirrored(b.reqs, b.approvals[|a.approvals|])
  }

  lemma SideGateFollows(a: Db, b: Db)
    requires StatusesFollow(a) && AddsSideGate(a, b)
    ensures StatusesFollow(b)
  {
    var n := |a.approvals|;
    assert forall k :: 0 <= k < n ==> b.approvals[k] == b.approvals[..n][k];
    forall r | 0 <= r < |b.reqs| ensures DraftWithoutGate(b, r) {
      assert DraftWithoutGate(a, r);
      if HasSpendGate(a.approvals, r) {
        var k :| 0 <= k < n && SpendGateOf(a.approvals[k], r);
        assert SpendGateOf(b.approvals[k], r);
      }
    }
  }

  lemma SubmissionFollows(db: Db, r: nat, policy: Option<PolicyEngine.ThresholdPolicy>)
    requires StatusesFollow(db)
    ensures StatusesFollow(After(db, SubmitRequisition(db, r, policy)))
  {
    var after, n := After(db, SubmitRequisition(db, r, policy)), |db.approvals|;
    if SubmitRequisition(db, r, policy).Done? {
      SubmissionOpensGate(db, r, policy);
      assert DraftWithoutGate(db, r);
      assert SpendGateOf(after.approvals[n], r);
      forall k | 0 <= k < n ensures GateMirrored(after.reqs, after.approvals[k]) {
        assert GateMirrored(db.reqs, db.approvals[k]) && !SpendGateOf(db.approvals[k], r);
      }
      forall other | 0 <= other < |after.reqs| ensures DraftWithoutGate(after, other) {
        SpendGatesOfOthers(db.approvals, after.approvals[n], r, other);
        assert DraftWithoutGate(db, other);
      }
      forall p | 0 <= p < |after.pos| ensures OrderOfApproved(after.reqs, after.pos[p]) {
        assert OrderOfApproved(db.reqs, db.pos[p]);
      }
    }
  }

  lemma SpendGatesOfOthers(approvals: seq<Approval>, gate: Approval, r: nat, other: nat)
    requires SpendGateOf(gate, r)
    ensures HasSpendGate(approvals + [gate], other) <==> other == r || HasSpendGate(approvals, other)
  {
    var after, n := approvals + [gate], |approvals|;
    assert after[n] == gate;
    if HasSpendGate(approvals, other) {
      var k :| 0 <= k < n && SpendGateOf(approvals[k], other);
      assert SpendGateOf(after[k], other);
    }
  }

  /** The decided gate keeps what it is about. */
  lemma DecidedGatesOf(approvals: seq<Approval>, k: nat, gate: Approval, r: nat)
    requires k < |approvals| && gate.kind == approvals[k].kind && gate.requisition == approvals[k].requisition
    ensures HasSpendGate(approvals[k := gate], r) <==> HasSpendGate(approvals, r)
  {
    var after := approvals[k := gate];
    if HasSpendGate(approvals, r) {
      var j :| 0 <= j < |approvals| && SpendGateOf(approvals[j], r);
      assert SpendGateOf(after[j], r);
    }
  }

  /** While the spend is open no other gate of the requisition exists. */
  lemma OnlyGateOf(db: Db, k: nat, j: nat)
    requires StatusesFollow(db) && k < |db.approvals| && j < |db.approvals| && j != k
    requires IsSpendGate(db.approvals[k]) && db.approvals[k].status == Pending
    ensures db.approvals[j].requisition != db.approvals[k].requisition
  {
    assert GateMirrored(db.reqs, db.approvals[k]) && GateMirrored(db.reqs, db.approvals[j]);
  }

  lemma SpendDecisionFollows(db: Db, k: nat, verdict: Verdict, actor: string, c: Credentials)
    requires StatusesFollow(db) && k < |db.approvals| && IsSpendGate(db.approvals[k])
    requires Decide(db, k, verdict, actor, c).Done?
    ensures StatusesFollow(Decide(db, k, verdict, actor, c).db)
  {
    var after := Decide(db, k, verdict, actor, c).db;
    var gate := db.approvals[k];
    assert GateMirrored(db.reqs, gate);
    var r := gate.requisition.value;
    DecisionIsRecorded(db, k, verdict, actor, c);
    SpendDecision(db, k, verdict, actor, c);
    assert after.approvals == db.approvals[k := after.approvals[k]];
    forall j | 0 <= j < |after.approvals| ensures GateMirrored(after.reqs, after.approvals[j]) {
      assert GateMirrored(db.reqs, db.approvals[j]);
      if j != k {
        OnlyGateOf(db, k, j);
      } else {
        OtherGatesAreElsewhere(db, after, k);
      }
    }
    forall other | 0 <= other < |after.reqs| ensures DraftWithoutGate(after, other) {
      DecidedGatesOf(db.approvals, k, after.approvals[k], other);
      assert DraftWithoutGate(db, other);
    }
    forall p | 0 <= p < |after.pos| ensures OrderOfApproved(after.reqs, after.pos[p]) {
      assert OrderOfApproved(db.reqs, db.pos[p]);
    }
  }

  lemma OtherGatesAreElsewhere(db: Db, after: Db, k: nat)
    requires StatusesFollow(db) && k < |db.approvals|
    requires IsSpendGate(db.approvals[k]) && db.approvals[k].status == Pending && db.approvals[k].requisition.Some?
    requires |after.approvals| == |db.approvals| && after.approvals[k].requisition == db.approvals[k].requisition
    requires forall j :: 0 <= j < |db.approvals| && j != k ==> after.approvals[j] == db.approvals[j]
    ensures forall s :: SomeGate(after, db.approvals[k].requisition.value, s) <==> after.approvals[k].status == s
  {
    forall j | 0 <= j < |db.approvals| && j != k
      ensures after.approvals[j].requisition != db.approvals[k].requisition
    {
      OnlyGateOf(db, k, j);
    }
  }

  /** Any other decision leaves the requisitions alone. */
  lemma SideDecisionFollows(db: Db, k: nat, verdict: Verdict, actor: string, c: Credentials)
    requires StatusesFollow(db) && k < |db.approvals| && !IsSpendGate(db.approvals[k])
    requires Decide(db, k, verdict, actor, c).Done?
    ensures StatusesFollow(Decide(db, k, verdict, actor, c).db)
  {
    var after := Decide(db, k, verdict, actor, c).db;
    assert GateMirrored(db.reqs, db.approvals[k]);
    DecisionIsRecorded(db, k, verdict, actor, c);
    if db.approvals[k].kind == PolicyEngine.VendorGate {
      VendorDecision(db, k, verdict, actor, c);
    } else {
      CancellationDecision(db, k, verdict, actor, c);
    }
    DecisionMovesOneOrder(db, k, verdict, actor, c);
    assert after.approvals == db.approvals[k := after.approvals[k]];
    forall r | 0 <= r < |after.reqs| ensures DraftWithoutGate(after, r) {
      DecidedGatesOf(db.approvals, k, after.approvals[k], r);
      assert DraftWithoutGate(db, r);
    }
    forall p | 0 <= p < |after.pos| ensures OrderOfApproved(after.reqs, after.pos[p]) {
      assert OrderOfApproved(db.reqs, db.pos[p]);
    }
  }

  lemma IssueFollows(db: Db, r: nat, v: nat, terms: Terms, actor: string, now: int)
    requires StatusesFollow(db)
    ensures StatusesFollow(After(db, IssuePo(db, r, v, terms, actor, now)))
  {
    var after := After(db, IssuePo(db, r, v, terms, actor, now));
    if |after.approvals| > |db.approvals| {
      SideGateFollows(db, after);
    } else {
      assert after.reqs == db.reqs && after.approvals == db.approvals;
      forall s | 0 <= s < |after.reqs| ensures DraftWithoutGate(after, s) {
        assert DraftWithoutGate(db, s);
      }
      forall p | 0 <= p < |after.pos| ensures OrderOfApproved(after.reqs, after.pos[p]) {
        assert p < |db.pos| ==> after.pos[p] == db.pos[p] && OrderOfApproved(db.reqs, db.pos[p]);
      }
    }
  }

  lemma CancellationRequestFollows(db: Db, p: nat, actor: string)
    requires StatusesFollow(db)
    ensures StatusesFollow(After(db, RequestCancellation(db, p, actor)))
  {
    var after := After(db, RequestCancellation(db, p, actor));
    if |after.approvals| > |db.approvals| {
      assert OrderOfApproved(db.reqs, db.pos[p]);
      SideGateFollows(db, after);
    }
  }

  predicate WritesSpend(e: Event) {
    e.EvSubmit? || e.EvIssue? || e.EvRequestCancellation? || e.EvDecide?
  }

  predicate Sources(e: Event) {
    e.EvAddBudget? || e.EvPutVendor? || e.EvCreateRequisition? || e.EvRequestQuotes? || e.EvReceiveQuote?
    || e.EvAward? || e.EvConfirm?
  }

  lemma SourcingKeepsSpend(db: Db, e: Event)
    requires Sources(e)
    ensures KeepsSpend(db, Step(db, e))
  {
  }

  lemma OthersKeepSpend(db: Db, e: Event)
    requires !WritesSpend(e)
    ensures KeepsSpend(db, Step(db, e))
  {
    if Sources(e) {
      SourcingKeepsSpend(db, e);
    }
  }

  lemma StepFollows(db: Db, e: Event)
    requires StatusesFollow(db)
    ensures StatusesFollow(Step(db, e))
  {
    match e
    case EvSubmit(r, policy) => SubmissionFollows(db, r, policy);
    case EvIssue(r, v, terms, actor, now) => IssueFollows(db, r, v, terms, actor, now);
    case EvRequestCancellation(p, actor) => CancellationRequestFollows(db, p, actor);
    case EvDecide(k, verdict, actor, c) =>
      if Decide(db, k, verdict, actor, c).Done? {
        if IsSpendGate(db.approvals[k]) {
          SpendDecisionFollows(db, k, verdict, actor, c);
        } else {
          SideDecisionFollows(db, k, verdict, actor, c);
        }
      }
    case _ =>
      OthersKeepSpend(db, e);
      KeptSpendFollows(db, Step(db, e));
  }

  lemma {:induction false} EveryHistoryFollows(history: seq<Event>)
    ensures StatusesFollow(LedgerSteps.Replay(history))
  {
    if |history| > 0 {
      var before := history[..|history| - 1];
      EveryHistoryFollows(before);
      StepFollows(LedgerSteps.Replay(before), history[|history| - 1]);
    }
  }

  predicate SpendGateIn(db: Db, r: nat, s: ApprovalStatus) {
    exists k :: 0 <= k < |db.approvals| && SpendGateOf(db.approvals[k], r) && db.approvals[k].status == s
  }

  /** In every reachable state the status of a requisition is what was decided about
      its spend: approved if and only if its gate was approved or overridden, rejected
      if and only if it was rejected, waiting or blocked if and only if it is open, and
      a draft if and only if it has none. It never has two. */
  lemma StatusIsTheDecision(history: seq<Event>, r: nat)
    requires r < |LedgerSteps.Replay(history).reqs|
    ensures var db := LedgerSteps.Replay(history);
            var status := db.reqs[r].status;
            (status == ReqApproved <==> SpendGateIn(db, r, ApprovalApproved) || SpendGateIn(db, r, Overridden))
            && (status == ReqRejected <==> SpendGateIn(db, r, ApprovalRejected))
            && (status == ReqSubmitted || status == ReqException <==> SpendGateIn(db, r, Pending))
            && (status == ReqDraft <==> !HasSpendGate(db.approvals, r))
            && forall j, k :: 0 <= j < k < |db.approvals| && SpendGateOf(db.approvals[j], r) ==>
                 !SpendGateOf(db.approvals[k], r)
  {
    EveryHistoryFollows(history);
    var db := LedgerSteps.Replay(history);
    assert DraftWithoutGate(db, r);
    forall k | 0 <= k < |db.approvals| && SpendGateOf(db.approvals[k], r)
      ensures Mirrors(db.reqs[r].status, db.approvals[k])
    {
      assert GateMirrored(db.reqs, db.approvals[k]);
    }
  }

  /** A requisition that was submitted or blocked becomes approved only by a decision
      on its one spend gate, taken by somebody who may and did not ask for it, and no
      gate of it is open or rejected then. */
  lemma ApprovalNeedsItsGate(history: seq<Event>, e: Event, r: nat)
    requires r < |LedgerSteps.Replay(history).reqs|
    requires LedgerSteps.Replay(history).reqs[r].status in {ReqSubmitted, ReqException, ReqRejected}
    ensures var db := LedgerSteps.Replay(history);
            var after := Step(db, e);
            r < |after.reqs|
            && (after.reqs[r].status == ReqApproved ==>
                  db.reqs[r].status != ReqRejected && e.EvDecide? && e.verdict != Reject
                  && DecisionAllowed(db, e.k, e.verdict, e.actor, e.credentials)
                  && SpendGateOf(db.approvals[e.k], r)
                  && !SomeGate(after, r, Pending) && !SomeGate(after, r, ApprovalRejected))
  {
    EveryHistoryFollows(history);
    var db := LedgerSteps.Replay(history);
    ApprovingStep(db, e, r);
  }

  lemma ApprovingStep(db: Db, e: Event, r: nat)
    requires StatusesFollow(db) && r < |db.reqs| && db.reqs[r].status in {ReqSubmitted, ReqException, ReqRejected}
    ensures var after := Step(db, e);
            r < |after.reqs|
            && (after.reqs[r].status == ReqApproved ==>
                  db.reqs[r].status != ReqRejected && e.EvDecide? && e.verdict != Reject
                  && DecisionAllowed(db, e.k, e.verdict, e.actor, e.credentials)
                  && SpendGateOf(db.approvals[e.k], r)
                  && !SomeGate(after, r, Pending) && !SomeGate(after, r, ApprovalRejected))
  {
    if e.EvDecide? {
      DecidingStep(db, e.k, e.verdict, e.actor, e.credentials, r);
    } else {
      OnlySubmitMovesRequisition(db, e, r);
    }
  }

  lemma SubmissionMovesDrafts(db: Db, id: nat, policy: Option<PolicyEngine.ThresholdPolicy>, r: nat)
    requires r < |db.reqs| && db.reqs[r].status != ReqDraft
    ensures var after := After(db, SubmitRequisition(db, id, policy));
            r < |after.reqs| && after.reqs[r] == db.reqs[r]
  {
  }

  lemma IssueKeepsRequisitions(db: Db, r: nat, v: nat, terms: Terms, actor: string, now: int)
    ensures After(db, IssuePo(db, r, v, terms, actor, now)).reqs == db.reqs
  {
  }

  lemma RequestKeepsRequisitions(db: Db, p: nat, actor: string)
    ensures After(db, RequestCancellation(db, p, actor)).reqs == db.reqs
  {
  }

  lemma OnlySubmitMovesRequisition(db: Db, e: Event, r: nat)
    requires !e.EvDecide? && r < |db.reqs| && db.reqs[r].status != ReqDraft
    ensures r < |Step(db, e).reqs| && Step(db, e).reqs[r] == db.reqs[r]
  {
    match e
    case EvSubmit(id, policy) => SubmissionMovesDrafts(db, id, policy, r);
    case EvIssue(id, v, terms, actor, now) => IssueKeepsRequisitions(db, id, v, terms, actor, now);
    case EvRequestCancellation(p, actor) => RequestKeepsRequisitions(db, p, actor);
    case _ => OthersKeepSpend(db, e);
  }

  lemma DecidingStep(db: Db, k: nat, verdict: Verdict, actor: string, c: Credentials, r: nat)
    requires StatusesFollow(db) && r < |db.reqs| && db.reqs[r].status in {ReqSubmitted, ReqException, ReqRejected}
    ensures var after := After(db, Decide(db, k, verdict, actor, c));
            r < |after.reqs|
            && (after.reqs[r].status == ReqApproved ==>
                  db.reqs[r].status != ReqRejected && verdict != Reject && DecisionAllowed(db, k, verdict, actor, c)
                  && SpendGateOf(db.approvals[k], r)
                  && !SomeGate(after, r, Pending) && !SomeGate(after, r, ApprovalRejected))
  {
    if Decide(db, k, verdict, actor, c).Done? {
      DecisionIsRecorded(db, k, verdict, actor, c);
      assert GateMirrored(db.reqs, db.approvals[k]);
      if IsSpendGate(db.approvals[k]) {
        SpendDecision(db, k, verdict, actor, c);
      } else if db.approvals[k].kind == PolicyEngine.VendorGate {
        VendorDecision(db, k, verdict, actor, c);
      } else {
        CancellationDecision(db, k, verdict, actor, c);
      }
    }
  }
}

/** The gates evaluated inside a requisition submit and a purchase-order issue. */
module PolicyEngine {
  import opened Common

  datatype ThresholdPolicy = ThresholdPolicy(
    name: string,
    version: int,
    scope: Option<string>,
    autoApproveUpTo: Option<int>,
    approvalChain: seq<string>,
    budgetRequired: bool)

  datatype GateContext = GateContext(
    costCenter: string,
    amount: int,
    budgetAssigned: bool,
    budgetRemaining: Option<int>)

  datatype GateOutcome = Pass | NeedApproval | Block

  datatype GateKind = ThresholdGate | BudgetOverride | VendorGate | PolicyGate | PoCancellation

  datatype GateDecision = GateDecision(outcome: GateOutcome, kind: GateKind, approvers: seq<string>)

  const SCOPE_PREFIX: string := "costCenter:"

  /** What `.` does not match in a regular expression. */
  predicate IsLineTerminator(c: char) {
    var u := c as int;
    u == 10 || u == 13 || u == 0x2028 || u == 0x2029
  }

  predicate HasLineTerminator(s: string) {
    exists i :: 0 <= i < |s| && IsLineTerminator(s[i])
  }

  /** The cost center captured by `/^costCenter:(.+)$/`. */
  function CapturedCostCenter(scope: string): Option<string> {
    if SCOPE_PREFIX <= scope && |scope| > |SCOPE_PREFIX| && !HasLineTerminator(scope[|SCOPE_PREFIX|..])
    then Some(scope[|SCOPE_PREFIX|..])
    else None
  }

  predicate ScopeApplies(scope: Option<string>, costCenter: string) {
    if scope.None? || scope.value == "" then true
    else
      var captured := CapturedCostCenter(scope.value);
      if captured.Some? then captured.value == costCenter else scope.value == costCenter
  }

  function ChainOr(chain: seq<string>): seq<string> {
    if |chain| > 0 then chain else ["finance"]
  }

  function EvaluateThresholdGate(policy: Option<ThresholdPolicy>, ctx: GateContext): GateDecision {
    if ctx.amount <= 0 then GateDecision(Block, PolicyGate, [])
    else if policy.None? || !ScopeApplies(policy.value.scope, ctx.costCenter) then
      GateDecision(NeedApproval, ThresholdGate, ["finance"])
    else
      var p := policy.value;
      var overrun := ctx.budgetRemaining.Some? && ctx.budgetRemaining.value < ctx.amount;
      if p.budgetRequired && (!ctx.budgetAssigned || overrun) then
        GateDecision(NeedApproval, BudgetOverride, ChainOr(p.approvalChain))
      else if ctx.amount <= (if p.autoApproveUpTo.Some? then p.autoApproveUpTo.value else 0) then
        GateDecision(Pass, ThresholdGate, [])
      else GateDecision(NeedApproval, ThresholdGate, ChainOr(p.approvalChain))
  }

  /** Spend is never auto-approved silently: a pass needs an applicable rule whose
      limit covers the amount, and enough remaining budget when one is required;
      anything short of that names somebody who has to decide. */
  lemma AutoApprovalIsCovered(policy: Option<ThresholdPolicy>, ctx: GateContext)
    ensures var d := EvaluateThresholdGate(policy, ctx);
            (d.outcome == Pass
             <==> policy.Some? && ScopeApplies(policy.value.scope, ctx.costCenter)
                  && policy.value.autoApproveUpTo.Some? && 0 < ctx.amount <= policy.value.autoApproveUpTo.value
                  && (policy.value.budgetRequired
                      ==> ctx.budgetAssigned
                          && (ctx.budgetRemaining.Some? ==> ctx.amount <= ctx.budgetRemaining.value)))
            && (d.outcome == NeedApproval ==> |d.approvers| > 0)
            && (d.outcome == Block <==> ctx.amount <= 0)
  {
  }

  datatype VendorStatus = Prospective | Active | Watch | Blacklisted

  function EvaluateVendorGate(status: VendorStatus): GateOutcome {
    match status
    case Blacklisted => Block
    case Active => Pass
    case _ => NeedApproval
  }
}

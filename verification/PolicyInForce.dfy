/** From a publication to what the gate and the tax engine do with it. */
module PolicyInForce {
  import opened Common
  import opened PolicyConfig
  import opened PolicyScope
  import opened PolicyStore
  import opened Text
  import PolicyEngine
  import Tax

  // ----- The spending limit -----

  predicate LimitReadable(config: Config) {
    ("autoApproveUpTo" in config ==> config["autoApproveUpTo"].JNumber?)
    && ("approvalChain" in config ==>
          config["approvalChain"].JList?
          && forall i :: 0 <= i < |config["approvalChain"].items| ==> config["approvalChain"].items[i].JText?)
    && ("budgetRequired" in config ==> config["budgetRequired"].JBool?)
  }

  function Names(items: seq<Json>): seq<string>
    requires forall i :: 0 <= i < |items| ==> items[i].JText?
  {
    seq(|items|, i requires 0 <= i < |items| => items[i].text)
  }

  /** The rule the threshold gate reads from a stored revision. */
  function RuleOf(name: string, version: int, config: Config): PolicyEngine.ThresholdPolicy
    requires LimitReadable(config)
  {
    PolicyEngine.ThresholdPolicy(
      name,
      version,
      GateScope(config),
      if "autoApproveUpTo" in config then Some(config["autoApproveUpTo"].number.Floor) else None,
      if "approvalChain" in config then Names(config["approvalChain"].items) else [],
      "budgetRequired" in config && config["budgetRequired"].flag)
  }

  lemma StoredLimitIsReadable(raw: Json)
    requires ValidateConfig(Threshold, raw).Some?
    ensures LimitReadable(ValidateConfig(Threshold, raw).value)
  {
    StoredMember(Threshold, raw, "autoApproveUpTo");
    StoredMember(Threshold, raw, "approvalChain");
    StoredMember(Threshold, raw, "budgetRequired");
  }

  /** The gate's decision under the policy in force. */
  function Decide(rows: seq<Row>, resolution: Resolution, ctx: PolicyEngine.GateContext): PolicyEngine.GateDecision
    requires resolution.Resolved? ==> resolution.id < |rows| && LimitReadable(resolution.config)
  {
    var rule := if resolution.Resolved?
                then Some(RuleOf(rows[resolution.id].name, rows[resolution.id].version, resolution.config))
                else None;
    PolicyEngine.EvaluateThresholdGate(rule, ctx)
  }

  /** The amount is within the limit as published, and the budget covers it where
      the publication requires one. */
  predicate Covers(raw: Config, ctx: PolicyEngine.GateContext) {
    "autoApproveUpTo" in raw && raw["autoApproveUpTo"].JNumber?
    && 0 < ctx.amount && ctx.amount as real <= raw["autoApproveUpTo"].number
    && ("budgetRequired" in raw && raw["budgetRequired"] == JBool(true) ==>
          ctx.budgetAssigned && (ctx.budgetRemaining.Some? ==> ctx.amount <= ctx.budgetRemaining.value))
  }

  /** Nothing is approved without a publication that says so: after any history of
      publications the gate passes exactly when the last enabled rule for the cost
      center, or else the last global one, covers the amount as it was published,
      and a rule of the cost center's own is not hidden by a line terminator. */
  lemma AutoApprovalNeedsPublication(inputs: seq<Input>, ctx: PolicyEngine.GateContext)
    ensures var s := History(inputs);
            var r := Resolve(s.rows, Threshold, ctx.costCenter);
            var policy := InForce(s.log, Threshold, ctx.costCenter);
            (r.Resolved? ==> r.id < |s.rows| && LimitReadable(r.config))
            && (policy.Some? ==> s.log[policy.value].raw.JObject?)
            && (Decide(s.rows, r, ctx).outcome == PolicyEngine.Pass
                <==> policy.Some? && Covers(s.log[policy.value].raw.members, ctx)
                     && (s.log[policy.value].scope == GLOBAL || !PolicyEngine.HasLineTerminator(ctx.costCenter)))
  {
    var s := History(inputs);
    var policy := InForce(s.log, Threshold, ctx.costCenter);
    HistoryIsSound(inputs);
    ResolutionFollowsLog(inputs, Threshold, ctx.costCenter);
    if policy.Some? {
      var raw := s.log[policy.value].raw;
      var row := s.rows[policy.value];
      RowInForce(s, policy.value);
      StoredLimitIsReadable(raw);
      ResolvedPolicyApplies(inputs, Threshold, ctx.costCenter);
      StoredConfigIsStable(Threshold, raw);
      StoredScopeIsStable(Threshold, ScopeMember(raw.members));
      PublishedLimit(row.name, row.version, raw, ctx);
    }
  }

  /** The rule read from what is stored covers exactly what was published. */
  lemma PublishedLimit(name: string, version: int, raw: Json, ctx: PolicyEngine.GateContext)
    requires ValidateConfig(Threshold, raw).Some? && LimitReadable(ValidateConfig(Threshold, raw).value)
    ensures var rule := RuleOf(name, version, ValidateConfig(Threshold, raw).value);
            PolicyEngine.EvaluateThresholdGate(Some(rule), ctx).outcome == PolicyEngine.Pass
            <==> PolicyEngine.ScopeApplies(rule.scope, ctx.costCenter) && Covers(raw.members, ctx)
  {
    StoredMember(Threshold, raw, "autoApproveUpTo");
    StoredMember(Threshold, raw, "budgetRequired");
    var rule := RuleOf(name, version, ValidateConfig(Threshold, raw).value);
    PolicyEngine.AutoApprovalIsCovered(Some(rule), ctx);
  }

  // ----- The tax rates -----

  const VAT: string := "vatRateBps"
  const EWT: string := "ewtRatesBps"

  function ClassName(c: Tax.TaxClass): string {
    match c
    case Goods => "goods"
    case Services => "services"
    case Professional => "professional"
    case Rental => "rental"
    case Other => "other"
  }

  const CLASSES: set<Tax.TaxClass> := {Tax.Goods, Tax.Services, Tax.Professional, Tax.Rental, Tax.Other}

  predicate AllNumbers(members: Config, names: set<string>) {
    forall name :: name in names && name in members ==> members[name].JNumber?
  }

  /** The withholding rates of a config, none when there are none. */
  function EwtMembers(config: Config): Config {
    if EWT in config && config[EWT].JObject? then config[EWT].members else map[]
  }

  predicate RatesReadable(config: Config) {
    AllNumbers(config, {VAT}) && AllNumbers(EwtMembers(config), TAX_CLASSES)
  }

  function RawRateOf(members: Config, name: string): Tax.RawRate
    requires AllNumbers(members, {name})
  {
    if name in members then Tax.Finite(members[name].number) else Tax.Missing
  }

  lemma ClassNamesListed()
    ensures forall c: Tax.TaxClass :: ClassName(c) in TAX_CLASSES
  {
  }

  /** The policy the tax engine is given: the stored rule normalised, or the default. */
  function TaxConfig(resolution: Resolution): Tax.TaxPolicy
    requires resolution.Resolved? ==> RatesReadable(resolution.config)
  {
    if !resolution.Resolved? then Tax.PH_DEFAULT_POLICY
    else
      ClassNamesListed();
      var ewt := EwtMembers(resolution.config);
      Tax.NormalizeTaxPolicy(
        RawRateOf(resolution.config, VAT),
        map c | c in CLASSES :: RawRateOf(ewt, ClassName(c)))
  }

  /** A rate as published, or the default where none was. */
  function PublishedRate(members: Config, name: string, fallback: int): int {
    if name in members && members[name].JNumber? then members[name].number.Floor else fallback
  }

  lemma StoredRates(raw: Json)
    requires ValidateConfig(TaxRule, raw).Some?
    ensures var config := ValidateConfig(TaxRule, raw).value;
            RatesReadable(config) && EwtMembers(config) == EwtMembers(raw.members)
            && (VAT in config <==> VAT in raw.members)
            && (VAT in config ==> config[VAT] == raw.members[VAT] && IsWhole(config[VAT], MAX_RATE))
            && forall name :: name in EwtMembers(config) ==> IsWhole(EwtMembers(config)[name], MAX_RATE)
  {
    StoredMember(TaxRule, raw, VAT);
    StoredMember(TaxRule, raw, EWT);
  }

  lemma WholeRateIsKept(members: Config, name: string, fallback: int)
    requires AllNumbers(members, {name}) && (name in members ==> IsWhole(members[name], MAX_RATE))
    ensures Tax.NormalizeRate(RawRateOf(members, name), fallback) == PublishedRate(members, name, fallback)
  {
    if name in members {
      var x := members[name].number;
      Tax.NormalizeRateKeeps(x, fallback, x.Floor);
    }
  }

  /** After any history of publications the tax engine runs on the rates of the last
      enabled tax rule exactly as they were published, never rounded and never
      replaced, with the defaults for those it leaves out. */
  lemma PublishedRatesApply(inputs: seq<Input>)
    ensures var s := History(inputs);
            var r := Resolve(s.rows, TaxRule, "");
            var rule := InForce(s.log, TaxRule, "");
            (r.Resolved? ==> RatesReadable(r.config))
            && (rule.Some? ==> s.log[rule.value].raw.JObject?)
            && var raw: Config := if rule.Some? then s.log[rule.value].raw.members else map[];
            TaxConfig(r).vatRateBps == PublishedRate(raw, VAT, Tax.PH_DEFAULT_POLICY.vatRateBps)
            && TaxConfig(r).ewtRatesBps.Keys == CLASSES
            && forall c :: c in CLASSES ==>
                 TaxConfig(r).ewtRatesBps[c]
                 == PublishedRate(EwtMembers(raw), ClassName(c), Tax.PH_DEFAULT_POLICY.ewtRatesBps[c])
  {
    var s := History(inputs);
    var rule := InForce(s.log, TaxRule, "");
    HistoryIsSound(inputs);
    ResolutionFollowsLog(inputs, TaxRule, "");
    if rule.Some? {
      var raw := s.log[rule.value].raw;
      RowInForce(s, rule.value);
      StoredRates(raw);
      RatesOfRule(rule.value, raw);
    }
  }

  lemma RatesOfRule(id: nat, raw: Json)
    requires ValidateConfig(TaxRule, raw).Some? && RatesReadable(ValidateConfig(TaxRule, raw).value)
    ensures var policy := TaxConfig(Resolved(id, ValidateConfig(TaxRule, raw).value));
            policy.vatRateBps == PublishedRate(raw.members, VAT, Tax.PH_DEFAULT_POLICY.vatRateBps)
            && policy.ewtRatesBps.Keys == CLASSES
            && forall c :: c in CLASSES ==>
                 policy.ewtRatesBps[c]
                 == PublishedRate(EwtMembers(raw.members), ClassName(c), Tax.PH_DEFAULT_POLICY.ewtRatesBps[c])
  {
    var config := ValidateConfig(TaxRule, raw).value;
    StoredRates(raw);
    ClassNamesListed();
    WholeRateIsKept(config, VAT, Tax.PH_DEFAULT_POLICY.vatRateBps);
    forall c | c in CLASSES
      ensures Tax.NormalizeRate(RawRateOf(EwtMembers(config), ClassName(c)), Tax.PH_DEFAULT_POLICY.ewtRatesBps[c])
           == PublishedRate(EwtMembers(raw.members), ClassName(c), Tax.PH_DEFAULT_POLICY.ewtRatesBps[c])
    {
      WholeRateIsKept(EwtMembers(config), ClassName(c), Tax.PH_DEFAULT_POLICY.ewtRatesBps[c]);
    }
  }

  // ----- A rule the gate does not see -----

  const TWO_LINES: string := "a\nb"

  /** Any amount up to 1000 is approved for the cost center that is spelled on two lines. */
  const OWN_RULE: Input :=
    Input("own", Threshold, JObject(map[SCOPE := JText(TWO_LINES), "autoApproveUpTo" := JNumber(1000.0)]), None, None)

  const OWN_CONFIG: Config :=
    map[SCOPE := JText(PolicyEngine.SCOPE_PREFIX + TWO_LINES), "autoApproveUpTo" := JNumber(1000.0)]

  lemma OwnRuleIsAccepted()
    ensures PublishedConfig(Threshold, OWN_RULE.raw)
         == Some(Accepted(OWN_CONFIG, PolicyEngine.SCOPE_PREFIX + TWO_LINES))
  {
    var scope := PolicyEngine.SCOPE_PREFIX + TWO_LINES;
    var limit: Config := map["autoApproveUpTo" := JNumber(1000.0)];
    assert !IsSpace(TWO_LINES[0]) && !IsSpace(TWO_LINES[2]);
    TrimmedIsFixed(TWO_LINES);
    CanonicalIsTrimmed(TWO_LINES);
    assert ScopeMember(OWN_RULE.raw.members) == Written(TWO_LINES);
    assert ValidateScope(Threshold, Written(TWO_LINES)) == Some(Written(scope));
    assert OWN_RULE.raw.members - {SCOPE} == limit;
    assert IsWhole(JNumber(1000.0), MAX_INT);
    var kept := map name | name in limit :: MemberKept(Threshold, name, limit[name]);
    assert kept == limit;
    assert ValidateMembers(Threshold, limit) == Some(limit);
    assert WithScope(limit, Written(scope)) == OWN_CONFIG;
    assert scope[0] == 'c';
  }

  const PUBLISHED: State := State(
    [Row(Threshold, OWN_CONFIG, true, 1, None, "own")],
    [Entry(Threshold, PolicyEngine.SCOPE_PREFIX + TWO_LINES, true, OWN_RULE.raw)])

  lemma OwnRuleIsStored()
    ensures History([OWN_RULE]) == PUBLISHED
  {
    OwnRuleIsAccepted();
    assert [OWN_RULE][..0] == [];
    assert History([]) == State([], []);
    assert Publication([], OWN_RULE) == Published(PUBLISHED.rows);
  }

  lemma OwnRuleIsInForce()
    ensures InForce(PUBLISHED.log, Threshold, TWO_LINES) == Some(0)
    ensures Resolve(PUBLISHED.rows, Threshold, TWO_LINES) == Resolved(0, OWN_CONFIG)
  {
    assert Opens(PUBLISHED.log[0], Threshold, PolicyEngine.SCOPE_PREFIX + TWO_LINES);
    OwnRuleIsStored();
    OwnRuleIsAccepted();
    ResolutionFollowsLog([OWN_RULE], Threshold, TWO_LINES);
  }

  /** Published for its own cost center, the rule is in force and resolved, and the
      gate still sends an amount it covers to a human. */
  lemma RuleOnTwoLinesIsIgnored()
    ensures var ctx := PolicyEngine.GateContext(TWO_LINES, 500, false, None);
            History([OWN_RULE]) == PUBLISHED
            && Resolve(PUBLISHED.rows, Threshold, TWO_LINES) == Resolved(0, OWN_CONFIG)
            && Covers(OWN_RULE.raw.members, ctx)
            && Decide(PUBLISHED.rows, Resolved(0, OWN_CONFIG), ctx).outcome == PolicyEngine.NeedApproval
  {
    var ctx := PolicyEngine.GateContext(TWO_LINES, 500, false, None);
    OwnRuleIsStored();
    OwnRuleIsInForce();
    AutoApprovalNeedsPublication([OWN_RULE], ctx);
    assert PolicyEngine.IsLineTerminator(TWO_LINES[1]);
    assert PolicyEngine.HasLineTerminator(TWO_LINES);
  }
}

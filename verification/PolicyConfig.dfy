/** The config of a policy: one strict schema per kind, and what a publication
    stores of it. */
module PolicyConfig {
  import opened Common
  import opened PolicyScope
  import opened Text

  datatype Json =
    | JNull
    | JBool(flag: bool)
    | JNumber(number: real)
    | JText(text: string)
    | JList(items: seq<Json>)
    | JObject(members: map<string, Json>)

  type Config = map<string, Json>

  const SCOPE: string := "scope"
  const MAX_TEXT: int := 120
  const MAX_CHAIN: int := 50
  const MAX_INT: int := 2_147_483_647
  const MAX_RATE: int := 10_000

  const TAX_CLASSES: set<string> := {"goods", "services", "professional", "rental", "other"}

  /** The `scope` member of a config. */
  function ScopeMember(config: Config): RawScope {
    if SCOPE !in config then Absent
    else match config[SCOPE]
         case JNull => Null
         case JText(text) => Written(text)
         case _ => NotText
  }

  // ----- Members -----

  /** The shapes a member other than the scope may be required to have. */
  datatype Shape = Name | Whole(max: int) | Fraction | Flag | Chain | Criterion | Rates

  function Shapes(kind: PolicyKind): map<string, Shape> {
    match kind
    case Threshold => map["autoApproveUpTo" := Whole(MAX_INT), "approvalChain" := Chain, "budgetRequired" := Flag]
    case PreferredVendor => map["vendorId" := Name, "vendor_id" := Name]
    case EvaluationCriterion => map["criterion" := Criterion, "priceWeight" := Fraction]
    case TaxRule => map["vatRateBps" := Whole(MAX_RATE), "ewtRatesBps" := Rates, "version" := Name]
    case ApprovalChain => map[]
    case BudgetControl => map[]
  }

  /** These kinds are stored as they are, whatever else they hold. */
  predicate PassesThrough(kind: PolicyKind) {
    kind == ApprovalChain || kind == BudgetControl
  }

  predicate IsName(v: Json) {
    v.JText? && 1 <= |Trim(v.text)| <= MAX_TEXT
  }

  predicate IsWhole(v: Json, max: int) {
    v.JNumber? && v.number == v.number.Floor as real && 0 <= v.number.Floor <= max
  }

  predicate Fits(shape: Shape, v: Json) {
    match shape
    case Name => IsName(v)
    case Whole(max) => IsWhole(v, max)
    case Fraction => v.JNumber? && 0.0 <= v.number <= 1.0
    case Flag => v.JBool?
    case Chain => v.JList? && |v.items| <= MAX_CHAIN && forall i :: 0 <= i < |v.items| ==> IsName(v.items[i])
    case Criterion => v == JText("lowestCost") || v == JText("bestValue")
    case Rates => v.JObject? && forall k :: k in v.members ==> k in TAX_CLASSES && IsWhole(v.members[k], MAX_RATE)
  }

  /** What is kept of a fitting member: its names are trimmed. */
  function Kept(shape: Shape, v: Json): Json
    requires Fits(shape, v)
  {
    match shape
    case Name => JText(Trim(v.text))
    case Chain => JList(seq(|v.items|, i requires 0 <= i < |v.items| => JText(Trim(v.items[i].text))))
    case _ => v
  }

  predicate MemberFits(kind: PolicyKind, name: string, v: Json) {
    if name in Shapes(kind) then Fits(Shapes(kind)[name], v) else PassesThrough(kind)
  }

  function MemberKept(kind: PolicyKind, name: string, v: Json): Json
    requires MemberFits(kind, name, v)
  {
    if name in Shapes(kind) then Kept(Shapes(kind)[name], v) else v
  }

  /** The demands on a config as a whole: one unambiguous vendor, a criterion. */
  predicate IsComplete(kind: PolicyKind, kept: Config) {
    match kind
    case PreferredVendor =>
      ("vendorId" in kept || "vendor_id" in kept)
      && ("vendorId" in kept && "vendor_id" in kept ==> kept["vendorId"] == kept["vendor_id"])
    case EvaluationCriterion => "criterion" in kept
    case _ => true
  }

  /** The members other than the scope. */
  function ValidateMembers(kind: PolicyKind, members: Config): Option<Config> {
    if exists name :: name in members && !MemberFits(kind, name, members[name]) then None
    else
      var kept := map name | name in members :: MemberKept(kind, name, members[name]);
      if IsComplete(kind, kept) then Some(kept) else None
  }

  // ----- The whole config -----

  function WithScope(members: Config, stored: RawScope): Config {
    if stored.Written? then members[SCOPE := JText(stored.text)] else members
  }

  function ValidateConfig(kind: PolicyKind, raw: Json): Option<Config> {
    if !raw.JObject? then None
    else
      var stored := ValidateScope(kind, ScopeMember(raw.members));
      var members := ValidateMembers(kind, raw.members - {SCOPE});
      if stored.None? || members.None? then None else Some(WithScope(members.value, stored.value))
  }

  datatype Accepted = Accepted(config: Config, scope: string)

  /** What a publication stores, and the scope it publishes under. */
  function PublishedConfig(kind: PolicyKind, raw: Json): Option<Accepted> {
    match ValidateConfig(kind, raw)
    case None => None
    case Some(config) =>
      match PolicyScopeOf(ScopeMember(config))
      case None => None
      case Some(scope) => Some(Accepted(config, scope))
  }

  // ----- Validation is stable -----

  lemma KeptIsStable(shape: Shape, v: Json)
    requires Fits(shape, v)
    ensures Fits(shape, Kept(shape, v)) && Kept(shape, Kept(shape, v)) == Kept(shape, v)
  {
    match shape
    case Name => TrimIsIdempotent(v.text);
    case Chain =>
      forall i | 0 <= i < |v.items| {
        TrimIsIdempotent(v.items[i].text);
      }
    case _ =>
  }

  lemma MembersAreStable(kind: PolicyKind, members: Config)
    requires ValidateMembers(kind, members).Some?
    ensures ValidateMembers(kind, ValidateMembers(kind, members).value) == ValidateMembers(kind, members)
  {
    var kept := ValidateMembers(kind, members).value;
    forall name | name in kept
      ensures MemberFits(kind, name, kept[name]) && MemberKept(kind, name, kept[name]) == kept[name]
    {
      if name in Shapes(kind) {
        KeptIsStable(Shapes(kind)[name], members[name]);
      }
    }
    assert (map name | name in kept :: MemberKept(kind, name, kept[name])) == kept;
  }

  /** The scope and the other members of a stored config are what was validated. */
  lemma ScopeApart(members: Config, stored: RawScope)
    requires SCOPE !in members && (stored == Absent || stored.Written?)
    ensures ScopeMember(WithScope(members, stored)) == stored
    ensures WithScope(members, stored) - {SCOPE} == members
  {
  }

  lemma ValidatedScope(kind: PolicyKind, raw: RawScope)
    requires ValidateScope(kind, raw).Some?
    ensures ValidateScope(kind, raw).value == Absent || ValidateScope(kind, raw).value.Written?
  {
  }

  /** Storing an accepted config loses nothing that validation looks at: read back,
      it has the scope it was published under and validates to itself. */
  lemma StoredConfigIsStable(kind: PolicyKind, raw: Json)
    requires PublishedConfig(kind, raw).Some?
    ensures var p := PublishedConfig(kind, raw).value;
            ValidateConfig(kind, JObject(p.config)) == Some(p.config)
            && PublishedConfig(kind, JObject(p.config)) == Some(p)
            && PublishedScope(kind, ScopeMember(raw.members)) == Some(Scoped(ScopeMember(p.config), p.scope))
  {
    var members := ValidateMembers(kind, raw.members - {SCOPE}).value;
    var stored := ValidateScope(kind, ScopeMember(raw.members)).value;
    MembersAreStable(kind, raw.members - {SCOPE});
    ValidatedScope(kind, ScopeMember(raw.members));
    ScopeApart(members, stored);
    StoredScopeIsStable(kind, ScopeMember(raw.members));
  }

  /** A stored config holds the raw members, each fitting its shape and trimmed. */
  lemma StoredMember(kind: PolicyKind, raw: Json, name: string)
    requires ValidateConfig(kind, raw).Some? && name != SCOPE
    ensures var config := ValidateConfig(kind, raw).value;
            (name in config <==> name in raw.members)
            && (name in config ==>
                  MemberFits(kind, name, raw.members[name])
                  && config[name] == MemberKept(kind, name, raw.members[name]))
  {
  }

  // ----- What is accepted, kind by kind -----

  predicate IsLabel(v: Json) {
    v.JText? && Trim(v.text) != "" && |Trim(v.text)| <= 120
  }

  predicate IsIntegerUpTo(v: Json, max: int) {
    v.JNumber? && v.number.Floor as real == v.number && 0 <= v.number.Floor <= max
  }

  predicate IsLabelList(v: Json) {
    v.JList? && |v.items| <= 50 && forall i :: 0 <= i < |v.items| ==> IsLabel(v.items[i])
  }

  predicate IsRateTable(v: Json) {
    v.JObject? && v.members.Keys <= {"goods", "services", "professional", "rental", "other"}
    && forall name :: name in v.members ==> IsIntegerUpTo(v.members[name], 10_000)
  }

  /** Nothing but the members of the kind, each as it should be. A preferred vendor
      needs its vendor, under one name or under both alike; an evaluation criterion
      needs the criterion. Chains and budget controls may hold anything. */
  predicate MembersAccepted(kind: PolicyKind, m: Config) {
    match kind
    case Threshold =>
      m.Keys <= {"autoApproveUpTo", "approvalChain", "budgetRequired"}
      && ("autoApproveUpTo" in m ==> IsIntegerUpTo(m["autoApproveUpTo"], 2_147_483_647))
      && ("approvalChain" in m ==> IsLabelList(m["approvalChain"]))
      && ("budgetRequired" in m ==> m["budgetRequired"].JBool?)
    case PreferredVendor =>
      m.Keys <= {"vendorId", "vendor_id"} && m.Keys != {}
      && (forall name :: name in m ==> IsLabel(m[name]))
      && ("vendorId" in m && "vendor_id" in m ==> Trim(m["vendorId"].text) == Trim(m["vendor_id"].text))
    case EvaluationCriterion =>
      m.Keys <= {"criterion", "priceWeight"} && "criterion" in m
      && m["criterion"] in {JText("lowestCost"), JText("bestValue")}
      && ("priceWeight" in m ==> m["priceWeight"].JNumber? && 0.0 <= m["priceWeight"].number <= 1.0)
    case TaxRule =>
      m.Keys <= {"vatRateBps", "ewtRatesBps", "version"}
      && ("vatRateBps" in m ==> IsIntegerUpTo(m["vatRateBps"], 10_000))
      && ("ewtRatesBps" in m ==> IsRateTable(m["ewtRatesBps"]))
      && ("version" in m ==> IsLabel(m["version"]))
    case ApprovalChain => true
    case BudgetControl => true
  }

  predicate EachFits(kind: PolicyKind, m: Config) {
    forall name :: name in m ==> MemberFits(kind, name, m[name])
  }

  lemma ThresholdMembers(m: Config)
    ensures EachFits(Threshold, m) <==> MembersAccepted(Threshold, m)
  {
  }

  lemma TaxRuleMembers(m: Config)
    ensures EachFits(TaxRule, m) <==> MembersAccepted(TaxRule, m)
  {
  }

  lemma CriterionMembers(m: Config)
    ensures EachFits(EvaluationCriterion, m) && "criterion" in m <==> MembersAccepted(EvaluationCriterion, m)
  {
  }

  lemma VendorMembers(m: Config)
    ensures EachFits(PreferredVendor, m) && m.Keys != {}
            && ("vendorId" in m && "vendor_id" in m ==> Trim(m["vendorId"].text) == Trim(m["vendor_id"].text))
       <==> MembersAccepted(PreferredVendor, m)
  {
  }

  lemma VendorIsComplete(m: Config)
    ensures ValidateMembers(PreferredVendor, m).Some?
       <==> EachFits(PreferredVendor, m) && m.Keys != {}
            && ("vendorId" in m && "vendor_id" in m ==> Trim(m["vendorId"].text) == Trim(m["vendor_id"].text))
  {
    if EachFits(PreferredVendor, m) && m.Keys != {} {
      var name :| name in m;
      assert MemberFits(PreferredVendor, name, m[name]);
    }
  }

  /** Exactly the members a publication of the kind accepts. */
  lemma AcceptedMembers(kind: PolicyKind, m: Config)
    ensures ValidateMembers(kind, m).Some? <==> MembersAccepted(kind, m)
  {
    match kind
    case Threshold => ThresholdMembers(m);
    case TaxRule => TaxRuleMembers(m);
    case EvaluationCriterion => CriterionMembers(m);
    case PreferredVendor =>
      VendorIsComplete(m);
      VendorMembers(m);
    case _ =>
  }

  lemma AcceptedParts(kind: PolicyKind, raw: Json)
    ensures PublishedConfig(kind, raw).Some?
       <==> raw.JObject? && PublishedScope(kind, ScopeMember(raw.members)).Some?
            && ValidateMembers(kind, raw.members - {SCOPE}).Some?
  {
    if raw.JObject? {
      var members := ValidateMembers(kind, raw.members - {SCOPE});
      var stored := ValidateScope(kind, ScopeMember(raw.members));
      if members.Some? && stored.Some? {
        ValidatedScope(kind, ScopeMember(raw.members));
        ScopeApart(members.value, stored.value);
      }
    }
  }

  /** Exactly the configs a publication accepts. */
  lemma AcceptedConfigs(kind: PolicyKind, raw: Json)
    ensures PublishedConfig(kind, raw).Some?
       <==> raw.JObject? && PublishedScope(kind, ScopeMember(raw.members)).Some?
            && ValidateMembers(kind, raw.members - {SCOPE}).Some?
    ensures PublishedConfig(kind, raw).Some?
       <==> raw.JObject? && PublishedScope(kind, ScopeMember(raw.members)).Some?
            && MembersAccepted(kind, raw.members - {SCOPE})
  {
    AcceptedParts(kind, raw);
    if raw.JObject? {
      AcceptedMembers(kind, raw.members - {SCOPE});
    }
  }

  /** What is stored of a member: texts are trimmed, alone or in a list, and everything
      else stays as it is. Chains and budget controls keep their texts, too. */
  lemma StoredTextIsTrimmed(kind: PolicyKind, raw: Json, name: string)
    requires ValidateConfig(kind, raw).Some? && name != SCOPE && name in raw.members
    ensures var config, v := ValidateConfig(kind, raw).value, raw.members[name];
            name in config
            && (if kind == ApprovalChain || kind == BudgetControl then config[name] == v
                else if v.JText? then config[name] == JText(Trim(v.text))
                else if v.JList? then
                  config[name].JList? && |config[name].items| == |v.items|
                  && forall i :: 0 <= i < |v.items| ==>
                       v.items[i].JText? && config[name].items[i] == JText(Trim(v.items[i].text))
                else config[name] == v)
  {
    StoredMember(kind, raw, name);
    TrimmedIsFixed("lowestCost");
    TrimmedIsFixed("bestValue");
  }
}

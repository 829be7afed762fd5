/** Policy scopes: how a publication spells one, and the single form in which it
    is stored and compared. */
module PolicyScope {
  import opened Common
  import opened Text
  import opened PolicyEngine

  datatype PolicyKind = Threshold | PreferredVendor | ApprovalChain | BudgetControl | EvaluationCriterion | TaxRule

  /** The `scope` member of a policy config as it arrives. */
  datatype RawScope = Absent | Null | NotText | Written(text: string)

  const GLOBAL: string := "*"
  const MAX_SCOPE: int := 120

  /** The text after one `costCenter:` prefix, or all of it. */
  function CostCenterPart(text: string): string {
    if SCOPE_PREFIX <= text then text[|SCOPE_PREFIX|..] else text
  }

  /** The canonical scope; `None` stands for the refusal of a bad request. */
  function PolicyScopeOf(raw: RawScope): Option<string> {
    match raw
    case Absent => Some(GLOBAL)
    case Null => Some(GLOBAL)
    case NotText => None
    case Written(text) =>
      if text == "" || text == GLOBAL then Some(GLOBAL)
      else if Trim(text) == "" || |Trim(text)| > MAX_SCOPE then None
      else if Trim(CostCenterPart(Trim(text))) == "" then None
      else Some(SCOPE_PREFIX + CostCenterPart(Trim(text)))
  }

  /** The stored scope after the config schema: trimmed, one to 120 characters,
      canonical, and gone when it is global. A tax rule has no scope. */
  function ValidateScope(kind: PolicyKind, raw: RawScope): Option<RawScope> {
    match raw
    case Absent => Some(Absent)
    case Null => None
    case NotText => None
    case Written(text) =>
      if kind == TaxRule || Trim(text) == "" || |Trim(text)| > MAX_SCOPE then None
      else match PolicyScopeOf(Written(Trim(text)))
           case None => None
           case Some(canonical) => Some(if canonical == GLOBAL then Absent else Written(canonical))
  }

  datatype Scoped = Scoped(stored: RawScope, scope: string)

  /** What a publication stores, and the scope it publishes under. */
  function PublishedScope(kind: PolicyKind, raw: RawScope): Option<Scoped> {
    match ValidateScope(kind, raw)
    case None => None
    case Some(stored) =>
      match PolicyScopeOf(stored)
      case None => None
      case Some(scope) => Some(Scoped(stored, scope))
  }

  /** A canonical scope made from trimmed text is itself trimmed. */
  lemma CanonicalIsTrimmed(text: string)
    requires IsTrimmed(text) && text != "" && Trim(CostCenterPart(text)) != ""
    ensures var c := SCOPE_PREFIX + CostCenterPart(text);
            IsTrimmed(c) && Trim(c) == c && CostCenterPart(c) == CostCenterPart(text)
  {
    var rest := CostCenterPart(text);
    var c := SCOPE_PREFIX + rest;
    assert Trim("") == "";
    assert rest != "";
    assert c[0] == 'c' && c[|c| - 1] == rest[|rest| - 1] == text[|text| - 1];
    assert SCOPE_PREFIX <= c && c[|SCOPE_PREFIX|..] == rest;
    TrimmedIsFixed(c);
  }

  /** Exactly the scopes a publication accepts. A bare cost center must leave room
      for the prefix: more than 109 characters are refused although the schema
      allows 120. */
  lemma AcceptedScopes(kind: PolicyKind, text: string)
    requires kind != TaxRule
    ensures var t := Trim(text);
            PublishedScope(kind, Written(text)).Some?
            <==> t == GLOBAL
                 || (Trim(CostCenterPart(t)) != ""
                     && |t| <= (if SCOPE_PREFIX <= t then MAX_SCOPE else MAX_SCOPE - |SCOPE_PREFIX|))
  {
    var t := Trim(text);
    TrimIsIdempotent(text);
    assert Trim("") == "" && CostCenterPart("") == "";
    if t != "" && t != GLOBAL && |t| <= MAX_SCOPE && Trim(CostCenterPart(t)) != "" {
      CanonicalIsPublished(kind, text, t);
    }
  }

  lemma CanonicalIsPublished(kind: PolicyKind, text: string, t: string)
    requires kind != TaxRule && t == Trim(text) && Trim(t) == t && IsTrimmed(t)
    requires t != "" && t != GLOBAL && |t| <= MAX_SCOPE && Trim(CostCenterPart(t)) != ""
    ensures PublishedScope(kind, Written(text)).Some?
       <==> |t| <= (if SCOPE_PREFIX <= t then MAX_SCOPE else MAX_SCOPE - |SCOPE_PREFIX|)
  {
    var c := SCOPE_PREFIX + CostCenterPart(t);
    CanonicalIsTrimmed(t);
    assert c[0] == 'c';
    assert PolicyScopeOf(Written(t)) == Some(c);
    assert ValidateScope(kind, Written(text)) == Some(Written(c));
    assert |c| == (if SCOPE_PREFIX <= t then |t| else |t| + |SCOPE_PREFIX|);
    assert PolicyScopeOf(Written(c)).Some? <==> |c| <= MAX_SCOPE;
  }

  function Letters(n: nat): string {
    seq(n, _ => 'a')
  }

  /** At the bound: a bare cost center of 109 letters is accepted, one of 110 is
      refused, although 110 are within the length the schema allows. */
  lemma LongBareScopeIsRefused(kind: PolicyKind)
    requires kind != TaxRule
    ensures PublishedScope(kind, Written(Letters(109))).Some?
    ensures |Trim(Letters(110))| == 110 <= MAX_SCOPE && PublishedScope(kind, Written(Letters(110))).None?
  {
    LettersAreBare(109);
    LettersAreBare(110);
    AcceptedScopes(kind, Letters(109));
    AcceptedScopes(kind, Letters(110));
  }

  lemma LettersAreBare(n: nat)
    requires n > 0
    ensures Trim(Letters(n)) == Letters(n) && CostCenterPart(Letters(n)) == Letters(n)
    ensures Letters(n) != "" && Letters(n) != GLOBAL && !(SCOPE_PREFIX <= Letters(n))
  {
    assert Letters(n)[0] == 'a';
    TrimmedIsFixed(Letters(n));
  }

  /** What an accepted publication stores is a fixed point: it has the scope it was
      published under, and validating it again changes nothing. */
  lemma StoredScopeIsStable(kind: PolicyKind, raw: RawScope)
    requires PublishedScope(kind, raw).Some?
    ensures var p := PublishedScope(kind, raw).value;
            PolicyScopeOf(p.stored) == Some(p.scope)
            && ValidateScope(kind, p.stored) == Some(p.stored)
            && PublishedScope(kind, p.stored) == Some(p)
            && (p.scope == GLOBAL <==> p.stored == Absent)
            && (p.stored.Written? ==> p.stored.text == p.scope && |p.scope| <= MAX_SCOPE)
  {
    if raw.Written? {
      var t := Trim(raw.text);
      TrimIsIdempotent(raw.text);
      if t != GLOBAL {
        CanonicalIsTrimmed(t);
        assert (SCOPE_PREFIX + CostCenterPart(t))[0] == 'c';
      }
    }
  }

  /** The two spellings of a cost center are one scope. */
  lemma AliasesAgree(kind: PolicyKind, costCenter: string)
    requires IsTrimmed(costCenter) && costCenter != "" && costCenter != GLOBAL && !(SCOPE_PREFIX <= costCenter)
    requires PublishedScope(kind, Written(costCenter)).Some?
    ensures PublishedScope(kind, Written(SCOPE_PREFIX + costCenter)) == PublishedScope(kind, Written(costCenter))
    ensures PublishedScope(kind, Written(costCenter)).value.scope == SCOPE_PREFIX + costCenter
  {
    TrimmedIsFixed(costCenter);
    CanonicalIsTrimmed(costCenter);
    assert (SCOPE_PREFIX + costCenter)[0] == 'c';
  }

  /** A policy published for exactly this cost center is applied by the gate
      exactly when the cost center holds no line terminator: the gate's pattern
      does not match across lines. */
  lemma ScopedPolicyApplies(costCenter: string)
    requires costCenter != ""
    ensures ScopeApplies(Some(SCOPE_PREFIX + costCenter), costCenter) <==> !HasLineTerminator(costCenter)
  {
    var scope := SCOPE_PREFIX + costCenter;
    assert SCOPE_PREFIX <= scope && scope[|SCOPE_PREFIX|..] == costCenter;
    assert |scope| != |costCenter|;
  }

  /** A cost-center scope is for that cost center alone; only if the name is empty or
      runs over several lines is the scope taken for a literal name instead. A rule
      without a scope is for every cost center. */
  lemma ScopeIsForOneCostCenter(named: string, costCenter: string)
    ensures ScopeApplies(Some("costCenter:" + named), costCenter)
       <==> (if named == "" || exists i :: 0 <= i < |named| && named[i] in "\n\r\U{2028}\U{2029}"
             then costCenter == "costCenter:" + named
             else costCenter == named)
    ensures ScopeApplies(None, costCenter) && ScopeApplies(Some(""), costCenter)
  {
    var scope := SCOPE_PREFIX + named;
    assert SCOPE_PREFIX <= scope && scope[|SCOPE_PREFIX|..] == named;
    assert forall c: char :: IsLineTerminator(c) <==> c in "\n\r\U{2028}\U{2029}";
  }
}

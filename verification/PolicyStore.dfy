/** Policy publication with retirement and supersession, and the resolution of
    the effective policy, against a plain publication log. */
module PolicyStore {
  import opened Common
  import opened PolicyConfig
  import opened PolicyScope
  import PolicyEngine

  /** A stored revision; its identifier is its row index. */
  datatype Row = Row(kind: PolicyKind, config: Config, enabled: bool, version: int, supersedes: Option<nat>,
                     name: string)

  datatype Input = Input(name: string, kind: PolicyKind, raw: Json, enabled: Option<bool>, supersedes: Option<nat>)

  datatype Refusal = NotFound | BadRequest | Conflict

  datatype Outcome = Refused(why: Refusal) | Published(rows: seq<Row>)

  const MAX_VERSION: int := 2_147_483_647

  /** The scope a revision is stored under; `None` where it cannot be read. */
  function ScopeOf(row: Row): Option<string> {
    PolicyScopeOf(ScopeMember(row.config))
  }

  // ----- The order of revisions: version, then age, newest first -----

  function PlaceNewest(rows: seq<Row>, i: nat, ids: seq<nat>): (r: seq<nat>)
    requires i < |rows| && forall k :: 0 <= k < |ids| ==> ids[k] < |rows|
    ensures forall k :: 0 <= k < |r| ==> r[k] == i || r[k] in ids
  {
    if |ids| == 0 || rows[i].version >= rows[ids[0]].version then [i] + ids
    else [ids[0]] + PlaceNewest(rows, i, ids[1..])
  }

  lemma {:induction false} PlaceNewestMembers(rows: seq<Row>, i: nat, ids: seq<nat>)
    requires i < |rows| && forall k :: 0 <= k < |ids| ==> ids[k] < |rows|
    ensures forall j :: j in PlaceNewest(rows, i, ids) <==> j == i || j in ids
  {
    if |ids| > 0 && rows[i].version < rows[ids[0]].version {
      PlaceNewestMembers(rows, i, ids[1..]);
      assert ids == [ids[0]] + ids[1..];
    }
  }

  /** Revisions of a kind among the first `n` rows, newest version first. */
  function Revisions(rows: seq<Row>, kind: PolicyKind, enabledOnly: bool, n: nat): (ids: seq<nat>)
    requires n <= |rows|
    ensures forall k :: 0 <= k < |ids| ==> ids[k] < n
  {
    if n == 0 then []
    else
      var ids := Revisions(rows, kind, enabledOnly, n - 1);
      if rows[n - 1].kind == kind && (enabledOnly ==> rows[n - 1].enabled)
      then PlaceNewest(rows, n - 1, ids)
      else ids
  }

  /** The canonical scope of every row; `None` where it cannot be read. */
  function Scopes(rows: seq<Row>): seq<Option<string>> {
    seq(|rows|, i requires 0 <= i < |rows| => ScopeOf(rows[i]))
  }

  predicate IdsBelow(ids: seq<nat>, n: nat) {
    forall k :: 0 <= k < |ids| ==> ids[k] < n
  }

  predicate ScopesReadable(scopes: seq<Option<string>>, ids: seq<nat>)
    requires IdsBelow(ids, |scopes|)
  {
    forall k :: 0 <= k < |ids| ==> scopes[ids[k]].Some?
  }

  /** The revisions among `ids` with the scope `key`, in the same order. */
  function Group(scopes: seq<Option<string>>, ids: seq<nat>, key: string): (r: seq<nat>)
    requires IdsBelow(ids, |scopes|)
    ensures forall k :: 0 <= k < |r| ==> r[k] in ids && scopes[r[k]] == Some(key)
  {
    if |ids| == 0 then []
    else
      var last := ids[|ids| - 1];
      Group(scopes, ids[..|ids| - 1], key) + (if scopes[last] == Some(key) then [last] else [])
  }

  // ----- Publication -----

  predicate Retires(row: Row, kind: PolicyKind, scope: string) {
    row.kind == kind && row.enabled && ScopeOf(row) == Some(scope)
  }

  function Retired(rows: seq<Row>, kind: PolicyKind, scope: string): seq<Row> {
    seq(|rows|, i requires 0 <= i < |rows| =>
      if Retires(rows[i], kind, scope) then rows[i].(enabled := false) else rows[i])
  }

  function NextVersion(rows: seq<Row>, kind: PolicyKind): int {
    var ids := Revisions(rows, kind, false, |rows|);
    (if |ids| > 0 then rows[ids[0]].version else 0) + 1
  }

  /** The gate on the revision a publication says it replaces. */
  function SupersessionGate(rows: seq<Row>, input: Input, scope: string): Option<Refusal> {
    if input.supersedes.None? then None
    else if input.supersedes.value >= |rows| then Some(NotFound)
    else
      var target := rows[input.supersedes.value];
      if target.kind != input.kind || ScopeOf(target) != Some(scope) then Some(BadRequest)
      else
        var sameScope := Group(Scopes(rows), Revisions(rows, input.kind, false, |rows|), scope);
        if |sameScope| == 0 || target.version != rows[sameScope[0]].version then Some(Conflict) else None
  }

  function Publication(rows: seq<Row>, input: Input): Outcome {
    match PublishedConfig(input.kind, input.raw)
    case None => Refused(BadRequest)
    case Some(p) =>
      var version := NextVersion(rows, input.kind);
      if version < 1 || version > MAX_VERSION then Refused(Conflict)
      else if !ScopesReadable(Scopes(rows), Revisions(rows, input.kind, false, |rows|)) then Refused(BadRequest)
      else
        match SupersessionGate(rows, input, p.scope)
        case Some(why) => Refused(why)
        case None =>
          var kept := if input.enabled == Some(false) then rows else Retired(rows, input.kind, p.scope);
          Published(kept + [Row(input.kind, p.config, input.enabled != Some(false), version, input.supersedes,
              input.name)])
  }

  // ----- Resolution -----

  /** The row that is in force, with its config as validated again, or why there is none. */
  datatype Resolution = Resolved(id: nat, config: Config) | NoPolicy | Ambiguous | BadConfig

  function Candidates(scopes: seq<Option<string>>, ids: seq<nat>, costCenter: string): (r: seq<nat>)
    requires IdsBelow(ids, |scopes|)
    ensures forall k :: 0 <= k < |r| ==> r[k] in ids
  {
    var exact := if costCenter == "" then [] else Group(scopes, ids, PolicyEngine.SCOPE_PREFIX + costCenter);
    if |exact| > 0 then exact else Group(scopes, ids, GLOBAL)
  }

  function HeadOf(rows: seq<Row>, kind: PolicyKind, candidates: seq<nat>): Resolution
    requires IdsBelow(candidates, |rows|)
  {
    if |candidates| == 0 then NoPolicy
    else
      var head := candidates[0];
      if rows[head].version < 1
         || exists k :: 0 <= k < |candidates| && candidates[k] != head
             && rows[candidates[k]].version == rows[head].version
      then Ambiguous
      else match ValidateConfig(kind, JObject(rows[head].config))
           case None => BadConfig
           case Some(config) => Resolved(head, config)
  }

  /** An empty cost center means none. */
  function Resolve(rows: seq<Row>, kind: PolicyKind, costCenter: string): Resolution {
    ResolveAmong(rows, Scopes(rows), Revisions(rows, kind, true, |rows|), kind, costCenter)
  }

  function ResolveAmong(rows: seq<Row>, scopes: seq<Option<string>>, ids: seq<nat>, kind: PolicyKind,
                        costCenter: string)
    : Resolution
    requires |scopes| == |rows| && IdsBelow(ids, |rows|)
  {
    if !ScopesReadable(scopes, ids) then BadConfig else HeadOf(rows, kind, Candidates(scopes, ids, costCenter))
  }

  // ----- The publication log -----

  /** One accepted publication; entry `i` created row `i`. */
  datatype Entry = Entry(kind: PolicyKind, scope: string, enabled: bool, raw: Json)

  predicate Opens(e: Entry, kind: PolicyKind, scope: string) {
    e.kind == kind && e.scope == scope && e.enabled
  }

  /** The last enabled publication of a kind and scope among the first `n`. */
  function LastEnabled(log: seq<Entry>, kind: PolicyKind, scope: string, n: nat): (r: Option<nat>)
    requires n <= |log|
    ensures r.Some? ==> r.value < n && Opens(log[r.value], kind, scope)
    ensures forall i :: 0 <= i < n && Opens(log[i], kind, scope) ==> r.Some? && i <= r.value
  {
    if n == 0 then None
    else if Opens(log[n - 1], kind, scope) then Some(n - 1)
    else LastEnabled(log, kind, scope, n - 1)
  }

  /** What the log says is in force: the exact scope first, then the global one. */
  function InForce(log: seq<Entry>, kind: PolicyKind, costCenter: string): Option<nat> {
    var exact := if costCenter == "" then None
                 else LastEnabled(log, kind, PolicyEngine.SCOPE_PREFIX + costCenter, |log|);
    if exact.Some? then exact else LastEnabled(log, kind, GLOBAL, |log|)
  }

  datatype State = State(rows: seq<Row>, log: seq<Entry>)

  function Publish(s: State, input: Input): State {
    match Publication(s.rows, input)
    case Refused(_) => s
    case Published(rows) =>
      var scope := PublishedConfig(input.kind, input.raw).value.scope;
      State(rows, s.log + [Entry(input.kind, scope, input.enabled != Some(false), input.raw)])
  }

  /** Everything after a history of publication attempts on an empty store. */
  function History(inputs: seq<Input>): State {
    if |inputs| == 0 then State([], []) else Publish(History(inputs[..|inputs| - 1]), inputs[|inputs| - 1])
  }

  // ----- What every history keeps -----

  /** Row `i` is what publication `i` stored, enabled unless a later enabled
      publication of its kind and scope retired it. */
  ghost predicate RowOk(s: State, i: nat)
    requires |s.rows| == |s.log| && i < |s.rows|
  {
    var row, e := s.rows[i], s.log[i];
    row.kind == e.kind && PublishedConfig(e.kind, e.raw) == Some(Accepted(row.config, e.scope))
    && ScopeOf(row) == Some(e.scope)
    && 1 <= row.version <= MAX_VERSION
    && (row.enabled <==> e.enabled && !RetiredLater(s.log, i))
  }

  predicate RetiredLater(log: seq<Entry>, i: nat)
    requires i < |log|
  {
    exists j :: i < j < |log| && Opens(log[j], log[i].kind, log[i].scope)
  }

  /** Versions strictly increase within a kind. */
  predicate VersionsIncrease(rows: seq<Row>) {
    forall i, j :: 0 <= i < j < |rows| && rows[i].kind == rows[j].kind ==> rows[i].version < rows[j].version
  }

  ghost predicate Sound(s: State) {
    |s.rows| == |s.log| && VersionsIncrease(s.rows)
    && forall i :: 0 <= i < |s.rows| ==> RowOk(s, i)
  }

  predicate Descending(ids: seq<nat>) {
    forall a, b :: 0 <= a < b < |ids| ==> ids[a] > ids[b]
  }

  lemma {:induction false} RevisionsAreTheKind(rows: seq<Row>, kind: PolicyKind, enabledOnly: bool, n: nat)
    requires n <= |rows|
    ensures forall i :: i in Revisions(rows, kind, enabledOnly, n)
                   <==> 0 <= i < n && rows[i].kind == kind && (enabledOnly ==> rows[i].enabled)
  {
    if n > 0 {
      RevisionsAreTheKind(rows, kind, enabledOnly, n - 1);
      PlaceNewestMembers(rows, n - 1, Revisions(rows, kind, enabledOnly, n - 1));
    }
  }

  /** With increasing versions, newest version first is latest row first. */
  lemma {:induction false} RevisionsDescend(rows: seq<Row>, kind: PolicyKind, enabledOnly: bool, n: nat)
    requires n <= |rows| && VersionsIncrease(rows)
    ensures Descending(Revisions(rows, kind, enabledOnly, n))
  {
    if n > 0 {
      var ids := Revisions(rows, kind, enabledOnly, n - 1);
      RevisionsDescend(rows, kind, enabledOnly, n - 1);
      if rows[n - 1].kind == kind && (enabledOnly ==> rows[n - 1].enabled) && |ids| > 0 {
        RevisionsAreTheKind(rows, kind, enabledOnly, n - 1);
        assert ids[0] in ids;
        assert rows[ids[0]].version < rows[n - 1].version;
      }
    }
  }

  lemma {:induction false} GroupKeepsOrder(scopes: seq<Option<string>>, ids: seq<nat>, key: string)
    requires IdsBelow(ids, |scopes|) && Descending(ids)
    ensures Descending(Group(scopes, ids, key))
    ensures forall i :: i in Group(scopes, ids, key) <==> i in ids && scopes[i] == Some(key)
  {
    if |ids| > 0 {
      var n := |ids| - 1;
      GroupKeepsOrder(scopes, ids[..n], key);
      assert ids == ids[..n] + [ids[n]];
      var front := Group(scopes, ids[..n], key);
      forall a | 0 <= a < |front| ensures front[a] > ids[n] {
        assert front[a] in ids[..n];
      }
    }
  }

  lemma NextVersionIsHighest(rows: seq<Row>, kind: PolicyKind)
    requires VersionsIncrease(rows)
    ensures forall i :: 0 <= i < |rows| && rows[i].kind == kind ==> rows[i].version < NextVersion(rows, kind)
  {
    var ids := Revisions(rows, kind, false, |rows|);
    RevisionsAreTheKind(rows, kind, false, |rows|);
    RevisionsDescend(rows, kind, false, |rows|);
    forall i | 0 <= i < |rows| && rows[i].kind == kind ensures rows[i].version < NextVersion(rows, kind) {
      assert i in ids;
      var k :| 0 <= k < |ids| && ids[k] == i;
      assert ids[0] in ids && (k > 0 ==> ids[0] > i);
    }
  }

  lemma LogGrows(log: seq<Entry>, e: Entry, i: nat)
    requires i < |log|
    ensures RetiredLater(log + [e], i) <==> RetiredLater(log, i) || Opens(e, log[i].kind, log[i].scope)
  {
    var more := log + [e];
    if RetiredLater(log, i) {
      var j :| i < j < |log| && Opens(log[j], log[i].kind, log[i].scope);
      assert Opens(more[j], more[i].kind, more[i].scope);
    }
    if Opens(e, log[i].kind, log[i].scope) {
      assert Opens(more[|log|], more[i].kind, more[i].scope);
    }
  }

  lemma PublishedRows(s: State, input: Input)
    requires Sound(s) && Publication(s.rows, input).Published?
    ensures var after := Publish(s, input);
            |after.rows| == |s.rows| + 1 == |after.log|
            && (forall i :: 0 <= i < |s.rows| ==>
                  after.log[i] == s.log[i] && after.rows[i] == s.rows[i].(enabled := after.rows[i].enabled)
                  && (after.rows[i].enabled <==>
                        s.rows[i].enabled && !Opens(after.log[|s.log|], s.log[i].kind, s.log[i].scope)))
  {
    var after := Publish(s, input);
    forall i | 0 <= i < |s.rows|
      ensures after.rows[i] == s.rows[i].(enabled := after.rows[i].enabled)
              && (after.rows[i].enabled <==>
                    s.rows[i].enabled && !Opens(after.log[|s.log|], s.log[i].kind, s.log[i].scope))
    {
      assert RowOk(s, i);
    }
  }

  lemma PublishIsSound(s: State, input: Input)
    requires Sound(s)
    ensures Sound(Publish(s, input))
  {
    if Publication(s.rows, input).Published? {
      var after := Publish(s, input);
      var n := |s.rows|;
      PublishedRows(s, input);
      NextVersionIsHighest(s.rows, input.kind);
      StoredConfigIsStable(input.kind, input.raw);
      forall i | 0 <= i < |after.rows| ensures RowOk(after, i) {
        if i < n {
          assert RowOk(s, i);
          LogGrows(s.log, after.log[n], i);
          assert after.log == s.log + [after.log[n]];
        }
      }
    }
  }

  /** Every history leaves a sound store: versions strictly increase within each
      kind, and a row is enabled exactly while no later enabled publication of
      its kind and scope retired it. */
  lemma {:induction false} HistoryIsSound(inputs: seq<Input>)
    ensures Sound(History(inputs))
  {
    if |inputs| > 0 {
      HistoryIsSound(inputs[..|inputs| - 1]);
      PublishIsSound(History(inputs[..|inputs| - 1]), inputs[|inputs| - 1]);
    }
  }

  /** At most one enabled revision per kind and scope: the last one published. */
  lemma EnabledIsLast(s: State, i: nat)
    requires Sound(s) && i < |s.rows|
    ensures s.rows[i].enabled <==> LastEnabled(s.log, s.log[i].kind, s.log[i].scope, |s.log|) == Some(i)
  {
    assert RowOk(s, i);
    var last := LastEnabled(s.log, s.log[i].kind, s.log[i].scope, |s.log|);
    if s.rows[i].enabled {
      assert Opens(s.log[i], s.log[i].kind, s.log[i].scope);
    } else if s.log[i].enabled {
      var j :| i < j < |s.log| && Opens(s.log[j], s.log[i].kind, s.log[i].scope);
    }
  }

  lemma OneEnabledPerScope(inputs: seq<Input>)
    ensures var rows := History(inputs).rows;
            forall i, j :: 0 <= i < j < |rows| && rows[i].enabled && rows[j].enabled && rows[i].kind == rows[j].kind ==>
              ScopeOf(rows[i]) != ScopeOf(rows[j])
    ensures VersionsIncrease(History(inputs).rows)
  {
    HistoryIsSound(inputs);
    var s := History(inputs);
    forall i, j | 0 <= i < j < |s.rows| && s.rows[i].enabled && s.rows[j].enabled && s.rows[i].kind == s.rows[j].kind
      ensures ScopeOf(s.rows[i]) != ScopeOf(s.rows[j])
    {
      EnabledIsLast(s, i);
      EnabledIsLast(s, j);
      assert RowOk(s, i) && RowOk(s, j);
    }
  }

  lemma EndsDiffer(g: seq<nat>)
    requires Descending(g)
    ensures |g| > 1 ==> g[0] > g[|g| - 1]
  {
  }

  /** A descending group holds one row when only one row can be in it. */
  lemma SingletonGroup(g: seq<nat>, only: Option<nat>)
    requires Descending(g)
    requires forall i :: i in g <==> only == Some(i)
    ensures g == (if only.Some? then [only.value] else [])
  {
    if |g| > 0 {
      assert g[0] in g && g[|g| - 1] in g;
      EndsDiffer(g);
    }
    if only.Some? {
      assert only.value in g;
    }
  }

  /** The enabled revisions of one kind and scope: the log's last one, or none. */
  lemma GroupIsLast(s: State, kind: PolicyKind, key: string)
    requires Sound(s)
    ensures var last := LastEnabled(s.log, kind, key, |s.log|);
            Group(Scopes(s.rows), Revisions(s.rows, kind, true, |s.rows|), key)
            == (if last.Some? then [last.value] else [])
  {
    var ids := Revisions(s.rows, kind, true, |s.rows|);
    var g := Group(Scopes(s.rows), ids, key);
    var last := LastEnabled(s.log, kind, key, |s.log|);
    RevisionsAreTheKind(s.rows, kind, true, |s.rows|);
    RevisionsDescend(s.rows, kind, true, |s.rows|);
    GroupKeepsOrder(Scopes(s.rows), ids, key);
    forall i | 0 <= i < |s.rows| ensures i in g <==> last == Some(i) {
      RowFacts(s, i);
    }
    SingletonGroup(g, last);
  }

  lemma RowFacts(s: State, i: nat)
    requires Sound(s) && i < |s.rows|
    ensures s.rows[i].kind == s.log[i].kind && Scopes(s.rows)[i] == Some(s.log[i].scope)
    ensures ValidateConfig(s.rows[i].kind, JObject(s.rows[i].config)) == Some(s.rows[i].config)
            && s.rows[i].version >= 1
    ensures s.rows[i].enabled <==> LastEnabled(s.log, s.log[i].kind, s.log[i].scope, |s.log|) == Some(i)
  {
    EnabledIsLast(s, i);
    assert RowOk(s, i);
    StoredConfigIsStable(s.log[i].kind, s.log[i].raw);
  }

  lemma AllReadable(s: State, ids: seq<nat>)
    requires Sound(s) && IdsBelow(ids, |s.rows|)
    ensures ScopesReadable(Scopes(s.rows), ids)
  {
    forall k | 0 <= k < |ids| ensures Scopes(s.rows)[ids[k]].Some? {
      RowFacts(s, ids[k]);
    }
  }

  /** What the log says must be resolved: the publication in force and the config
      it was stored with. */
  function Expected(s: State, kind: PolicyKind, costCenter: string): Resolution {
    match InForce(s.log, kind, costCenter)
    case None => NoPolicy
    case Some(i) =>
      match PublishedConfig(kind, s.log[i].raw)
      case None => BadConfig
      case Some(p) => Resolved(i, p.config)
  }

  /** Resolution refines the log: after any sequence of publications it returns
      the last enabled one for the exact cost center, otherwise the last enabled
      global one, with the config that publication was accepted with. It never
      meets the ambiguous branch, and validating the head again neither refuses
      nor changes it. */
  lemma ResolutionFollowsLog(inputs: seq<Input>, kind: PolicyKind, costCenter: string)
    ensures var s := History(inputs);
            Resolve(s.rows, kind, costCenter) == Expected(s, kind, costCenter)
            && (InForce(s.log, kind, costCenter).Some? <==> Resolve(s.rows, kind, costCenter).Resolved?)
  {
    HistoryIsSound(inputs);
    SoundResolution(History(inputs), kind, costCenter);
  }

  lemma CandidatesInForce(s: State, kind: PolicyKind, costCenter: string)
    requires Sound(s)
    ensures var policy := InForce(s.log, kind, costCenter);
            Candidates(Scopes(s.rows), Revisions(s.rows, kind, true, |s.rows|), costCenter)
            == (if policy.Some? then [policy.value] else [])
  {
    GroupIsLast(s, kind, GLOBAL);
    GroupIsLast(s, kind, PolicyEngine.SCOPE_PREFIX + costCenter);
  }

  lemma RowInForce(s: State, i: nat)
    requires Sound(s) && i < |s.rows|
    ensures s.rows[i].version >= 1 && s.rows[i].kind == s.log[i].kind
    ensures PublishedConfig(s.log[i].kind, s.log[i].raw) == Some(Accepted(s.rows[i].config, s.log[i].scope))
    ensures ValidateConfig(s.log[i].kind, JObject(s.rows[i].config)) == Some(s.rows[i].config)
  {
    RowFacts(s, i);
    assert RowOk(s, i);
  }

  lemma SoundResolution(s: State, kind: PolicyKind, costCenter: string)
    requires Sound(s)
    ensures Resolve(s.rows, kind, costCenter) == Expected(s, kind, costCenter)
    ensures InForce(s.log, kind, costCenter).Some? <==> Resolve(s.rows, kind, costCenter).Resolved?
  {
    var ids := Revisions(s.rows, kind, true, |s.rows|);
    var policy := InForce(s.log, kind, costCenter);
    AllReadable(s, ids);
    CandidatesInForce(s, kind, costCenter);
    if policy.Some? {
      RowInForce(s, policy.value);
    }
    SingleCandidate(s.rows, Scopes(s.rows), ids, kind, costCenter, policy);
  }

  lemma SingleCandidate(rows: seq<Row>, scopes: seq<Option<string>>, ids: seq<nat>, kind: PolicyKind,
                        costCenter: string, policy: Option<nat>)
    requires |scopes| == |rows| && IdsBelow(ids, |rows|) && ScopesReadable(scopes, ids)
    requires Candidates(scopes, ids, costCenter) == (if policy.Some? then [policy.value] else [])
    requires policy.Some? ==>
               policy.value < |rows| && rows[policy.value].version >= 1
               && ValidateConfig(kind, JObject(rows[policy.value].config)) == Some(rows[policy.value].config)
    ensures ResolveAmong(rows, scopes, ids, kind, costCenter)
         == (if policy.Some? then Resolved(policy.value, rows[policy.value].config) else NoPolicy)
  {
    if policy.Some? {
      SingleHead(rows, kind, policy.value);
    }
  }

  lemma SingleHead(rows: seq<Row>, kind: PolicyKind, i: nat)
    requires i < |rows| && rows[i].version >= 1
    requires ValidateConfig(kind, JObject(rows[i].config)) == Some(rows[i].config)
    ensures HeadOf(rows, kind, [i]) == Resolved(i, rows[i].config)
  {
  }

  /** The scope the gate reads from a resolved config. */
  function GateScope(config: Config): Option<string> {
    if ScopeMember(config).Written? then Some(ScopeMember(config).text) else None
  }

  /** A resolved policy is also applied by the gate, except when it was published
      for this very cost center and the cost center holds a line terminator. */
  lemma ResolvedPolicyApplies(inputs: seq<Input>, kind: PolicyKind, costCenter: string)
    requires Resolve(History(inputs).rows, kind, costCenter).Resolved?
    ensures var config := Resolve(History(inputs).rows, kind, costCenter).config;
            PolicyEngine.ScopeApplies(GateScope(config), costCenter)
            <==> ScopeMember(config) == Absent || !PolicyEngine.HasLineTerminator(costCenter)
  {
    var s := History(inputs);
    HistoryIsSound(inputs);
    ResolutionFollowsLog(inputs, kind, costCenter);
    var i := InForce(s.log, kind, costCenter).value;
    assert RowOk(s, i);
    StoredConfigIsStable(kind, s.log[i].raw);
    StoredScopeIsStable(kind, ScopeMember(s.log[i].raw.members));
    if costCenter != "" {
      ScopedPolicyApplies(costCenter);
    }
  }

  /** A revision may only be superseded while it is the latest of its kind and
      scope, enabled or not. */
  lemma SupersedesLatest(inputs: seq<Input>, input: Input)
    requires input.supersedes.Some? && PublishedConfig(input.kind, input.raw).Some?
    ensures var s := History(inputs);
            var scope := PublishedConfig(input.kind, input.raw).value.scope;
            SupersessionGate(s.rows, input, scope).None?
            <==> input.supersedes.value < |s.log| && IsLatest(s.log, input.supersedes.value, input.kind, scope)
  {
    HistoryIsSound(inputs);
    var s := History(inputs);
    var scope := PublishedConfig(input.kind, input.raw).value.scope;
    var target := input.supersedes.value;
    var ids := Revisions(s.rows, input.kind, false, |s.rows|);
    var g := Group(Scopes(s.rows), ids, scope);
    RevisionsAreTheKind(s.rows, input.kind, false, |s.rows|);
    RevisionsDescend(s.rows, input.kind, false, |s.rows|);
    GroupKeepsOrder(Scopes(s.rows), ids, scope);
    forall i | 0 <= i < |s.rows| ensures i in g <==> s.log[i].kind == input.kind && s.log[i].scope == scope {
      RowFacts(s, i);
    }
    if target < |s.rows| {
      RowFacts(s, target);
      if target in g {
        RowFacts(s, g[0]);
        assert g[0] in g;
        FirstIsLatest(s.log, g, input.kind, scope);
      }
    }
  }

  predicate IsLatest(log: seq<Entry>, i: nat, kind: PolicyKind, scope: string)
    requires i < |log|
  {
    log[i].kind == kind && log[i].scope == scope
    && forall j :: i < j < |log| ==> !(log[j].kind == kind && log[j].scope == scope)
  }

  lemma FirstIsLatest(log: seq<Entry>, g: seq<nat>, kind: PolicyKind, scope: string)
    requires |g| > 0 && Descending(g)
    requires forall k :: 0 <= k < |g| ==> g[k] < |log|
    requires forall i :: 0 <= i < |log| ==> (i in g <==> log[i].kind == kind && log[i].scope == scope)
    ensures IsLatest(log, g[0], kind, scope)
    ensures forall i :: 0 <= i < |log| && IsLatest(log, i, kind, scope) ==> i == g[0]
  {
    assert g[0] in g;
    assert forall k :: 0 <= k < |g| ==> g[k] <= g[0];
    forall j | g[0] < j < |log| ensures !(log[j].kind == kind && log[j].scope == scope) {
      assert j !in g;
    }
    forall i | 0 <= i < |log| && IsLatest(log, i, kind, scope) ensures i == g[0] {
      assert i in g;
    }
  }

  // ----- The store -----

  class Store {
    var rows: seq<Row>
    ghost var inputs: seq<Input>

    /** The rows are what the publication attempts so far made of an empty store. */
    ghost predicate Valid()
      reads this
    {
      rows == History(inputs).rows
    }

    constructor ()
      ensures Valid() && inputs == []
    {
      rows := [];
      inputs := [];
    }

    /** Disables the enabled revisions of one scope. */
    method Retire(kind: PolicyKind, scope: string)
      modifies this`rows
      ensures rows == Retired(old(rows), kind, scope)
    {
      ghost var before := rows;
      for i := 0 to |rows|
        invariant |rows| == |before|
        invariant forall k :: 0 <= k < i ==> rows[k] == Retired(before, kind, scope)[k]
        invariant forall k :: i <= k < |rows| ==> rows[k] == before[k]
      {
        if Retires(rows[i], kind, scope) {
          rows := rows[i := rows[i].(enabled := false)];
        }
      }
    }

    method Create(input: Input) returns (refused: Option<Refusal>)
      requires Valid()
      modifies this
      ensures Valid() && inputs == old(inputs) + [input]
      ensures match Publication(old(rows), input)
              case Refused(why) => rows == old(rows) && refused == Some(why)
              case Published(next) => rows == next && refused == None
    {
      assert (inputs + [input])[..|inputs|] == inputs;
      inputs := inputs + [input];
      var p := PublishedConfig(input.kind, input.raw);
      if p.None? {
        return Some(BadRequest);
      }
      var version := NextVersion(rows, input.kind);
      if version < 1 || version > MAX_VERSION {
        return Some(Conflict);
      }
      if !ScopesReadable(Scopes(rows), Revisions(rows, input.kind, false, |rows|)) {
        return Some(BadRequest);
      }
      var gate := SupersessionGate(rows, input, p.value.scope);
      if gate.Some? {
        return gate;
      }
      if input.enabled != Some(false) {
        Retire(input.kind, p.value.scope);
      }
      rows := rows + [Row(input.kind, p.value.config, input.enabled != Some(false), version, input.supersedes,
          input.name)];
      return None;
    }

    /** Groups the enabled revisions by scope, then picks the head. */
    method ResolveEffectivePolicy(kind: PolicyKind, costCenter: string) returns (r: Resolution)
      ensures r == Resolve(rows, kind, costCenter)
    {
      r := GroupAndPick(rows, Scopes(rows), Revisions(rows, kind, true, |rows|), kind, costCenter);
    }
  }

  method GroupAndPick(rows: seq<Row>, scopes: seq<Option<string>>, ids: seq<nat>, kind: PolicyKind, costCenter: string)
    returns (r: Resolution)
    requires |scopes| == |rows| && IdsBelow(ids, |rows|)
    ensures r == ResolveAmong(rows, scopes, ids, kind, costCenter)
  {
    var groups: map<string, seq<nat>> := map[];
    for k := 0 to |ids|
      invariant GroupedSoFar(scopes, ids, k, groups)
    {
      var scope := scopes[ids[k]];
      if scope.None? {
        return BadConfig;
      }
      GroupsGrow(scopes, ids, k, groups);
      groups := groups[scope.value := Lookup(groups, scope.value) + [ids[k]]];
    }
    assert ids[..|ids|] == ids;
    var exact := if costCenter == "" then [] else Lookup(groups, PolicyEngine.SCOPE_PREFIX + costCenter);
    var candidates := if |exact| > 0 then exact else Lookup(groups, GLOBAL);
    assert candidates == Candidates(scopes, ids, costCenter);
    r := HeadOf(rows, kind, candidates);
  }

  function Lookup(groups: map<string, seq<nat>>, key: string): seq<nat> {
    if key in groups then groups[key] else []
  }

  /** The first `k` revisions are readable and sorted into their groups. */
  ghost predicate GroupedSoFar(scopes: seq<Option<string>>, ids: seq<nat>, n: nat, groups: map<string, seq<nat>>)
    requires n <= |ids| && IdsBelow(ids, |scopes|)
  {
    ScopesReadable(scopes, ids[..n]) && forall key :: Lookup(groups, key) == Group(scopes, ids[..n], key)
  }

  lemma GroupsGrow(scopes: seq<Option<string>>, ids: seq<nat>, n: nat, groups: map<string, seq<nat>>)
    requires n < |ids| && IdsBelow(ids, |scopes|)
    requires GroupedSoFar(scopes, ids, n, groups) && scopes[ids[n]].Some?
    ensures var scope := scopes[ids[n]].value;
            GroupedSoFar(scopes, ids, n + 1, groups[scope := Lookup(groups, scope) + [ids[n]]])
  {
    assert ids[..n + 1][..n] == ids[..n];
    var scope := scopes[ids[n]].value;
    var after := groups[scope := Lookup(groups, scope) + [ids[n]]];
    forall key ensures Lookup(after, key) == Group(scopes, ids[..n + 1], key) {
      assert Lookup(groups, key) == Group(scopes, ids[..n], key);
    }
  }
}

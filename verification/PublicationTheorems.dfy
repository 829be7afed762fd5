/** Publication over whole histories: which attempts are accepted, the number each
    revision gets, and what a publication writes. */
module PublicationTheorems {
  import opened Common
  import opened PolicyConfig
  import opened PolicyScope
  import opened PolicyStore

  // ----- Revisions are numbered 1, 2, 3, ... within their kind -----

  /** How many of the first `n` rows are of the kind. */
  function KindCount(rows: seq<Row>, kind: PolicyKind, n: nat): nat
    requires n <= |rows|
  {
    if n == 0 then 0 else KindCount(rows, kind, n - 1) + (if rows[n - 1].kind == kind then 1 else 0)
  }

  predicate Numbered(rows: seq<Row>) {
    forall i :: 0 <= i < |rows| ==> rows[i].version == 1 + KindCount(rows, rows[i].kind, i)
  }

  lemma {:induction false} CountOfSameKinds(a: seq<Row>, b: seq<Row>, kind: PolicyKind, n: nat)
    requires n <= |a| && n <= |b| && forall i :: 0 <= i < n ==> a[i].kind == b[i].kind
    ensures KindCount(a, kind, n) == KindCount(b, kind, n)
  {
    if n > 0 {
      CountOfSameKinds(a, b, kind, n - 1);
    }
  }

  lemma {:induction false} CountStays(rows: seq<Row>, kind: PolicyKind, m: nat, n: nat)
    requires m <= n <= |rows| && forall j :: m <= j < n ==> rows[j].kind != kind
    ensures KindCount(rows, kind, n) == KindCount(rows, kind, m)
  {
    if m < n {
      CountStays(rows, kind, m, n - 1);
    }
  }

  /** The first of the revisions, newest first, is the last row of the kind. */
  lemma FirstIsLastRow(rows: seq<Row>, kind: PolicyKind, ids: seq<nat>)
    requires Descending(ids) && forall i :: i in ids <==> 0 <= i < |rows| && rows[i].kind == kind
    ensures |ids| == 0 ==> forall j :: 0 <= j < |rows| ==> rows[j].kind != kind
    ensures |ids| > 0 ==>
              ids[0] < |rows| && rows[ids[0]].kind == kind
              && forall j :: ids[0] < j < |rows| ==> rows[j].kind != kind
  {
    forall j | 0 <= j < |rows| && rows[j].kind == kind ensures |ids| > 0 && j <= ids[0] {
      assert j in ids;
    }
    if |ids| > 0 {
      assert ids[0] in ids;
    }
  }

  lemma LastRowCounts(rows: seq<Row>, kind: PolicyKind, last: nat)
    requires Numbered(rows) && last < |rows| && rows[last].kind == kind
    requires forall j :: last < j < |rows| ==> rows[j].kind != kind
    ensures rows[last].version == KindCount(rows, kind, |rows|)
  {
    CountStays(rows, kind, last + 1, |rows|);
  }

  lemma NextNumber(rows: seq<Row>, kind: PolicyKind)
    requires Numbered(rows) && VersionsIncrease(rows)
    ensures NextVersion(rows, kind) == 1 + KindCount(rows, kind, |rows|)
  {
    var ids := Revisions(rows, kind, false, |rows|);
    RevisionsAreTheKind(rows, kind, false, |rows|);
    RevisionsDescend(rows, kind, false, |rows|);
    FirstIsLastRow(rows, kind, ids);
    if |ids| == 0 {
      CountStays(rows, kind, 0, |rows|);
    } else {
      LastRowCounts(rows, kind, ids[0]);
    }
  }

  lemma NumbersGrow(a: seq<Row>, b: seq<Row>)
    requires Numbered(a) && |b| == |a| + 1
    requires forall i :: 0 <= i < |a| ==> b[i].kind == a[i].kind && b[i].version == a[i].version
    requires b[|a|].version == 1 + KindCount(a, b[|a|].kind, |a|)
    ensures Numbered(b)
  {
    forall i | 0 <= i < |b| ensures b[i].version == 1 + KindCount(b, b[i].kind, i) {
      CountOfSameKinds(a, b, b[i].kind, i);
    }
  }

  lemma RowsKeepNumbers(rows: seq<Row>, input: Input)
    requires Publication(rows, input).Published?
    ensures var after := Publication(rows, input).rows;
            |after| == |rows| + 1
            && after[|rows|].kind == input.kind && after[|rows|].version == NextVersion(rows, input.kind)
            && forall i :: 0 <= i < |rows| ==> after[i].kind == rows[i].kind && after[i].version == rows[i].version
  {
  }

  lemma PublishNumbers(s: State, input: Input)
    requires VersionsIncrease(s.rows) && Numbered(s.rows)
    ensures Numbered(Publish(s, input).rows)
  {
    if Publication(s.rows, input).Published? {
      RowsKeepNumbers(s.rows, input);
      NextNumber(s.rows, input.kind);
      NumbersGrow(s.rows, Publication(s.rows, input).rows);
    }
  }

  /** Over every history the revisions of a kind are numbered without a gap. */
  lemma {:induction false} RevisionsAreNumbered(inputs: seq<Input>)
    ensures Numbered(History(inputs).rows)
  {
    if |inputs| > 0 {
      var before := inputs[..|inputs| - 1];
      RevisionsAreNumbered(before);
      HistoryIsSound(before);
      PublishNumbers(History(before), inputs[|inputs| - 1]);
    }
  }

  // ----- Which publications are accepted -----

  /** The revision it replaces, if it names one, is the latest of its kind and scope. */
  predicate ReplacesLatest(log: seq<Entry>, input: Input, scope: string) {
    input.supersedes.Some? ==>
      input.supersedes.value < |log| && IsLatest(log, input.supersedes.value, input.kind, scope)
  }

  function SupersessionFault(log: seq<Entry>, input: Input, scope: string): Refusal {
    if input.supersedes.Some? && input.supersedes.value >= |log| then NotFound
    else if input.supersedes.Some?
            && !(log[input.supersedes.value].kind == input.kind && log[input.supersedes.value].scope == scope)
    then BadRequest
    else Conflict
  }

  lemma AcceptedWhen(rows: seq<Row>, input: Input)
    requires ScopesReadable(Scopes(rows), Revisions(rows, input.kind, false, |rows|))
    requires NextVersion(rows, input.kind) >= 1
    ensures var p, next := PublishedConfig(input.kind, input.raw), NextVersion(rows, input.kind);
            (Publication(rows, input).Published?
             <==> p.Some? && next <= 2_147_483_647 && SupersessionGate(rows, input, p.value.scope).None?)
            && (Publication(rows, input).Refused? ==>
                  Publication(rows, input).why
                  == (if p.None? then BadRequest
                      else if next > 2_147_483_647 then Conflict
                      else SupersessionGate(rows, input, p.value.scope).value))
  {
  }

  lemma GateMeans(inputs: seq<Input>, input: Input)
    requires PublishedConfig(input.kind, input.raw).Some?
    ensures var s, scope := History(inputs), PublishedConfig(input.kind, input.raw).value.scope;
            var gate := SupersessionGate(s.rows, input, scope);
            (gate.None? <==> ReplacesLatest(s.log, input, scope))
            && (gate.Some? ==> gate.value == SupersessionFault(s.log, input, scope))
  {
    HistoryIsSound(inputs);
    var s := History(inputs);
    if input.supersedes.Some? {
      SupersedesLatest(inputs, input);
      if input.supersedes.value < |s.rows| {
        RowFacts(s, input.supersedes.value);
      }
    }
  }

  /** In every reachable store: a publication is accepted exactly when its config is,
      another number fits the column, and it replaces nothing but the latest revision of
      its kind and scope. Otherwise the first of these that fails decides the refusal. */
  lemma PublicationIsAccepted(inputs: seq<Input>, input: Input)
    ensures var s, p := History(inputs), PublishedConfig(input.kind, input.raw);
            var used := KindCount(s.rows, input.kind, |s.rows|);
            (Publication(s.rows, input).Published?
             <==> p.Some? && used < 2_147_483_647 && ReplacesLatest(s.log, input, p.value.scope))
            && (Publication(s.rows, input).Refused? ==>
                  Publication(s.rows, input).why
                  == (if p.None? then BadRequest
                      else if used >= 2_147_483_647 then Conflict
                      else SupersessionFault(s.log, input, p.value.scope)))
  {
    HistoryIsSound(inputs);
    RevisionsAreNumbered(inputs);
    var s := History(inputs);
    NextNumber(s.rows, input.kind);
    AllReadable(s, Revisions(s.rows, input.kind, false, |s.rows|));
    AcceptedWhen(s.rows, input);
    if PublishedConfig(input.kind, input.raw).Some? {
      GateMeans(inputs, input);
    }
  }

  /** What an accepted publication writes: one new revision under the next number, and,
      if it is enabled, every other revision of its kind and scope is switched off. */
  lemma PublicationWrites(inputs: seq<Input>, input: Input)
    requires Publication(History(inputs).rows, input).Published?
    ensures var s, p := History(inputs), PublishedConfig(input.kind, input.raw);
            var after, n := Publication(s.rows, input).rows, |s.rows|;
            p.Some? && |after| == n + 1 && |s.log| == n
            && after[n] == Row(input.kind, p.value.config, input.enabled != Some(false),
                               1 + KindCount(s.rows, input.kind, n), input.supersedes, input.name)
            && forall i :: 0 <= i < n ==>
                 after[i] == s.rows[i].(enabled := s.rows[i].enabled
                               && !(input.enabled != Some(false) && s.log[i].kind == input.kind
                                    && s.log[i].scope == p.value.scope))
  {
    HistoryIsSound(inputs);
    RevisionsAreNumbered(inputs);
    var s := History(inputs);
    NextNumber(s.rows, input.kind);
    forall i | 0 <= i < |s.rows| ensures s.rows[i].kind == s.log[i].kind && ScopeOf(s.rows[i]) == Some(s.log[i].scope) {
      assert RowOk(s, i);
    }
  }
}

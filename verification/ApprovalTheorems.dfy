/** Approval gates over whole histories: whoever may decide a gate can close it. */
module ApprovalTheorems {
  import opened Common
  import opened Matching
  import opened LedgerModel
  import opened LedgerSteps
  import opened LedgerTheorems
  import PolicyEngine

  /** The gate refers to a requisition that exists, and unless the spend itself was
      blocked it waits for somebody on its route. */
  predicate GateOk(reqs: seq<Requisition>, a: Approval) {
    (a.requisition.Some? ==> a.requisition.value < |reqs|)
    && (a.status == Pending && a.kind != PolicyEngine.PolicyGate ==> |a.route| > 0)
  }

  predicate GatesOk(db: Db) {
    forall k :: 0 <= k < |db.approvals| ==> GateOk(db.reqs, db.approvals[k])
  }

  /** Rows are only added, or keep everything but status and decider, and an open
      gate was open before. */
  predicate GatesKept(a: Db, b: Db) {
    |a.reqs| <= |b.reqs| && |a.approvals| == |b.approvals|
    && forall k :: 0 <= k < |a.approvals| ==>
         b.approvals[k] == a.approvals[k].(status := b.approvals[k].status, decidedBy := b.approvals[k].decidedBy)
         && (b.approvals[k].status == Pending ==> a.approvals[k].status == Pending)
  }

  predicate GateAdded(a: Db, b: Db) {
    |a.reqs| <= |b.reqs| && |b.approvals| == |a.approvals| + 1 && b.approvals[..|a.approvals|] == a.approvals
    && GateOk(b.reqs, b.approvals[|a.approvals|])
  }

  lemma GatesStayOk(a: Db, b: Db)
    requires GatesOk(a) && (GatesKept(a, b) || GateAdded(a, b))
    ensures GatesOk(b)
  {
    forall k | 0 <= k < |b.approvals| ensures GateOk(b.reqs, b.approvals[k]) {
      if k < |a.approvals| {
        assert GateOk(a.reqs, a.approvals[k]);
        assert GateAdded(a, b) ==> b.approvals[..|a.approvals|][k] == a.approvals[k];
      }
    }
  }

  lemma SubmitAddsGate(db: Db, id: nat, policy: Option<PolicyEngine.ThresholdPolicy>)
    requires SubmitRequisition(db, id, policy).Done?
    ensures GateAdded(db, After(db, SubmitRequisition(db, id, policy)))
  {
    PolicyEngine.AutoApprovalIsCovered(policy, SubmitContext(db, db.reqs[id]));
  }

  lemma IssueKeepsOrAdds(db: Db, r: nat, v: nat, terms: Terms, actor: string, now: int)
    ensures var after := After(db, IssuePo(db, r, v, terms, actor, now)); GatesKept(db, after) || GateAdded(db, after)
  {
  }

  lemma CancellationAddsGate(db: Db, p: nat, actor: string)
    requires PosOk(db.reqs, db.pos)
    ensures var after := After(db, RequestCancellation(db, p, actor)); GatesKept(db, after) || GateAdded(db, after)
  {
    if p < |db.pos| {
      assert PoOk(db.reqs, db.pos[p]);
    }
  }

  lemma DecisionKeepsGates(db: Db, k: nat, verdict: Verdict, actor: string, credentials: Credentials)
    ensures GatesKept(db, After(db, Decide(db, k, verdict, actor, credentials)))
  {
  }

  predicate WritesGates(e: Event) {
    e.EvSubmit? || e.EvIssue? || e.EvRequestCancellation? || e.EvDecide?
  }

  lemma OthersKeepGates(db: Db, e: Event)
    requires !WritesGates(e)
    ensures GatesKept(db, Step(db, e))
  {
  }

  lemma StepKeepsGates(db: Db, e: Event)
    requires PosOk(db.reqs, db.pos) && GatesOk(db)
    ensures GatesOk(Step(db, e))
  {
    if e.EvSubmit? {
      if SubmitRequisition(db, e.id, e.policy).Done? {
        SubmitAddsGate(db, e.id, e.policy);
        GatesStayOk(db, Step(db, e));
      }
    } else {
      if e.EvIssue? {
        IssueKeepsOrAdds(db, e.r, e.v, e.terms, e.actor, e.now);
      } else if e.EvRequestCancellation? {
        CancellationAddsGate(db, e.p, e.actor);
      } else if e.EvDecide? {
        DecisionKeepsGates(db, e.k, e.verdict, e.actor, e.credentials);
      } else {
        OthersKeepGates(db, e);
      }
      GatesStayOk(db, Step(db, e));
    }
  }

  lemma {:induction false} EveryHistoryKeepsGates(history: seq<Event>)
    ensures GatesOk(LedgerSteps.Replay(history))
  {
    if |history| > 0 {
      var before := history[..|history| - 1];
      EveryHistoryKeepsGates(before);
      EveryHistoryIsSafe(before);
      StepKeepsGates(LedgerSteps.Replay(before), history[|history| - 1]);
    }
  }

  /** Over every history, exactly the open gates can be rejected, and exactly by a
      known user other than the maker who is an administrator or on the route; only
      the gate of a blocked spend may have nobody on it. */
  lemma GatesStayDecidable(history: seq<Event>, k: nat, actor: string, credentials: Credentials)
    requires k < |LedgerSteps.Replay(history).approvals|
    ensures var db := LedgerSteps.Replay(history);
            var a := db.approvals[k];
            (Decide(db, k, Reject, actor, credentials).Done?
             <==> a.status == Pending && MayDecide(a, credentials) && a.requestedBy != actor)
            && (a.status == Pending && a.kind != PolicyEngine.PolicyGate ==> |a.route| > 0)
  {
    EveryHistoryKeepsGates(history);
    assert GateOk(LedgerSteps.Replay(history).reqs, LedgerSteps.Replay(history).approvals[k]);
  }
}

/** What lets the push contact QuickBooks, and how an export moves, stated over the
    fields of the row. */
module PushTheorems {
  import opened Common
  import opened JournalPush

  /** Still waiting, claimed by nobody, and its frozen artifact is intact. */
  predicate Claimable(s: System, x: nat, intact: bool) {
    x < |s.rows| && intact && s.rows[x].status == Exported && s.rows[x].claim.None?
  }

  predicate TakesClaim(s: System, e: Event) {
    e.Prepare? && Claimable(s, e.x, e.intact)
  }

  /** A worker comes from a claim on a claimable export and from nothing else; the
      claim names its taker and clears an old failure. */
  lemma WorkerAddedExactly(s: System, e: Event)
    ensures |Step(s, e).workers| == |s.workers| + (if TakesClaim(s, e) then 1 else 0)
    ensures TakesClaim(s, e) ==>
              Step(s, e).workers == s.workers + [Worker(e.x, Holding, None)]
              && Step(s, e).rows
                 == s.rows[e.x := s.rows[e.x].(claim := Some(|s.workers|), claimedBy := Some(e.actor), failure := None)]
    ensures e.Prepare? && !TakesClaim(s, e) ==> Step(s, e) == s
    ensures forall w :: 0 <= w < |s.workers| ==> Step(s, e).workers[w].export_ == s.workers[w].export_
  {
  }

  /** A journal is posted by a worker that holds its claim, for the export it claimed,
      and by nothing else; posting leaves the table alone. */
  lemma PostAddedExactly(s: System, e: Event)
    ensures Step(s, e).posts
         == s.posts + (if e.Post? && e.worker < |s.workers| && s.workers[e.worker].phase == Holding
                       then [s.workers[e.worker].export_] else [])
    ensures e.Post? ==> Step(s, e).rows == s.rows
  {
  }

  /** Event `k` claimed export `x` while it could be claimed. */
  predicate ClaimedAt(events: seq<Event>, x: nat, k: nat) {
    k < |events| && TakesClaim(Run(events[..k]), events[k]) && events[k].x == x
  }

  lemma {:induction false} EveryWorkerClaimed(events: seq<Event>, w: nat)
    requires w < |Run(events).workers|
    ensures exists k: nat :: ClaimedAt(events, Run(events).workers[w].export_, k)
  {
    var n := |events| - 1;
    var before := Run(events[..n]);
    WorkerAddedExactly(before, events[n]);
    if w < |before.workers| {
      EveryWorkerClaimed(events[..n], w);
      var k: nat :| ClaimedAt(events[..n], before.workers[w].export_, k);
      assert events[..n][..k] == events[..k];
      assert ClaimedAt(events, Run(events).workers[w].export_, k);
    } else {
      assert ClaimedAt(events, Run(events).workers[w].export_, n);
    }
  }

  /** Over all runs: every journal POST is for an export that was claimed while it was
      waiting, unclaimed and intact. */
  lemma {:induction false} EveryPostWasClaimed(events: seq<Event>, j: nat)
    requires j < |Run(events).posts|
    ensures exists k: nat :: ClaimedAt(events, Run(events).posts[j], k)
  {
    var n := |events| - 1;
    var before := Run(events[..n]);
    PostAddedExactly(before, events[n]);
    if j < |before.posts| {
      EveryPostWasClaimed(events[..n], j);
      var k: nat :| ClaimedAt(events[..n], before.posts[j], k);
      assert events[..n][..k] == events[..k];
      assert ClaimedAt(events, Run(events).posts[j], k);
    } else {
      EveryWorkerClaimed(events[..n], events[n].worker);
      var k: nat :| ClaimedAt(events[..n], Run(events).posts[j], k);
      assert events[..n][..k] == events[..k];
      assert ClaimedAt(events, Run(events).posts[j], k);
    }
  }

  // ----- The moves of a row -----

  /** The worker's answer is about an export that still waits under its claim. */
  predicate Current(s: System, w: nat) {
    w < |s.workers| && s.workers[w].phase == Answered
    && s.workers[w].export_ < |s.rows|
    && s.rows[s.workers[w].export_].status == Exported && s.rows[s.workers[w].export_].claim == Some(w)
  }

  /** An answer with an entry posts the current claim's export under that entry; an
      answer without one leaves the export claimed and marks it for review. */
  lemma AnswersSettle(s: System, w: nat, reason: string)
    ensures Step(s, Complete(w)).rows
         == (if Current(s, w) && s.workers[w].answer.Some?
             then var x := s.workers[w].export_;
                  s.rows[x := s.rows[x].(status := Posted, externalRef := s.workers[w].answer,
                                         rejectedReason := None, failure := None)]
             else s.rows)
    ensures Step(s, MarkFailed(w, reason)).rows
         == (if Current(s, w) && s.workers[w].answer.None?
             then var x := s.workers[w].export_;
                  s.rows[x := s.rows[x].(failure := Some(if |reason| <= 500 then reason else reason[..500]))]
             else s.rows)
  {
  }

  /** An acknowledgement is accepted for a waiting export: without a claim it only
      needs a reason when it rejects; with one it must say that it resolves the claim,
      come from somebody else, and name the entry when it says posted. */
  predicate Acceptable(row: Export, a: Acknowledgement, actor: string) {
    row.status == Exported
    && (a.posted || (a.rejectedReason.Some? && a.rejectedReason.value != ""))
    && (row.claim.Some? ==>
          a.resolveClaim && row.claimedBy != Some(actor)
          && (a.posted ==> a.externalRef.Some? && a.externalRef.value != ""))
  }

  lemma AcknowledgementSettles(s: System, x: nat, a: Acknowledgement, actor: string)
    ensures Step(s, Acknowledge(x, a, actor)).rows
         == (if x < |s.rows| && Acceptable(s.rows[x], a, actor)
             then var settled := s.rows[x].(externalRef := a.externalRef);
                  var judged := if a.posted then settled.(status := Posted, rejectedReason := None)
                                else settled.(status := Rejected, rejectedReason := a.rejectedReason);
                  s.rows[x := if s.rows[x].claim.Some? then judged.(resolvedBy := Some(actor)) else judged]
             else s.rows)
    ensures AcknowledgeGate(s.rows, x, a, actor) == Some(NotFound) <==> x >= |s.rows|
    ensures AcknowledgeGate(s.rows, x, a, actor) == Some(Conflict)
       <==> x < |s.rows| && !Acceptable(s.rows[x], a, actor)
  {
  }

  /** A run is exported once: the first time adds a waiting row, later times add none. */
  lemma ExportedOnce(s: System, run: nat)
    ensures var after := Step(s, ExportRun(run)).rows;
            if exists i :: 0 <= i < |s.rows| && s.rows[i].run == run
            then after == s.rows
            else after == s.rows + [Export(run, Exported, None, None, None, None, None, None)]
  {
  }

  lemma ClaimRefusals(s: System, x: nat, intact: bool)
    ensures PrepareGate(s.rows, x, intact) == Some(NotFound) <==> x >= |s.rows|
    ensures PrepareGate(s.rows, x, intact) == None <==> Claimable(s, x, intact)
  {
  }
}

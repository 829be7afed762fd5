/** What lets a worker contact the transport, and how the row of a message moves,
    stated over the fields of the row and of the checks. */
module DispatchTheorems {
  import opened Common
  import opened Messaging

  /** Content, vendor, recipient and, for the automatic tier, template still hold. */
  predicate Cleared(tier: Tier, c: DispatchCheck) {
    c.hashMatches && c.vendorFound && !c.blacklisted && c.recipientVerified
    && (tier == Auto ==> c.templateRefusal.None?)
  }

  /** Durable, released by its tier or by a human, and without an earlier attempt
      that nobody accounted for. */
  predicate Authorized(m: Message) {
    m.dispatchStartedAt.None? && m.sentAt.None? && m.transportMessageId.None?
    && (if m.status == Queued then m.tier == Auto
        else m.status == Approved && m.approvedBy.Some? && m.approvedAt.Some?)
    && (m.resolution.Some? ==>
          m.resolution.value == ConfirmedNotSent && m.evidence.Some? && m.resolvedBy.Some? && m.resolvedAt.Some?)
  }

  predicate TakesClaim(s: System, e: Event) {
    e.Claim? && s.message.status == e.expected && Authorized(s.message) && Cleared(s.message.tier, e.check)
  }

  /** A worker is added by a claim on an authorized row whose checks all hold, and by
      nothing else; the row is then being sent. */
  lemma WorkerAddedExactly(s: System, e: Event)
    ensures |Step(s, e).workers| == |s.workers| + (if TakesClaim(s, e) then 1 else 0)
    ensures TakesClaim(s, e) ==>
              Step(s, e).workers == s.workers + [Holding]
              && Step(s, e).message
                 == s.message.(status := Sending, dispatchStartedAt := Some(e.now), failedReason := None)
  {
  }

  /** Event `k` is the claim that made worker `w`. */
  predicate MadeBy(tier: Tier, events: seq<Event>, w: nat, k: nat) {
    k < |events| && |Run(tier, events[..k]).workers| == w && TakesClaim(Run(tier, events[..k]), events[k])
  }

  /** Over all runs: every worker that could ever contact the transport goes back to
      a claim of its own, taken on an authorized row with all checks holding. */
  lemma {:induction false} EveryWorkerWasCleared(tier: Tier, events: seq<Event>, w: nat)
    requires w < |Run(tier, events).workers|
    ensures exists k: nat :: MadeBy(tier, events, w, k)
  {
    var n := |events| - 1;
    WorkerAddedExactly(Run(tier, events[..n]), events[n]);
    if w < |Run(tier, events[..n]).workers| {
      EveryWorkerWasCleared(tier, events[..n], w);
      var k: nat :| MadeBy(tier, events[..n], w, k);
      assert events[..n][..k] == events[..k];
      assert MadeBy(tier, events, w, k);
    } else {
      assert MadeBy(tier, events, w, n);
    }
  }

  /** Sends are by distinct workers. */
  lemma {:induction false} SendsWithinWorkers(tier: Tier, events: seq<Event>)
    ensures var s := Run(tier, events); s.sends + Pending(s.workers) <= |s.workers|
  {
    if |events| > 0 {
      var n := |events| - 1;
      SendsWithinWorkers(tier, events[..n]);
      WorkerFacts(Run(tier, events[..n]), events[n]);
      WorkerAddedExactly(Run(tier, events[..n]), events[n]);
    }
  }

  /** Nothing is ever sent without a claim that found every check in order. */
  lemma SendNeedsClearance(tier: Tier, events: seq<Event>)
    requires Run(tier, events).sends > 0
    ensures exists k ::
              0 <= k < |events| && TakesClaim(Run(tier, events[..k]), events[k])
  {
    SendsWithinWorkers(tier, events);
    EveryWorkerWasCleared(tier, events, 0);
    var k: nat :| MadeBy(tier, events, 0, k);
  }

  /** A claim that one check stops fails the row, with the reason of that check; a
      template only counts for the automatic tier. */
  lemma FailedCheckIsRecorded(m: Message, c: DispatchCheck, now: int)
    requires Authorized(m)
    ensures var next := ClaimRow(m, m.status, c, now);
            var stopped := m.(status := Failed, dispatchStartedAt := Some(now));
            (!c.hashMatches ==>
               next == stopped.(failedReason := Some("Message content no longer matches its canonical body hash")))
            && (c.hashMatches && !c.vendorFound ==>
                  next == stopped.(failedReason := Some("Message vendor no longer exists")))
            && (c.hashMatches && c.vendorFound && c.blacklisted ==>
                  next == stopped.(failedReason := Some("Message vendor is blacklisted at dispatch")))
            && (c.hashMatches && c.vendorFound && !c.blacklisted && !c.recipientVerified ==>
                  next == stopped.(failedReason := Some("Message recipient is no longer a verified vendor contact")))
            && (c.hashMatches && c.vendorFound && !c.blacklisted && c.recipientVerified
                && m.tier == Auto && c.templateRefusal.Some? ==>
                  next == stopped.(failedReason := c.templateRefusal))
  {
  }

  /** A dispatch that nothing disturbs: with the claim taken and every check holding,
      the answer of the transport decides; a row that cannot be claimed stays as it is. */
  lemma AnswerDecides(m: Message, expected: Status, c: DispatchCheck, answer: Worker, reason: string, now: int)
    requires answer.Returned?
    ensures var after := Dispatched(m, expected, c, answer, reason, now);
            var claimed := m.(dispatchStartedAt := Some(now), failedReason := None);
            (!(Authorized(m) && m.status == expected) ==> after == m)
            && (Authorized(m) && m.status == expected && Cleared(m.tier, c) ==>
                  after == (if answer.ok
                            then claimed.(status := Sent, sentAt := Some(now), transportMessageId := answer.receipt)
                            else claimed.(status := Failed, failedReason := Some(reason))))
            && (Authorized(m) && m.status == expected && !Cleared(m.tier, c) ==>
                  after == ClaimRow(m, m.status, c, now))
  {
  }

  // ----- The moves of a row -----

  const FIFTEEN_MINUTES: int := 900_000

  /** The delivery has failed, or was started a quarter of an hour ago and not heard
      of since, and whoever resolves it did not approve the message. */
  predicate MayResolve(m: Message, resolver: string, now: int) {
    (m.status == Failed
     || (m.status == Sending && (m.dispatchStartedAt.Some? ==> m.dispatchStartedAt.value <= now - FIFTEEN_MINUTES)))
    && m.approvedBy != Some(resolver)
  }

  /** A resolution is a conflict before the delivery failed or fell silent, and forbidden
      to the approver after. */
  lemma ResolutionRefusals(m: Message, resolver: string, now: int)
    ensures ResolutionGate(m, resolver, now)
         == (if MayResolve(m, resolver, now) then None
             else if m.approvedBy == Some(resolver)
                     && MayResolve(m.(approvedBy := None), resolver, now) then Some(Forbidden)
             else Some(Conflict))
  {
  }

  predicate Answers(s: System, w: nat, ok: bool) {
    w < |s.workers| && s.workers[w].Returned? && (ok ==> s.workers[w].ok)
  }

  /** A decision is taken on a queued row and on no other, and it records who took it
      and when; a rejection also records its reason. */
  lemma DecisionsMoveQueued(s: System, actor: string, reason: Option<string>, now: int)
    ensures var decided := s.message.(approvedBy := Some(actor), approvedAt := Some(now));
            Step(s, Approve(actor, now)).message
            == (if s.message.status == Queued then decided.(status := Approved) else s.message)
            && Step(s, Reject(actor, reason, now)).message
               == (if s.message.status == Queued then decided.(status := Rejected, rejectedReason := reason)
                   else s.message)
  {
  }

  /** A resolution is accepted exactly when it may be given. "Sent" ends the story;
      "not sent" returns the row to the status its tier sends from, and clears the
      attempt. */
  lemma ResolutionMoves(s: System, resolver: string, outcome: Outcome, evidence: string, now: int)
    ensures var after := Step(s, Resolve(resolver, outcome, evidence, now));
            var m := s.message;
            var noted := m.(resolution := Some(outcome), evidence := Some(evidence),
                            resolvedBy := Some(resolver), resolvedAt := Some(now));
            after.message
            == (if !MayResolve(m, resolver, now) then m
                else if outcome == ConfirmedSent then noted.(status := Sent, sentAt := Some(now))
                else if m.tier == Auto then noted.(status := Queued, dispatchStartedAt := None)
                else noted.(status := Approved, dispatchStartedAt := None))
            && after.notSent
               == s.notSent + (if MayResolve(m, resolver, now) && outcome == ConfirmedNotSent then 1 else 0)
  {
  }

  /** Only a worker that heard back from the transport records, only on a row that is
      being sent, and a positive answer is what makes it sent. */
  lemma RecordingMoves(s: System, w: nat, error: string, now: int)
    ensures Step(s, RecordSent(w, now)).message
         == (if Answers(s, w, true) && s.message.status == Sending
             then s.message.(status := Sent, sentAt := Some(now), transportMessageId := s.workers[w].receipt)
             else s.message)
    ensures Step(s, RecordFailed(w, error)).message
         == (if Answers(s, w, false) && s.message.status == Sending
             then s.message.(status := Failed, failedReason := Some(error))
             else s.message)
  {
  }

  /** A worker contacts the transport once, and only while it holds its claim;
      contacting it and crashing leave the row alone. */
  lemma SendingCounts(s: System, w: nat, delivered: bool, ok: bool, receipt: Option<string>)
    ensures var after := Step(s, Send(w, delivered, ok, receipt));
            after.sends == s.sends + (if w < |s.workers| && s.workers[w] == Holding then 1 else 0)
            && after.deliveries
               == s.deliveries + (if w < |s.workers| && s.workers[w] == Holding && delivered then 1 else 0)
            && after.message == s.message == Step(s, Crash(w)).message
  {
  }
}

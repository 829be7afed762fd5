/** How often a message can be delivered, and what a rejected row tells: exact
    conditions over all runs, and the runs that show what fails. */
module MessagingRuns {
  import opened Common
  import opened Messaging

  // ----- Deliveries -----

  /** An operator confirmed "not sent" when nothing had been delivered and no
      worker could still deliver. */
  predicate CarefulStep(s: System, e: Event) {
    Resolves(s, e) && e.outcome == ConfirmedNotSent ==> s.deliveries == 0 && Pending(s.workers) == 0
  }

  predicate CarefulRun(tier: Tier, events: seq<Event>) {
    |events| > 0 ==>
      CarefulRun(tier, events[..|events| - 1]) && CarefulStep(Run(tier, events[..|events| - 1]), events[|events| - 1])
  }

  predicate DeliveriesBounded(s: System) {
    s.deliveries + Pending(s.workers) <= (if s.message.dispatchStartedAt.None? then 0 else 1)
  }

  /** With careful resolutions the recipient gets the message at most once. */
  lemma {:induction false} CarefulRunsDeliverOnce(tier: Tier, events: seq<Event>)
    requires CarefulRun(tier, events)
    ensures DeliveriesBounded(Run(tier, events)) && Run(tier, events).deliveries <= 1
  {
    if |events| > 0 {
      var before, e := Run(tier, events[..|events| - 1]), events[|events| - 1];
      CarefulRunsDeliverOnce(tier, events[..|events| - 1]);
      WorkerFacts(before, e);
    }
  }

  /** A row that was never sent holds no trace of a delivery, and a claimed gated
      row still names who approved it and when. */
  predicate Unsent(m: Message) {
    (m.status != Sent ==> m.sentAt.None? && m.transportMessageId.None?)
    && (m.tier == Gated && m.status != Queued ==> m.approvedBy.Some? && m.approvedAt.Some?)
  }

  lemma {:induction false} RunsStayUnsent(tier: Tier, events: seq<Event>)
    ensures Unsent(Run(tier, events).message) && Run(tier, events).message.tier == tier
  {
    if |events| > 0 {
      RunsStayUnsent(tier, events[..|events| - 1]);
    }
  }

  /** The status from which a requeued message is claimed. */
  function Requeued(tier: Tier): Status {
    if tier == Auto then Queued else Approved
  }

  lemma NotSentStagesAgain(s: System, e: Event)
    requires Unsent(s.message) && Resolves(s, e) && e.outcome == ConfirmedNotSent
    ensures CanClaim(Step(s, e).message, Requeued(s.message.tier))
    ensures Step(s, e).workers == s.workers && Step(s, e).deliveries == s.deliveries
  {
  }

  lemma {:induction false} SomebodyHolds(workers: seq<Worker>) returns (w: nat)
    requires Pending(workers) > 0
    ensures w < |workers| && workers[w] == Holding
  {
    var n := |workers| - 1;
    if workers[n] == Holding {
      w := n;
    } else {
      w := SomebodyHolds(workers[..n]);
    }
  }

  function Delivery(w: nat): Event {
    Send(w, true, true, None)
  }

  lemma Delivers(s: System, w: nat)
    requires w < |s.workers| && s.workers[w] == Holding
    ensures var after := Step(s, Delivery(w));
            after.deliveries == s.deliveries + 1 && |after.workers| == |s.workers|
            && forall v :: 0 <= v < |s.workers| && v != w ==> after.workers[v] == s.workers[v]
  {
  }

  predicate NoResolution(events: seq<Event>) {
    forall k :: 0 <= k < |events| ==> !events[k].Resolve?
  }

  /** After a careless "not sent" the message can reach its recipient twice, and
      nobody needs to resolve anything again for that. */
  lemma CarelessCanDeliverTwice(tier: Tier, events: seq<Event>, e: Event) returns (more: seq<Event>)
    requires Resolves(Run(tier, events), e) && !CarefulStep(Run(tier, events), e)
    ensures NoResolution(more) && Run(tier, events + [e] + more).deliveries >= 2
  {
    var s := Run(tier, events);
    RunsStayUnsent(tier, events);
    NotSentStagesAgain(s, e);
    Replayed(tier, events, e);
    var claim := Claim(Requeued(tier), CLEAR, 0);
    var claimed := events + [e] + [claim];
    var next := |s.workers|;
    Replayed(tier, events + [e], claim);
    if s.deliveries > 0 {
      Replayed(tier, claimed, Delivery(next));
      Delivers(Run(tier, claimed), next);
      more := [claim, Delivery(next)];
      assert events + [e] + more == claimed + [Delivery(next)];
    } else {
      var slow := SomebodyHolds(s.workers);
      Replayed(tier, claimed, Delivery(slow));
      Delivers(Run(tier, claimed), slow);
      Replayed(tier, claimed + [Delivery(slow)], Delivery(next));
      Delivers(Run(tier, claimed + [Delivery(slow)]), next);
      more := [claim, Delivery(slow), Delivery(next)];
      assert events + [e] + more == claimed + [Delivery(slow)] + [Delivery(next)];
    }
  }

  lemma {:induction false} CarefulWithoutResolution(tier: Tier, events: seq<Event>, more: seq<Event>)
    requires CarefulRun(tier, events) && NoResolution(more)
    ensures CarefulRun(tier, events + more)
    decreases |more|
  {
    if |more| == 0 {
      assert events + more == events;
    } else {
      var k := |more| - 1;
      CarefulWithoutResolution(tier, events, more[..k]);
      assert (events + more)[..|events + more| - 1] == events + more[..k];
    }
  }

  /** Exactly the careful resolutions are safe: an accepted "not sent" guarantees at
      most one delivery, as long as nothing is resolved again, if and only if nothing
      had been delivered and no worker still held a claim. */
  lemma DeliveredOnceExactly(tier: Tier, events: seq<Event>, e: Event)
    requires CarefulRun(tier, events) && Resolves(Run(tier, events), e) && e.outcome == ConfirmedNotSent
    ensures Run(tier, events).deliveries == 0 && Pending(Run(tier, events).workers) == 0
       <==> forall more :: NoResolution(more) ==> Run(tier, events + [e] + more).deliveries <= 1
  {
    if CarefulStep(Run(tier, events), e) {
      assert (events + [e])[..|events|] == events;
      forall more | NoResolution(more) ensures Run(tier, events + [e] + more).deliveries <= 1 {
        CarefulWithoutResolution(tier, events + [e], more);
        CarefulRunsDeliverOnce(tier, events + [e] + more);
      }
    } else {
      var more := CarelessCanDeliverTwice(tier, events, e);
    }
  }

  // ----- What a rejected row tells -----

  /** A row without a resolution that is still or finally undispatched was never
      handed to the transport. */
  predicate UnresolvedIsUnsent(s: System) {
    (s.message.status == Queued || s.message.status == Rejected) && s.message.resolution.None? ==>
      s.sends == 0 && Pending(s.workers) == 0 && s.message.dispatchStartedAt.None?
  }

  lemma {:induction false} RunsKeepUnresolved(tier: Tier, events: seq<Event>)
    ensures UnresolvedIsUnsent(Run(tier, events))
    ensures Run(tier, events).message.status == Approved && Run(tier, events).message.resolution.None? ==>
              Run(tier, events).sends == 0 && Pending(Run(tier, events).workers) == 0
  {
    if |events| > 0 {
      RunsKeepUnresolved(tier, events[..|events| - 1]);
      WorkerFacts(Run(tier, events[..|events| - 1]), events[|events| - 1]);
    }
  }

  /** Enough is known of the run to dispatch its claim, and whatever failed or was
      resolved in it was sent before. */
  predicate Telling(s: System) {
    (s.message.status == Sending ==> |s.workers| > 0 && s.workers[|s.workers| - 1] == Holding)
    && (s.message.status == Failed || s.message.resolution.Some? ==> s.sends > 0)
  }

  /** Sends for the claim the last worker holds, and leaves the row alone. */
  lemma SendsLast(tier: Tier, events: seq<Event>, ok: bool, receipt: Option<string>) returns (more: seq<Event>, w: nat)
    requires var s := Run(tier, events); |s.workers| > 0 && s.workers[|s.workers| - 1] == Holding
    ensures var after := Run(tier, more);
            after.message == Run(tier, events).message && after.sends > 0
            && w < |after.workers| && after.workers[w] == Returned(ok, receipt)
  {
    w := |Run(tier, events).workers| - 1;
    more := events + [Send(w, false, ok, receipt)];
    Replayed(tier, events, Send(w, false, ok, receipt));
  }

  lemma TellingClaim(tier: Tier, events: seq<Event>, expected: Status, check: DispatchCheck, now: int)
    returns (alike: seq<Event>)
    requires Telling(Run(tier, events)) && CanClaim(Run(tier, events).message, expected)
    ensures Telling(Run(tier, alike))
    ensures Run(tier, alike).message == ClaimRow(Run(tier, events).message, expected, check, now)
  {
    var m := Run(tier, events).message;
    alike := events + [Claim(expected, CLEAR, now)];
    Replayed(tier, events, Claim(expected, CLEAR, now));
    var blocked := BlockReason(m.tier, check);
    if blocked.Some? {
      var sent, w := SendsLast(tier, alike, false, None);
      alike := sent + [RecordFailed(w, blocked.value)];
      Replayed(tier, sent, RecordFailed(w, blocked.value));
    }
  }

  lemma TellingOutcome(tier: Tier, events: seq<Event>, receipt: Option<string>, now: int, failed: Option<string>)
    returns (alike: seq<Event>)
    requires Telling(Run(tier, events)) && Run(tier, events).message.status == Sending
    ensures Telling(Run(tier, alike))
    ensures Run(tier, alike).message == (if failed.Some? then RecordFailedRow(Run(tier, events).message, failed.value)
                                         else RecordSentRow(Run(tier, events).message, receipt, now))
  {
    var sent, w := SendsLast(tier, events, true, receipt);
    var e := if failed.Some? then RecordFailed(w, failed.value) else RecordSent(w, now);
    alike := sent + [e];
    Replayed(tier, sent, e);
  }

  lemma TellingResolve(tier: Tier, events: seq<Event>, e: Event) returns (alike: seq<Event>)
    requires Telling(Run(tier, events)) && Resolves(Run(tier, events), e)
    ensures Telling(Run(tier, alike))
    ensures Run(tier, alike).message == ResolveRow(Run(tier, events).message, e.resolver, e.outcome, e.evidence, e.now)
  {
    var sent := events;
    if Run(tier, events).message.status == Sending {
      var w;
      sent, w := SendsLast(tier, events, false, None);
    }
    alike := sent + [e];
    Replayed(tier, sent, e);
  }

  /** Every row some run produces is also produced by a run in which whatever failed
      or was resolved had been handed to the transport. */
  lemma {:induction false} TellingRun(tier: Tier, events: seq<Event>) returns (alike: seq<Event>)
    ensures Telling(Run(tier, alike)) && Run(tier, alike).message == Run(tier, events).message
  {
    if |events| == 0 {
      alike := [];
    } else {
      var before, e := events[..|events| - 1], events[|events| - 1];
      alike := TellingRun(tier, before);
      if Run(tier, events).message != Run(tier, before).message {
        match e
        case Claim(expected, check, now) =>
          alike := TellingClaim(tier, alike, expected, check, now);
        case RecordSent(w, now) =>
          alike := TellingOutcome(tier, alike, Run(tier, before).workers[w].receipt, now, None);
        case RecordFailed(w, reason) =>
          alike := TellingOutcome(tier, alike, None, 0, Some(reason));
        case Resolve(_, _, _, _) =>
          alike := TellingResolve(tier, alike, e);
        case _ =>
          Replayed(tier, alike, e);
          alike := alike + [e];
      }
    }
  }

  /** What a rejected row can tell about the transport, for both tiers: it proves
      that the message was never sent if and only if it holds no delivery
      resolution. With one, some run with this very row did send. */
  lemma RejectedUnsentExactly(tier: Tier, events: seq<Event>)
    requires Run(tier, events).message.status == Rejected
    ensures Run(tier, events).message.resolution.None?
       <==> forall others :: Run(tier, others).message == Run(tier, events).message ==> Run(tier, others).sends == 0
  {
    if Run(tier, events).message.resolution.None? {
      forall others | Run(tier, others).message == Run(tier, events).message ensures Run(tier, others).sends == 0 {
        RunsKeepUnresolved(tier, others);
      }
    } else {
      var alike := TellingRun(tier, events);
      assert Run(tier, alike).sends > 0;
    }
  }

  // ----- Runs that show what fails -----

  /** One event further along a list of events. */
  lemma OneFurther(tier: Tier, events: seq<Event>, k: nat, before: System, e: Event, after: System)
    requires k < |events| && events[k] == e
    requires Run(tier, events[..k]) == before && Step(before, e) == after
    ensures Run(tier, events[..k + 1]) == after
  {
    assert events[..k + 1][..k] == events[..k];
  }

  const CLAIMED: Message := Fresh(Auto).(status := Sending, dispatchStartedAt := Some(0))

  const BOUNCED: Message := CLAIMED.(status := Failed, failedReason := Some("timeout"))

  const REQUEUED: seq<Event> := [
    Claim(Queued, CLEAR, 0),
    Send(0, false, false, None),
    RecordFailed(0, "timeout"),
    Resolve("operator", ConfirmedNotSent, "provider log", 1)]

  const BACK: System :=
    System(ResolveRow(BOUNCED, "operator", ConfirmedNotSent, "provider log", 1), [Gone], 1, 0, 1, {"operator"})

  lemma ClaimedOnce(events: seq<Event>)
    requires |events| > 0 && events[0] == Claim(Queued, CLEAR, 0)
    ensures Run(Auto, events[..1]) == System(CLAIMED, [Holding], 0, 0, 0, {})
  {
    OneFurther(Auto, events, 0, Start(Auto), events[0], System(CLAIMED, [Holding], 0, 0, 0, {}));
  }

  lemma Bounced()
    ensures Run(Auto, REQUEUED[..3]) == System(BOUNCED, [Gone], 1, 0, 0, {})
  {
    ClaimedOnce(REQUEUED);
    var answered := System(CLAIMED, [Returned(false, None)], 1, 0, 0, {});
    OneFurther(Auto, REQUEUED, 1, System(CLAIMED, [Holding], 0, 0, 0, {}), REQUEUED[1], answered);
    OneFurther(Auto, REQUEUED, 2, answered, REQUEUED[2], System(BOUNCED, [Gone], 1, 0, 0, {}));
  }

  lemma RequeuedState()
    ensures Run(Auto, REQUEUED) == BACK
  {
    Bounced();
    OneFurther(Auto, REQUEUED, 3, System(BOUNCED, [Gone], 1, 0, 0, {}), REQUEUED[3], BACK);
    assert REQUEUED[..4] == REQUEUED;
  }

  /** For the automatic tier both gated guarantees fail: the operator who resolved
      a delivery can approve the requeued message, and a message that was already
      handed to the transport can end up rejected. */
  lemma AutoTierIsWeaker()
    ensures !ApproverIsNoResolver(Run(Auto, REQUEUED + [Approve("operator", 2)]))
    ensures var s := Run(Auto, REQUEUED + [Reject("auditor", None, 2)]); s.message.status == Rejected && s.sends > 0
  {
    RequeuedState();
    Replayed(Auto, REQUEUED, Approve("operator", 2));
    Replayed(Auto, REQUEUED, Reject("auditor", None, 2));
  }

  const OVERTAKEN: seq<Event> := [
    Claim(Queued, CLEAR, 0),
    Resolve("operator", ConfirmedNotSent, "nothing yet", STALE_MS),
    Delivery(0),
    Claim(Queued, CLEAR, STALE_MS),
    Delivery(1)]

  const RELEASED: Message := ResolveRow(CLAIMED, "operator", ConfirmedNotSent, "nothing yet", STALE_MS)

  const CLAIMED_AGAIN: Message := ClaimRow(RELEASED, Queued, CLEAR, STALE_MS)

  lemma Released()
    ensures Run(Auto, OVERTAKEN[..2]) == System(RELEASED, [Holding], 0, 0, 1, {"operator"})
    ensures Resolves(Run(Auto, OVERTAKEN[..1]), OVERTAKEN[1]) && Run(Auto, OVERTAKEN[..1]).deliveries == 0
  {
    ClaimedOnce(OVERTAKEN);
    OneFurther(Auto, OVERTAKEN, 1, System(CLAIMED, [Holding], 0, 0, 0, {}), OVERTAKEN[1],
               System(RELEASED, [Holding], 0, 0, 1, {"operator"}));
  }

  lemma SlowWorkerSends()
    ensures Run(Auto, OVERTAKEN[..3]) == System(RELEASED, [Returned(true, None)], 1, 1, 1, {"operator"})
  {
    Released();
    OneFurther(Auto, OVERTAKEN, 2, System(RELEASED, [Holding], 0, 0, 1, {"operator"}), OVERTAKEN[2],
               System(RELEASED, [Returned(true, None)], 1, 1, 1, {"operator"}));
  }

  lemma ClaimedTwice()
    ensures Run(Auto, OVERTAKEN[..4])
         == System(CLAIMED_AGAIN, [Returned(true, None), Holding], 1, 1, 1, {"operator"})
  {
    SlowWorkerSends();
    OneFurther(Auto, OVERTAKEN, 3, System(RELEASED, [Returned(true, None)], 1, 1, 1, {"operator"}), OVERTAKEN[3],
               System(CLAIMED_AGAIN, [Returned(true, None), Holding], 1, 1, 1, {"operator"}));
  }

  /** A truthful "not sent" about a stale claim is not enough: its slow worker
      still sends, and the recipient gets the message twice. */
  lemma TruthIsNotEnough()
    ensures Run(Auto, OVERTAKEN).deliveries == 2
    ensures Resolves(Run(Auto, OVERTAKEN[..1]), OVERTAKEN[1]) && Run(Auto, OVERTAKEN[..1]).deliveries == 0
  {
    Released();
    ClaimedTwice();
    OneFurther(Auto, OVERTAKEN, 4, System(CLAIMED_AGAIN, [Returned(true, None), Holding], 1, 1, 1, {"operator"}),
               OVERTAKEN[4],
               System(CLAIMED_AGAIN, [Returned(true, None), Returned(true, None)], 2, 2, 1, {"operator"}));
    assert OVERTAKEN[..5] == OVERTAKEN;
  }
}

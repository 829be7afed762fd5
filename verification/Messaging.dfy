/** The outbound message relay: the row of one message, the transactions on it,
    and any number of dispatch workers interleaved with operators and crashes. */
module Messaging {
  import opened Common

  datatype Tier = Auto | Gated

  datatype Status = Queued | Approved | Rejected | Sending | Sent | Failed

  datatype Outcome = ConfirmedSent | ConfirmedNotSent

  datatype Message = Message(
    tier: Tier,
    status: Status,
    approvedBy: Option<string>,
    approvedAt: Option<int>,
    rejectedReason: Option<string>,
    dispatchStartedAt: Option<int>,
    sentAt: Option<int>,
    transportMessageId: Option<string>,
    failedReason: Option<string>,
    resolution: Option<Outcome>,
    evidence: Option<string>,
    resolvedBy: Option<string>,
    resolvedAt: Option<int>)

  datatype Refusal = NotFound | Conflict | Forbidden | BadRequest

  const STALE_MS: int := 15 * 60 * 1000

  // ----- Submission -----

  /** What the relay knows of the vendor and of the request. */
  datatype Submission = Submission(
    vendorFound: bool,
    blacklisted: bool,
    recipientVerified: bool,
    allowlistedTemplate: bool,
    templateResolves: bool,
    subject: Option<string>,
    body: Option<string>)

  datatype Submitted = Refused(why: Refusal) | Created(message: Message)

  function Fresh(tier: Tier): Message {
    Message(tier, Queued, None, None, None, None, None, None, None, None, None, None, None)
  }

  predicate HasText(s: Option<string>) {
    s.Some? && s.value != ""
  }

  function Submit(s: Submission): Submitted {
    if !s.vendorFound then Refused(NotFound)
    else if s.blacklisted || !s.recipientVerified then Refused(Forbidden)
    else if s.allowlistedTemplate then
      if s.subject.Some? || s.body.Some? || !s.templateResolves then Refused(BadRequest) else Created(Fresh(Auto))
    else if !HasText(s.subject) || !HasText(s.body) then Refused(BadRequest)
    else Created(Fresh(Gated))
  }

  /** Callers cannot put their own words into the automatic tier, and whatever is
      created starts queued, undecided and unsent, for a verified recipient. */
  lemma TierIsDerived(s: Submission)
    ensures Submit(s) == Created(Fresh(Auto))
       <==> s.vendorFound && !s.blacklisted && s.recipientVerified
            && s.allowlistedTemplate && s.templateResolves && s.subject.None? && s.body.None?
    ensures Submit(s) == Created(Fresh(Gated))
       <==> s.vendorFound && !s.blacklisted && s.recipientVerified
            && !s.allowlistedTemplate && s.subject.Some? && s.subject.value != "" && s.body.Some? && s.body.value != ""
    ensures Submit(s).Created? ==> Submit(s).message == Fresh(Auto) || Submit(s).message == Fresh(Gated)
    ensures Submit(s) == Refused(NotFound) <==> !s.vendorFound
    ensures Submit(s) == Refused(Forbidden) <==> s.vendorFound && (s.blacklisted || !s.recipientVerified)
    ensures Submit(s).Refused? ==> Submit(s).why in {NotFound, Forbidden, BadRequest}
  {
  }

  // ----- Transactions on the row -----

  /** The claim guard: durable, authorized, and no unresolved earlier attempt. */
  predicate Staged(m: Message) {
    m.dispatchStartedAt.None? && m.sentAt.None? && m.transportMessageId.None?
    && ((m.status == Queued && m.tier == Auto)
        || (m.status == Approved && m.approvedBy.Some? && m.approvedAt.Some?))
    && (m.resolution.None?
        || (m.resolution == Some(ConfirmedNotSent) && m.evidence.Some? && m.resolvedBy.Some? && m.resolvedAt.Some?))
  }

  predicate IsStaleSending(m: Message, now: int) {
    m.status == Sending && (m.dispatchStartedAt.None? || m.dispatchStartedAt.value <= now - STALE_MS)
  }

  function ApproveRow(m: Message, actor: string, now: int): Message {
    if m.status != Queued then m else m.(status := Approved, approvedBy := Some(actor), approvedAt := Some(now))
  }

  function RejectRow(m: Message, actor: string, reason: Option<string>, now: int): Message {
    if m.status != Queued then m
    else m.(status := Rejected, approvedBy := Some(actor), approvedAt := Some(now), rejectedReason := reason)
  }

  /** The gate of a delivery resolution, if it refuses. */
  function ResolutionGate(m: Message, resolver: string, now: int): Option<Refusal> {
    if m.status != Failed && !IsStaleSending(m, now) then Some(Conflict)
    else if m.approvedBy == Some(resolver) then Some(Forbidden)
    else None
  }

  function ResolveRow(m: Message, resolver: string, outcome: Outcome, evidence: string, now: int): Message {
    if ResolutionGate(m, resolver, now).Some? then m
    else
      var resolved := m.(
        status := if outcome == ConfirmedSent then Sent else if m.tier == Auto then Queued else Approved,
        resolution := Some(outcome), evidence := Some(evidence), resolvedBy := Some(resolver), resolvedAt := Some(now));
      if outcome == ConfirmedNotSent then resolved.(dispatchStartedAt := None) else resolved.(sentAt := Some(now))
  }

  predicate CanClaim(m: Message, expected: Status) {
    Staged(m) && m.status == expected
  }

  /** What the claim transaction finds when it reads content and vendor again. */
  datatype DispatchCheck = DispatchCheck(
    hashMatches: bool,
    vendorFound: bool,
    blacklisted: bool,
    recipientVerified: bool,
    templateRefusal: Option<string>)

  const CLEAR: DispatchCheck := DispatchCheck(true, true, false, true, None)

  /** The first reason not to send; templates only matter to the automatic tier. */
  function BlockReason(tier: Tier, c: DispatchCheck): Option<string> {
    if !c.hashMatches then Some("Message content no longer matches its canonical body hash")
    else if !c.vendorFound then Some("Message vendor no longer exists")
    else if c.blacklisted then Some("Message vendor is blacklisted at dispatch")
    else if !c.recipientVerified then Some("Message recipient is no longer a verified vendor contact")
    else if tier == Auto then c.templateRefusal
    else None
  }

  /** The claim transaction; the dispatch checks may fail it on the spot. */
  function ClaimRow(m: Message, expected: Status, check: DispatchCheck, now: int): Message {
    if !CanClaim(m, expected) then m
    else
      var blocked := BlockReason(m.tier, check);
      m.(status := if blocked.Some? then Failed else Sending, dispatchStartedAt := Some(now), failedReason := blocked)
  }

  function RecordSentRow(m: Message, receipt: Option<string>, now: int): Message {
    if m.status != Sending then m else m.(status := Sent, sentAt := Some(now), transportMessageId := receipt)
  }

  function RecordFailedRow(m: Message, reason: string): Message {
    if m.status != Sending then m else m.(status := Failed, failedReason := Some(reason))
  }

  function Dispatched(m: Message, expected: Status, check: DispatchCheck, answer: Worker, reason: string, now: int)
    : Message
    requires answer.Returned?
  {
    var claimed := ClaimRow(m, expected, check, now);
    if !CanClaim(m, expected) || BlockReason(m.tier, check).Some? then claimed
    else if answer.ok then RecordSentRow(claimed, answer.receipt, now)
    else RecordFailedRow(claimed, reason)
  }

  // ----- Workers, operators and crashes, interleaved -----

  /** A worker holds its claim until it calls the transport, then holds the
      transport's answer until it records it. */
  datatype Worker = Holding | Returned(ok: bool, receipt: Option<string>) | Gone

  /** `delivered` is what the provider really did, whatever it answered. */
  datatype Event =
    | Approve(actor: string, now: int)
    | Reject(actor: string, reason: Option<string>, now: int)
    | Resolve(resolver: string, outcome: Outcome, evidence: string, now: int)
    | Claim(expected: Status, check: DispatchCheck, now: int)
    | Send(worker: nat, delivered: bool, ok: bool, receipt: Option<string>)
    | RecordSent(worker: nat, now: int)
    | RecordFailed(worker: nat, error: string)
    | Crash(worker: nat)

  /** `sends`, `deliveries`, `notSent` and `resolvers` count what happened. */
  datatype System = System(
    message: Message,
    workers: seq<Worker>,
    sends: nat,
    deliveries: nat,
    notSent: nat,
    resolvers: set<string>)

  predicate Resolves(s: System, e: Event) {
    e.Resolve? && ResolutionGate(s.message, e.resolver, e.now).None?
  }

  /** The claim succeeds, so one more worker may contact the transport. */
  predicate Claims(s: System, e: Event) {
    e.Claim? && CanClaim(s.message, e.expected) && BlockReason(s.message.tier, e.check).None?
  }

  /** An event that is not enabled changes nothing. */
  function Step(s: System, e: Event): System {
    match e
    case Approve(actor, now) => s.(message := ApproveRow(s.message, actor, now))
    case Reject(actor, reason, now) => s.(message := RejectRow(s.message, actor, reason, now))
    case Resolve(resolver, outcome, evidence, now) =>
      if !Resolves(s, e) then s
      else s.(message := ResolveRow(s.message, resolver, outcome, evidence, now),
              notSent := if outcome == ConfirmedNotSent then s.notSent + 1 else s.notSent,
              resolvers := s.resolvers + {resolver})
    case Claim(expected, check, now) =>
      if !CanClaim(s.message, expected) then s
      else s.(message := ClaimRow(s.message, expected, check, now),
              workers := if BlockReason(s.message.tier, check).Some? then s.workers else s.workers + [Holding])
    case Send(w, delivered, ok, receipt) =>
      if w >= |s.workers| || s.workers[w] != Holding then s
      else s.(workers := s.workers[w := Returned(ok, receipt)], sends := s.sends + 1,
              deliveries := if delivered then s.deliveries + 1 else s.deliveries)
    case RecordSent(w, now) =>
      if w >= |s.workers| || !s.workers[w].Returned? || !s.workers[w].ok then s
      else s.(message := RecordSentRow(s.message, s.workers[w].receipt, now), workers := s.workers[w := Gone])
    case RecordFailed(w, reason) =>
      if w >= |s.workers| || !s.workers[w].Returned? then s
      else s.(message := RecordFailedRow(s.message, reason), workers := s.workers[w := Gone])
    case Crash(w) => if w >= |s.workers| then s else s.(workers := s.workers[w := Gone])
  }

  function Start(tier: Tier): System {
    System(Fresh(tier), [], 0, 0, 0, {})
  }

  function Run(tier: Tier, events: seq<Event>): System {
    if |events| == 0 then Start(tier) else Step(Run(tier, events[..|events| - 1]), events[|events| - 1])
  }

  // ----- Sends -----

  /** Workers that hold a claim and may still contact the transport. */
  function Pending(workers: seq<Worker>): nat {
    if |workers| == 0 then 0
    else Pending(workers[..|workers| - 1]) + (if workers[|workers| - 1] == Holding then 1 else 0)
  }

  lemma {:induction false} PendingUpdate(workers: seq<Worker>, w: nat, x: Worker)
    requires w < |workers|
    ensures Pending(workers[w := x])
         == Pending(workers) - (if workers[w] == Holding then 1 else 0) + (if x == Holding then 1 else 0)
  {
    var n := |workers| - 1;
    if w == n {
      assert workers[w := x][..n] == workers[..n];
    } else {
      PendingUpdate(workers[..n], w, x);
      assert workers[w := x][..n] == workers[..n][w := x];
    }
  }

  lemma PendingMore(workers: seq<Worker>, x: Worker)
    ensures Pending(workers + [x]) == Pending(workers) + (if x == Holding then 1 else 0)
  {
    assert (workers + [x])[..|workers|] == workers;
  }

  /** Sends so far and sends still possible: one per staged attempt, and only a
      resolution that says "not sent" stages another. */
  predicate SendsBounded(s: System) {
    s.sends + Pending(s.workers) <= s.notSent + (if s.message.dispatchStartedAt.None? then 0 else 1)
  }

  /** The row itself: how far it got decides which fields are set. */
  predicate RowOk(s: System) {
    var m := s.message;
    (m.status == Sending || m.status == Failed ==> m.dispatchStartedAt.Some?)
    && (m.status == Sent ==> m.sentAt.Some?)
    && (m.tier == Gated ==>
          (m.status != Queued ==> m.approvedBy.Some?)
          && (m.status == Queued || m.status == Rejected ==>
                s.sends == 0 && Pending(s.workers) == 0 && s.resolvers == {} && m.dispatchStartedAt.None?)
          && (m.approvedBy.Some? ==> m.approvedBy.value !in s.resolvers))
  }

  predicate SystemOk(s: System) {
    SendsBounded(s) && RowOk(s)
  }

  lemma WorkerFacts(s: System, e: Event)
    ensures var after := Step(s, e);
            Pending(after.workers) + after.sends
            == Pending(s.workers) + s.sends
               + (if Claims(s, e) then 1 else 0)
               - (if e.Crash? && e.worker < |s.workers| && s.workers[e.worker] == Holding then 1 else 0)
  {
    match e
    case Claim(_, _, _) => PendingMore(s.workers, Holding);
    case Send(w, _, ok, receipt) =>
      if w < |s.workers| {
        PendingUpdate(s.workers, w, Returned(ok, receipt));
      }
    case RecordSent(w, _) =>
      if w < |s.workers| {
        PendingUpdate(s.workers, w, Gone);
      }
    case RecordFailed(w, _) =>
      if w < |s.workers| {
        PendingUpdate(s.workers, w, Gone);
      }
    case Crash(w) =>
      if w < |s.workers| {
        PendingUpdate(s.workers, w, Gone);
      }
    case _ =>
  }

  lemma StepKeepsBound(s: System, e: Event)
    requires SystemOk(s)
    ensures SendsBounded(Step(s, e))
  {
    WorkerFacts(s, e);
  }

  lemma StepKeepsRow(s: System, e: Event)
    requires SystemOk(s)
    ensures RowOk(Step(s, e)) && Step(s, e).message.tier == s.message.tier
  {
    WorkerFacts(s, e);
  }

  lemma StepKeepsOk(s: System, e: Event)
    requires SystemOk(s)
    ensures SystemOk(Step(s, e)) && Step(s, e).message.tier == s.message.tier
  {
    StepKeepsBound(s, e);
    StepKeepsRow(s, e);
  }

  lemma {:induction false} RunKeepsOk(tier: Tier, events: seq<Event>)
    ensures SystemOk(Run(tier, events)) && Run(tier, events).message.tier == tier
  {
    if |events| > 0 {
      RunKeepsOk(tier, events[..|events| - 1]);
      StepKeepsOk(Run(tier, events[..|events| - 1]), events[|events| - 1]);
    }
  }

  /** Across all interleavings and crashes, the transport is contacted at most
      once more often than operators confirmed "not sent". */
  lemma SendsAtMost(tier: Tier, events: seq<Event>)
    ensures var s := Run(tier, events); s.sends <= 1 + s.notSent
  {
    RunKeepsOk(tier, events);
  }

  /** A gated message is only sent with a recorded approver, that approver never
      resolves its delivery, and a rejected one was never sent. */
  lemma GatedNeedsApprover(events: seq<Event>)
    ensures var s := Run(Gated, events);
            (s.sends > 0 ==> s.message.approvedBy.Some? && s.message.approvedBy.value !in s.resolvers)
            && (s.message.status == Rejected ==> s.sends == 0)
  {
    RunKeepsOk(Gated, events);
  }

  /** `Sent` and `Rejected` are final, whatever happens next. */
  lemma {:induction false} FinalForEver(tier: Tier, events: seq<Event>, more: seq<Event>)
    requires Run(tier, events).message.status == Sent || Run(tier, events).message.status == Rejected
    ensures Run(tier, events + more).message == Run(tier, events).message
    decreases |more|
  {
    if |more| == 0 {
      assert events + more == events;
    } else {
      var k := |more| - 1;
      FinalForEver(tier, events, more[..k]);
      assert (events + more)[..|events + more| - 1] == events + more[..k];
    }
  }

  // ----- Approver and resolver of an automatic message -----

  predicate ApproverIsNoResolver(s: System) {
    s.message.approvedBy.Some? ==> s.message.approvedBy.value !in s.resolvers
  }

  /** Separation fails in exactly one way: somebody who already resolved a delivery
      decides the requeued message. */
  lemma SeparationExactly(s: System, e: Event)
    requires ApproverIsNoResolver(s)
    ensures ApproverIsNoResolver(Step(s, e))
       <==> !((e.Approve? || e.Reject?) && s.message.status == Queued && e.actor in s.resolvers)
  {
  }

  lemma Replayed(tier: Tier, events: seq<Event>, e: Event)
    ensures Run(tier, events + [e]) == Step(Run(tier, events), e)
  {
    assert (events + [e])[..|events|] == events;
  }

  /** Caller prose is only ever sent after a human approved it, and that human does
      not resolve its delivery: a submission with a subject or a body that is
      accepted needs an approver in every run before the transport is contacted. */
  lemma CallerProseNeedsApproval(s: Submission, events: seq<Event>)
    requires Submit(s).Created? && (s.subject.Some? || s.body.Some?)
    ensures var run := Run(Submit(s).message.tier, events);
            Start(Submit(s).message.tier).message == Submit(s).message
            && (run.sends > 0 ==>
                  run.message.approvedBy.Some? && run.message.approvedBy.value !in run.resolvers)
  {
    TierIsDerived(s);
    GatedNeedsApprover(events);
  }

  // ----- One stored message -----

  /** How a worker records the transport's answer. */
  function Recorded(w: nat, answer: Worker, reason: string, now: int): Event
    requires answer.Returned?
  {
    if answer.ok then RecordSent(w, now) else RecordFailed(w, reason)
  }

  /** A claim contacts nobody; one that goes through adds a worker. */
  lemma Claimed(tier: Tier, events: seq<Event>, expected: Status, check: DispatchCheck, now: int)
    ensures var s, after := Run(tier, events), Run(tier, events + [Claim(expected, check, now)]);
            after.sends == s.sends
            && (CanClaim(s.message, expected) && BlockReason(s.message.tier, check).None? ==>
                  after.workers == s.workers + [Holding])
  {
    Replayed(tier, events, Claim(expected, check, now));
  }

  /** A worker that holds its claim sends once and records the answer. */
  lemma Answered(tier: Tier, events: seq<Event>, w: nat, delivered: bool, answer: Worker, reason: string, now: int)
    requires answer.Returned? && w < |Run(tier, events).workers| && Run(tier, events).workers[w] == Holding
    ensures var s := Run(tier, events);
            var after := Run(tier, events + [Send(w, delivered, answer.ok, answer.receipt)]
                                          + [Recorded(w, answer, reason, now)]);
            after.sends == s.sends + 1
            && after.message == if answer.ok then RecordSentRow(s.message, answer.receipt, now)
                                else RecordFailedRow(s.message, reason)
  {
    var sent := Send(w, delivered, answer.ok, answer.receipt);
    Replayed(tier, events, sent);
    Replayed(tier, events + [sent], Recorded(w, answer, reason, now));
  }

  /** The row with the services' transactions on it. The message is always what the
      recorded events made of a fresh one, so the theorems about runs apply. */
  class MessageStore {
    var message: Message
    ghost var events: seq<Event>

    ghost function History(): System
      reads this
    {
      Run(message.tier, events)
    }

    ghost predicate Valid()
      reads this
    {
      message == History().message
    }

    constructor (tier: Tier)
      ensures Valid() && message == Fresh(tier) && events == []
    {
      message := Fresh(tier);
      events := [];
    }

    method Approve(actor: string, now: int) returns (refused: Option<Refusal>)
      requires Valid()
      modifies this
      ensures Valid() && events == old(events) + [Event.Approve(actor, now)]
      ensures message == ApproveRow(old(message), actor, now)
      ensures refused == if old(message).status == Queued then None else Some(Conflict)
    {
      Replayed(message.tier, events, Event.Approve(actor, now));
      events := events + [Event.Approve(actor, now)];
      if message.status == Queued {
        message := message.(status := Approved, approvedBy := Some(actor), approvedAt := Some(now));
        refused := None;
      } else {
        refused := Some(Conflict);
      }
    }

    method Reject(actor: string, reason: Option<string>, now: int) returns (refused: Option<Refusal>)
      requires Valid()
      modifies this
      ensures Valid() && events == old(events) + [Event.Reject(actor, reason, now)]
      ensures message == RejectRow(old(message), actor, reason, now)
      ensures refused == if old(message).status == Queued then None else Some(Conflict)
    {
      Replayed(message.tier, events, Event.Reject(actor, reason, now));
      events := events + [Event.Reject(actor, reason, now)];
      if message.status == Queued {
        message := message.(status := Rejected, approvedBy := Some(actor), approvedAt := Some(now),
            rejectedReason := reason);
        refused := None;
      } else {
        refused := Some(Conflict);
      }
    }

    method ResolveFailedDelivery(resolver: string, outcome: Outcome, evidence: string, now: int)
      returns (refused: Option<Refusal>)
      requires Valid()
      modifies this
      ensures Valid() && events == old(events) + [Resolve(resolver, outcome, evidence, now)]
      ensures message == ResolveRow(old(message), resolver, outcome, evidence, now)
      ensures refused == ResolutionGate(old(message), resolver, now)
    {
      Replayed(message.tier, events, Resolve(resolver, outcome, evidence, now));
      events := events + [Resolve(resolver, outcome, evidence, now)];
      if message.status != Failed && !IsStaleSending(message, now) {
        return Some(Conflict);
      }
      if message.approvedBy == Some(resolver) {
        return Some(Forbidden);
      }
      var next := if outcome == ConfirmedSent then Sent else if message.tier == Auto then Queued else Approved;
      message := message.(status := next, resolution := Some(outcome), evidence := Some(evidence),
                          resolvedBy := Some(resolver), resolvedAt := Some(now));
      if outcome == ConfirmedNotSent {
        message := message.(dispatchStartedAt := None);
      } else {
        message := message.(sentAt := Some(now));
      }
      return None;
    }

    /** Returns whether the caller may contact the transport. */
    method Claim(expected: Status, check: DispatchCheck, now: int) returns (claimed: bool)
      requires Valid()
      modifies this
      ensures Valid() && events == old(events) + [Event.Claim(expected, check, now)]
      ensures message == ClaimRow(old(message), expected, check, now)
      ensures claimed <==> CanClaim(old(message), expected) && BlockReason(old(message).tier, check).None?
    {
      Replayed(message.tier, events, Event.Claim(expected, check, now));
      events := events + [Event.Claim(expected, check, now)];
      if !Staged(message) || message.status != expected {
        return false;
      }
      message := message.(status := Sending, dispatchStartedAt := Some(now), failedReason := None);
      var blocked := BlockReason(message.tier, check);
      if blocked.Some? {
        message := message.(status := Failed, failedReason := blocked);
        return false;
      }
      return true;
    }

    /** One undisturbed dispatch: claim, transport, outcome. `answer` is what the
        transport would say, `delivered` what the provider really did. */
    method ClaimAndDispatch(expected: Status, check: DispatchCheck, answer: Worker, ghost delivered: bool,
                            reason: string, now: int)
      returns (contacted: bool)
      requires Valid() && answer.Returned?
      modifies this
      ensures Valid() && old(events) < events
      ensures contacted <==> CanClaim(old(message), expected) && BlockReason(old(message).tier, check).None?
      ensures message == Dispatched(old(message), expected, check, answer, reason, now)
      ensures History().sends == old(History().sends) + (if contacted then 1 else 0)
    {
      ghost var w := |History().workers|;
      Claimed(message.tier, events, expected, check, now);
      contacted := Claim(expected, check, now);
      if contacted {
        Answered(message.tier, events, w, delivered, answer, reason, now);
        events := events + [Send(w, delivered, answer.ok, answer.receipt)] + [Recorded(w, answer, reason, now)];
        if answer.ok {
          message := message.(status := Sent, sentAt := Some(now), transportMessageId := answer.receipt);
        } else {
          message := message.(status := Failed, failedReason := Some(reason));
        }
      }
    }

    /** An operator-authorized redispatch: only after a "not sent" resolution. */
    method ReleaseRecovered(check: DispatchCheck, answer: Worker, ghost delivered: bool, reason: string, now: int)
      returns (contacted: bool)
      requires Valid() && answer.Returned?
      modifies this
      ensures Valid()
      ensures old(message).resolution != Some(ConfirmedNotSent) ==> message == old(message) && !contacted
      ensures old(message).resolution == Some(ConfirmedNotSent) ==>
                var expected := if old(message).tier == Auto then Queued else Approved;
                message == Dispatched(old(message), expected, check, answer, reason, now)
                && (contacted <==> CanClaim(old(message), expected) && BlockReason(old(message).tier, check).None?)
    {
      if message.resolution != Some(ConfirmedNotSent) {
        return false;
      }
      var expected := if message.tier == Auto then Queued else Approved;
      contacted := ClaimAndDispatch(expected, check, answer, delivered, reason, now);
    }
  }
}

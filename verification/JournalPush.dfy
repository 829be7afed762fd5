/** The QuickBooks push of journal exports: claim, POST, settlement and manual
    acknowledgement, with any callers and crashes. */
module JournalPush {
  import opened Common

  datatype Status = Exported | Posted | Rejected

  /** One export; its identifier is its row index. */
  datatype Export = Export(
    run: nat,
    status: Status,
    claim: Option<nat>,
    claimedBy: Option<string>,
    failure: Option<string>,
    externalRef: Option<string>,
    rejectedReason: Option<string>,
    resolvedBy: Option<string>)

  datatype Refusal = NotFound | Conflict

  /** The ERP's verdict: posted, or else rejected. */
  datatype Acknowledgement = Acknowledgement(
    posted: bool,
    externalRef: Option<string>,
    rejectedReason: Option<string>,
    resolveClaim: bool)

  predicate IsSet(s: Option<string>) {
    s.Some? && s.value != ""
  }

  // ----- Transactions on the table -----

  predicate HasExport(rows: seq<Export>, run: nat) {
    exists i :: 0 <= i < |rows| && rows[i].run == run
  }

  /** Exporting a run again returns the row that is there. */
  function ExportRow(rows: seq<Export>, run: nat): seq<Export> {
    if HasExport(rows, run) then rows
    else rows + [Export(run, Exported, None, None, None, None, None, None)]
  }

  /** `intact`: the stored artifact, or the rebuilt one, still has the stored hash;
      it is verified before a claim is taken. */
  function PrepareGate(rows: seq<Export>, x: nat, intact: bool): Option<Refusal> {
    if x >= |rows| then Some(NotFound)
    else if !intact then Some(Conflict)
    else if rows[x].status != Exported || rows[x].claim.Some? then Some(Conflict)
    else None
  }

  /** `claim` is a fresh identifier. */
  function PrepareRow(rows: seq<Export>, x: nat, intact: bool, claim: nat, actor: string): seq<Export> {
    if PrepareGate(rows, x, intact).Some? then rows
    else rows[x := rows[x].(claim := Some(claim), claimedBy := Some(actor), failure := None)]
  }

  predicate ClaimIsCurrent(rows: seq<Export>, x: nat, claim: nat) {
    x < |rows| && rows[x].status == Exported && rows[x].claim == Some(claim)
  }

  function MarkFailedRow(rows: seq<Export>, x: nat, claim: nat, reason: string): seq<Export> {
    if !ClaimIsCurrent(rows, x, claim) then rows
    else rows[x := rows[x].(failure := Some(if |reason| > 500 then reason[..500] else reason))]
  }

  function CompleteRow(rows: seq<Export>, x: nat, claim: nat, externalRef: string): seq<Export> {
    if !ClaimIsCurrent(rows, x, claim) then rows
    else rows[x := rows[x].(status := Posted, externalRef := Some(externalRef), rejectedReason := None,
        failure := None)]
  }

  function AcknowledgeGate(rows: seq<Export>, x: nat, a: Acknowledgement, actor: string): Option<Refusal> {
    if x >= |rows| then Some(NotFound)
    else
      var row := rows[x];
      if row.status != Exported then Some(Conflict)
      else if row.claim.Some? && !a.resolveClaim then Some(Conflict)
      else if row.claim.Some? && row.claimedBy == Some(actor) then Some(Conflict)
      else if row.claim.Some? && a.posted && !IsSet(a.externalRef) then Some(Conflict)
      else if !a.posted && !IsSet(a.rejectedReason) then Some(Conflict)
      else None
  }

  function AcknowledgeRow(rows: seq<Export>, x: nat, a: Acknowledgement, actor: string): seq<Export> {
    if AcknowledgeGate(rows, x, a, actor).Some? then rows
    else rows[x := rows[x].(
                status := if a.posted then Posted else Rejected,
                externalRef := a.externalRef,
                rejectedReason := if a.posted then None else a.rejectedReason,
                resolvedBy := if rows[x].claim.Some? then Some(actor) else rows[x].resolvedBy)]
  }

  // ----- Callers and crashes, interleaved -----

  datatype Phase = Holding | Answered | Gone

  /** Worker `w` took claim `w`; `answer` is the entry QuickBooks returned. */
  datatype Worker = Worker(export_: nat, phase: Phase, answer: Option<string>)

  datatype Event =
    | ExportRun(run: nat)
    | Prepare(x: nat, intact: bool, actor: string)
    | Post(worker: nat, answer: Option<string>)
    | MarkFailed(worker: nat, reason: string)
    | Complete(worker: nat)
    | Acknowledge(x: nat, a: Acknowledgement, actor: string)
    | Crash(worker: nat)

  /** `posts` lists the export of every journal POST made. */
  datatype System = System(rows: seq<Export>, workers: seq<Worker>, posts: seq<nat>)

  predicate InPhase(s: System, w: nat, p: Phase) {
    w < |s.workers| && s.workers[w].phase == p
  }

  function Step(s: System, e: Event): System {
    match e
    case ExportRun(run) => s.(rows := ExportRow(s.rows, run))
    case Prepare(x, intact, actor) =>
      if PrepareGate(s.rows, x, intact).Some? then s
      else s.(rows := PrepareRow(s.rows, x, intact, |s.workers|, actor),
              workers := s.workers + [Worker(x, Holding, None)])
    case Post(w, answer) =>
      if !InPhase(s, w, Holding) then s
      else s.(workers := s.workers[w := Worker(s.workers[w].export_, Answered, answer)],
              posts := s.posts + [s.workers[w].export_])
    case MarkFailed(w, reason) =>
      if !InPhase(s, w, Answered) || s.workers[w].answer.Some? then s
      else s.(rows := MarkFailedRow(s.rows, s.workers[w].export_, w, reason),
              workers := s.workers[w := s.workers[w].(phase := Gone)])
    case Complete(w) =>
      if !InPhase(s, w, Answered) || s.workers[w].answer.None? then s
      else s.(rows := CompleteRow(s.rows, s.workers[w].export_, w, s.workers[w].answer.value),
              workers := s.workers[w := s.workers[w].(phase := Gone)])
    case Acknowledge(x, a, actor) =>
      s.(rows := AcknowledgeRow(s.rows, x, a, actor))
    case Crash(w) =>
      if w >= |s.workers| then s else s.(workers := s.workers[w := s.workers[w].(phase := Gone)])
  }

  const START: System := System([], [], [])

  function Run(events: seq<Event>): System {
    if |events| == 0 then START else Step(Run(events[..|events| - 1]), events[|events| - 1])
  }

  // ----- What every run keeps -----

  predicate RunsUnique(rows: seq<Export>) {
    forall i, j :: 0 <= i < j < |rows| ==> rows[i].run != rows[j].run
  }

  predicate RowOk(row: Export) {
    (row.claim.Some? <==> row.claimedBy.Some?)
    && (row.resolvedBy.Some? ==> row.claimedBy.Some? && row.resolvedBy != row.claimedBy)
    && (row.status == Exported ==> row.resolvedBy.None?)
    && (row.status == Rejected ==> IsSet(row.rejectedReason))
  }

  /** A worker's export carries the worker's claim; nobody else holds it. */
  predicate WorkerOk(s: System, w: nat)
    requires w < |s.workers|
  {
    s.workers[w].export_ < |s.rows| && s.rows[s.workers[w].export_].claim == Some(w)
    && (s.workers[w].phase == Holding ==> s.workers[w].export_ !in s.posts)
  }

  predicate PostOk(s: System, k: nat)
    requires k < |s.posts|
  {
    s.posts[k] < |s.rows| && s.rows[s.posts[k]].claim.Some?
    && forall j :: 0 <= j < k ==> s.posts[j] != s.posts[k]
  }

  /** An export settled by its own push carries the entry that push returned. */
  predicate SettledByPush(s: System, x: nat)
    requires x < |s.rows|
  {
    var row := s.rows[x];
    row.status == Posted && row.claim.Some? && row.resolvedBy.None? ==>
      row.claim.value < |s.workers| && s.workers[row.claim.value].export_ == x
      && row.externalRef.Some? && s.workers[row.claim.value].answer == row.externalRef
      && x in s.posts
  }

  predicate SystemOk(s: System) {
    RunsUnique(s.rows)
    && (forall x :: 0 <= x < |s.rows| ==> RowOk(s.rows[x]))
    && (forall w :: 0 <= w < |s.workers| ==> WorkerOk(s, w))
    && (forall k :: 0 <= k < |s.posts| ==> PostOk(s, k))
    && (forall x :: 0 <= x < |s.rows| ==> SettledByPush(s, x))
    && (forall w :: 0 <= w < |s.workers| && s.workers[w].phase == Answered ==> s.workers[w].export_ in s.posts)
  }

  lemma ExportKeepsOk(s: System, run: nat)
    requires SystemOk(s)
    ensures SystemOk(Step(s, ExportRun(run)))
  {
    var after := Step(s, ExportRun(run));
    forall w | 0 <= w < |after.workers| ensures WorkerOk(after, w) {
      assert WorkerOk(s, w);
    }
    forall k | 0 <= k < |after.posts| ensures PostOk(after, k) {
      assert PostOk(s, k);
    }
    forall x | 0 <= x < |after.rows| ensures SettledByPush(after, x) {
      if x < |s.rows| {
        assert SettledByPush(s, x);
      }
    }
  }

  lemma PrepareKeepsOk(s: System, x: nat, intact: bool, actor: string)
    requires SystemOk(s)
    ensures SystemOk(Step(s, Prepare(x, intact, actor)))
  {
    var after := Step(s, Prepare(x, intact, actor));
    if PrepareGate(s.rows, x, intact).None? {
      forall k | 0 <= k < |after.posts| ensures PostOk(after, k) && after.posts[k] != x {
        assert PostOk(s, k);
      }
      forall w | 0 <= w < |after.workers| ensures WorkerOk(after, w) {
        if w < |s.workers| {
          assert WorkerOk(s, w);
        }
      }
      forall y | 0 <= y < |after.rows| ensures SettledByPush(after, y) && RowOk(after.rows[y]) {
        assert SettledByPush(s, y) && RowOk(s.rows[y]);
      }
    }
  }

  lemma PostKeepsOk(s: System, w: nat, answer: Option<string>)
    requires SystemOk(s)
    ensures SystemOk(Step(s, Post(w, answer)))
  {
    var after := Step(s, Post(w, answer));
    if InPhase(s, w, Holding) {
      var x := s.workers[w].export_;
      assert WorkerOk(s, w);
      forall k | 0 <= k < |after.posts| ensures PostOk(after, k) {
        if k < |s.posts| {
          assert PostOk(s, k);
        }
      }
      forall v | 0 <= v < |after.workers| ensures WorkerOk(after, v) {
        assert WorkerOk(s, v);
      }
      forall y | 0 <= y < |after.rows| ensures SettledByPush(after, y) {
        assert SettledByPush(s, y);
      }
      assert after.posts[|s.posts|] == x;
      forall v | 0 <= v < |after.workers| && after.workers[v].phase == Answered
        ensures after.workers[v].export_ in after.posts
      {
        if v != w {
          assert s.workers[v].export_ in s.posts;
        }
      }
    }
  }

  /** The parts of the state that settlements leave alone. */
  predicate SameClaims(s: System, after: System) {
    |after.rows| == |s.rows| && |after.workers| == |s.workers| && after.posts == s.posts
    && (forall x :: 0 <= x < |s.rows| ==>
          after.rows[x].run == s.rows[x].run && after.rows[x].claim == s.rows[x].claim
          && after.rows[x].claimedBy == s.rows[x].claimedBy)
    && (forall w :: 0 <= w < |s.workers| ==>
          after.workers[w] == s.workers[w].(phase := after.workers[w].phase)
          && (after.workers[w].phase == s.workers[w].phase || after.workers[w].phase == Gone))
  }

  lemma SettlingKeepsOk(s: System, after: System)
    requires SystemOk(s) && SameClaims(s, after)
    requires forall x :: 0 <= x < |s.rows| ==> RowOk(after.rows[x]) && SettledByPush(after, x)
    ensures SystemOk(after)
  {
    forall k | 0 <= k < |after.posts| ensures PostOk(after, k) {
      assert PostOk(s, k);
    }
    forall w | 0 <= w < |after.workers| ensures WorkerOk(after, w) {
      assert WorkerOk(s, w);
    }
    forall w | 0 <= w < |after.workers| && after.workers[w].phase == Answered
      ensures after.workers[w].export_ in after.posts
    {
      assert s.workers[w].export_ in s.posts;
    }
  }

  lemma CompleteKeepsOk(s: System, w: nat)
    requires SystemOk(s)
    ensures SystemOk(Step(s, Complete(w)))
  {
    var after := Step(s, Complete(w));
    if InPhase(s, w, Answered) && s.workers[w].answer.Some? {
      assert WorkerOk(s, w);
      forall x | 0 <= x < |s.rows| ensures RowOk(after.rows[x]) && SettledByPush(after, x) {
        assert RowOk(s.rows[x]) && SettledByPush(s, x);
      }
      SettlingKeepsOk(s, after);
    }
  }

  lemma OthersKeepOk(s: System, e: Event)
    requires SystemOk(s) && (e.MarkFailed? || e.Crash? || e.Acknowledge?)
    ensures SystemOk(Step(s, e))
  {
    var after := Step(s, e);
    forall x | 0 <= x < |s.rows| ensures RowOk(after.rows[x]) && SettledByPush(after, x) {
      assert RowOk(s.rows[x]) && SettledByPush(s, x);
    }
    SettlingKeepsOk(s, after);
  }

  lemma StepKeepsOk(s: System, e: Event)
    requires SystemOk(s)
    ensures SystemOk(Step(s, e))
  {
    match e
    case ExportRun(run) => ExportKeepsOk(s, run);
    case Prepare(x, intact, actor) => PrepareKeepsOk(s, x, intact, actor);
    case Post(w, answer) => PostKeepsOk(s, w, answer);
    case Complete(w) => CompleteKeepsOk(s, w);
    case MarkFailed(_, _) => OthersKeepOk(s, e);
    case Acknowledge(_, _, _) => OthersKeepOk(s, e);
    case Crash(_) => OthersKeepOk(s, e);
  }

  lemma {:induction false} RunKeepsOk(events: seq<Event>)
    ensures SystemOk(Run(events))
  {
    if |events| > 0 {
      RunKeepsOk(events[..|events| - 1]);
      StepKeepsOk(Run(events[..|events| - 1]), events[|events| - 1]);
    }
  }

  /** Whatever the callers, crashes and acknowledgements: no two journal POSTs are
      for the same export, hence none for the same payment run. */
  lemma OnePostPerRun(events: seq<Event>, i: nat, j: nat)
    requires i < j < |Run(events).posts|
    ensures var s := Run(events);
            s.posts[i] < |s.rows| && s.posts[j] < |s.rows|
            && s.posts[i] != s.posts[j] && s.rows[s.posts[i]].run != s.rows[s.posts[j]].run
  {
    RunKeepsOk(events);
    assert PostOk(Run(events), i) && PostOk(Run(events), j);
  }

  /** Only a claimed export is ever posted. */
  lemma UnclaimedIsNeverPosted(events: seq<Event>, x: nat)
    requires x in Run(events).posts
    ensures x < |Run(events).rows| && Run(events).rows[x].claim.Some?
  {
    RunKeepsOk(events);
    var s := Run(events);
    var k :| 0 <= k < |s.posts| && s.posts[k] == x;
    assert PostOk(s, k);
  }

  /** Who resolves a claimed dispatch is never who claimed it, and an export its
      own push settled carries the entry that push returned. */
  lemma SettlementIsHonest(events: seq<Event>, x: nat)
    requires x < |Run(events).rows|
    ensures var s := Run(events);
            var row := s.rows[x];
            (row.resolvedBy.Some? ==> row.claim.Some? && row.resolvedBy != row.claimedBy)
            && (row.status == Posted && row.claim.Some? && row.resolvedBy.None? ==>
                  row.claim.value < |s.workers| && s.workers[row.claim.value].answer == row.externalRef
                  && row.externalRef.Some? && x in s.posts)
  {
    RunKeepsOk(events);
    assert RowOk(Run(events).rows[x]) && SettledByPush(Run(events), x);
  }

  lemma StepKeepsSettled(s: System, e: Event, x: nat)
    requires SystemOk(s) && x < |s.rows|
    ensures x < |Step(s, e).rows|
    ensures s.rows[x].status != Exported ==> Step(s, e).rows[x] == s.rows[x]
    ensures s.rows[x].claim.Some? ==>
              Step(s, e).rows[x].claim == s.rows[x].claim && Step(s, e).rows[x].claimedBy == s.rows[x].claimedBy
    ensures s.posts <= Step(s, e).posts
  {
  }

  /** An export leaves the exported state once and for all, and a claim is never
      cleared or handed over. */
  lemma {:induction false} SettledForEver(events: seq<Event>, more: seq<Event>, x: nat)
    requires x < |Run(events).rows|
    ensures var was, now := Run(events), Run(events + more);
            x < |now.rows|
            && (was.rows[x].status != Exported ==> now.rows[x] == was.rows[x])
            && (was.rows[x].claim.Some? ==>
                  now.rows[x].claim == was.rows[x].claim && now.rows[x].claimedBy == was.rows[x].claimedBy)
    decreases |more|
  {
    if |more| == 0 {
      assert events + more == events;
    } else {
      var k := |more| - 1;
      SettledForEver(events, more[..k], x);
      RunKeepsOk(events + more[..k]);
      StepKeepsSettled(Run(events + more[..k]), more[k], x);
      assert (events + more)[..|events + more| - 1] == events + more[..k];
    }
  }

  /** An export acknowledged without a claim never reaches QuickBooks, now or
      later. */
  lemma UnclaimedStaysUnposted(events: seq<Event>, more: seq<Event>, x: nat)
    requires x < |Run(events).rows| && Run(events).rows[x].status != Exported && Run(events).rows[x].claim.None?
    ensures x !in Run(events + more).posts
  {
    SettledForEver(events, more, x);
    if x in Run(events + more).posts {
      UnclaimedIsNeverPosted(events + more, x);
      assert false;
    }
  }

  // ----- The export table -----

  lemma Replayed(events: seq<Event>, e: Event)
    ensures Run(events + [e]) == Step(Run(events), e)
  {
    assert (events + [e])[..|events|] == events;
  }

  /** The table with the services' transactions on it. Rows and claims are always
      what the recorded events made of an empty table, so the theorems about runs
      apply; `QboPushExport` is one caller that nothing interrupts. */
  class ErpStore {
    var rows: seq<Export>
    var claims: nat
    ghost var events: seq<Event>

    ghost predicate Valid()
      reads this
    {
      rows == Run(events).rows && claims == |Run(events).workers|
    }

    /** Claim `claim` was taken for export `x` and its POST has this answer. */
    ghost predicate Carries(claim: nat, x: nat, answer: Option<string>)
      reads this
    {
      claim < |Run(events).workers| && Run(events).workers[claim] == Worker(x, Answered, answer)
    }

    constructor ()
      ensures Valid() && rows == [] && claims == 0 && events == []
    {
      rows, claims, events := [], 0, [];
    }

    method ExportRun(run: nat) returns (created: bool)
      requires Valid()
      modifies this
      ensures Valid() && events == old(events) + [Event.ExportRun(run)]
      ensures rows == ExportRow(old(rows), run) && (created <==> !HasExport(old(rows), run))
    {
      Replayed(events, Event.ExportRun(run));
      events := events + [Event.ExportRun(run)];
      created := !HasExport(rows, run);
      if created {
        rows := rows + [Export(run, Exported, None, None, None, None, None, None)];
      }
    }

    method PrepareQboPush(x: nat, intact: bool, actor: string) returns (refused: Option<Refusal>, claim: nat)
      requires Valid()
      modifies this
      ensures Valid() && events == old(events) + [Prepare(x, intact, actor)]
      ensures refused == PrepareGate(old(rows), x, intact) && claim == old(claims)
      ensures rows == PrepareRow(old(rows), x, intact, claim, actor)
      ensures claims == if refused.None? then old(claims) + 1 else old(claims)
    {
      Replayed(events, Prepare(x, intact, actor));
      events := events + [Prepare(x, intact, actor)];
      claim := claims;
      if x >= |rows| {
        return Some(NotFound), claim;
      }
      if !intact || rows[x].status != Exported || rows[x].claim.Some? {
        return Some(Conflict), claim;
      }
      rows := rows[x := rows[x].(claim := Some(claim), claimedBy := Some(actor), failure := None)];
      claims := claims + 1;
      return None, claim;
    }

    /** The worker of `claim` learned that its POST failed. */
    method MarkQboPushFailed(x: nat, claim: nat, reason: string) returns (refused: Option<Refusal>)
      modifies this`rows, this`events
      ensures old(Valid() && Carries(claim, x, None)) ==> Valid() && events == old(events) + [MarkFailed(claim, reason)]
      ensures rows == MarkFailedRow(old(rows), x, claim, reason)
      ensures refused == if ClaimIsCurrent(old(rows), x, claim) then None else Some(Conflict)
    {
      if Valid() && Carries(claim, x, None) {
        Replayed(events, MarkFailed(claim, reason));
        events := events + [MarkFailed(claim, reason)];
      }
      if !(x < |rows| && rows[x].status == Exported && rows[x].claim == Some(claim)) {
        return Some(Conflict);
      }
      rows := rows[x := rows[x].(failure := Some(if |reason| > 500 then reason[..500] else reason))];
      return None;
    }

    /** The worker of `claim` settles with the entry its POST returned. */
    method CompleteQboPush(x: nat, claim: nat, externalRef: string) returns (refused: Option<Refusal>)
      modifies this`rows, this`events
      ensures old(Valid() && Carries(claim, x, Some(externalRef))) ==>
              Valid() && events == old(events) + [Complete(claim)]
      ensures rows == CompleteRow(old(rows), x, claim, externalRef)
      ensures refused == if x >= |old(rows)| then Some(NotFound)
                         else if ClaimIsCurrent(old(rows), x, claim) then None else Some(Conflict)
    {
      if Valid() && Carries(claim, x, Some(externalRef)) {
        Replayed(events, Complete(claim));
        events := events + [Complete(claim)];
      }
      if x >= |rows| {
        return Some(NotFound);
      }
      if rows[x].status != Exported || rows[x].claim != Some(claim) {
        return Some(Conflict);
      }
      rows := rows[x := rows[x].(status := Posted, externalRef := Some(externalRef), rejectedReason := None,
          failure := None)];
      return None;
    }

    method Acknowledge(x: nat, a: Acknowledgement, actor: string) returns (refused: Option<Refusal>)
      requires Valid()
      modifies this`rows, this`events
      ensures Valid() && events == old(events) + [Event.Acknowledge(x, a, actor)]
      ensures rows == AcknowledgeRow(old(rows), x, a, actor)
      ensures refused == AcknowledgeGate(old(rows), x, a, actor)
    {
      Replayed(events, Event.Acknowledge(x, a, actor));
      events := events + [Event.Acknowledge(x, a, actor)];
      refused := AcknowledgeGate(rows, x, a, actor);
      if refused.None? {
        var row := rows[x].(status := if a.posted then Posted else Rejected, externalRef := a.externalRef,
                            rejectedReason := if a.posted then None else a.rejectedReason);
        if row.claim.Some? {
          row := row.(resolvedBy := Some(actor));
        }
        rows := rows[x := row];
      }
    }

    /** The undisturbed push: claim, POST, then settle or keep the claim as
        ambiguous. `answer` is what the POST would return. */
    method QboPushExport(x: nat, intact: bool, actor: string, answer: Option<string>, reason: string)
      returns (refused: Option<Refusal>, posted: bool)
      requires Valid()
      modifies this
      ensures Valid()
      ensures refused == PrepareGate(old(rows), x, intact) && (posted <==> refused.None?)
      ensures Run(events).posts == old(Run(events).posts) + (if posted then [x] else [])
      ensures refused.Some? ==> rows == old(rows)
      ensures refused.None? ==>
                var claimed := PrepareRow(old(rows), x, intact, old(claims), actor);
                rows == if answer.Some? then CompleteRow(claimed, x, old(claims), answer.value)
                        else MarkFailedRow(claimed, x, old(claims), reason)
    {
      Replayed(events, Prepare(x, intact, actor));
      var claim;
      refused, claim := PrepareQboPush(x, intact, actor);
      posted := refused.None?;
      if posted {
        Replayed(events, Post(claim, answer));
        events := events + [Post(claim, answer)];
        if answer.Some? {
          Replayed(events, Complete(claim));
          var settled := CompleteQboPush(x, claim, answer.value);
        } else {
          Replayed(events, MarkFailed(claim, reason));
          var marked := MarkQboPushFailed(x, claim, reason);
        }
      }
    }
  }
}

/** The two passes over the invoices of one order: re-matching the open ones
    after goods land, and re-judging the matched ones after a correction. */
module MatchPasses {
  import opened Common
  import opened Sums
  import opened Matching
  import opened LedgerModel

  // ----- Which invoices, in which order -----

  predicate IsOpen(inv: Invoice, p: nat) {
    inv.po == Some(p)
    && (inv.status == Received
        || (inv.status == Exception && inv.result.Some? && inv.result.value.outcome == ReceiptShortfall))
  }

  predicate IdsIn(ids: seq<nat>, invoices: seq<Invoice>) {
    forall k :: 0 <= k < |ids| ==> ids[k] < |invoices|
  }

  predicate IsMatchedOn(inv: Invoice, p: nat) {
    inv.po == Some(p) && inv.status == MatchedStatus
  }

  function InsertByDate(invoices: seq<Invoice>, i: nat, ids: seq<nat>): (r: seq<nat>)
    requires i < |invoices| && IdsIn(ids, invoices)
    ensures IdsIn(r, invoices)
  {
    if |ids| == 0 then [i]
    else if invoices[i].receivedAt < invoices[ids[0]].receivedAt then [i] + ids
    else [ids[0]] + InsertByDate(invoices, i, ids[1..])
  }

  /** Open invoices among the first `n`, oldest first, ties by identifier. */
  function OpenIds(invoices: seq<Invoice>, p: nat, n: nat): (ids: seq<nat>)
    requires n <= |invoices|
    ensures IdsIn(ids, invoices)
  {
    if n == 0 then []
    else
      var ids := OpenIds(invoices, p, n - 1);
      if IsOpen(invoices[n - 1], p) then InsertByDate(invoices, n - 1, ids)
      else ids
  }

  function MatchedIds(invoices: seq<Invoice>, p: nat, n: nat): (ids: seq<nat>)
    requires n <= |invoices|
    ensures IdsIn(ids, invoices)
  {
    if n == 0 then []
    else
      var ids := MatchedIds(invoices, p, n - 1);
      if IsMatchedOn(invoices[n - 1], p) then InsertByDate(invoices, n - 1, ids)
      else ids
  }

  ghost predicate Distinct(ids: seq<nat>) {
    forall a, b :: 0 <= a < b < |ids| ==> ids[a] != ids[b]
  }

  lemma {:induction false} InsertionMembers(invoices: seq<Invoice>, i: nat, ids: seq<nat>)
    requires i < |invoices| && IdsIn(ids, invoices)
    ensures forall j :: j in InsertByDate(invoices, i, ids) <==> j == i || j in ids
  {
    if |ids| > 0 {
      assert ids == [ids[0]] + ids[1..];
      InsertionMembers(invoices, i, ids[1..]);
    }
  }

  lemma {:induction false} InsertionDistinct(invoices: seq<Invoice>, i: nat, ids: seq<nat>)
    requires i < |invoices| && IdsIn(ids, invoices) && i !in ids && Distinct(ids)
    ensures Distinct(InsertByDate(invoices, i, ids))
  {
    if |ids| > 0 && invoices[i].receivedAt >= invoices[ids[0]].receivedAt {
      InsertionDistinct(invoices, i, ids[1..]);
      InsertionMembers(invoices, i, ids[1..]);
      var rest := InsertByDate(invoices, i, ids[1..]);
      forall b | 0 <= b < |rest| ensures rest[b] != ids[0] {
        assert rest[b] == i || rest[b] in ids[1..];
      }
    }
  }

  lemma {:induction false} OpenIdsMembers(invoices: seq<Invoice>, p: nat, n: nat)
    requires n <= |invoices|
    ensures forall i :: i in OpenIds(invoices, p, n) <==> 0 <= i < n && IsOpen(invoices[i], p)
  {
    if n > 0 {
      OpenIdsMembers(invoices, p, n - 1);
      InsertionMembers(invoices, n - 1, OpenIds(invoices, p, n - 1));
    }
  }

  lemma {:induction false} OpenIdsDistinct(invoices: seq<Invoice>, p: nat, n: nat)
    requires n <= |invoices|
    ensures Distinct(OpenIds(invoices, p, n))
  {
    if n > 0 {
      OpenIdsDistinct(invoices, p, n - 1);
      OpenIdsMembers(invoices, p, n - 1);
      if IsOpen(invoices[n - 1], p) {
        InsertionDistinct(invoices, n - 1, OpenIds(invoices, p, n - 1));
      }
    }
  }

  /** Open are the invoices that wait for goods and those that were short of them. */
  lemma OpenMeansWaiting(inv: Invoice, p: nat)
    ensures IsOpen(inv, p)
       <==> inv.po == Some(p)
            && (inv.status == Received
                || (inv.status == Exception && inv.result.Some? && inv.result.value.outcome == ReceiptShortfall))
  {
  }

  /** The pass considers exactly the open invoices of the order, each once. */
  lemma OpenIdsComplete(invoices: seq<Invoice>, p: nat, n: nat)
    requires n <= |invoices|
    ensures forall i :: i in OpenIds(invoices, p, n) <==> 0 <= i < n && IsOpen(invoices[i], p)
    ensures Distinct(OpenIds(invoices, p, n))
  {
    OpenIdsMembers(invoices, p, n);
    OpenIdsDistinct(invoices, p, n);
  }

  lemma {:induction false} MatchedIdsMembers(invoices: seq<Invoice>, p: nat, n: nat)
    requires n <= |invoices|
    ensures forall i :: i in MatchedIds(invoices, p, n) <==> 0 <= i < n && IsMatchedOn(invoices[i], p)
  {
    if n > 0 {
      MatchedIdsMembers(invoices, p, n - 1);
      InsertionMembers(invoices, n - 1, MatchedIds(invoices, p, n - 1));
    }
  }

  lemma {:induction false} MatchedIdsDistinct(invoices: seq<Invoice>, p: nat, n: nat)
    requires n <= |invoices|
    ensures Distinct(MatchedIds(invoices, p, n))
  {
    if n > 0 {
      MatchedIdsDistinct(invoices, p, n - 1);
      MatchedIdsMembers(invoices, p, n - 1);
      if IsMatchedOn(invoices[n - 1], p) {
        InsertionDistinct(invoices, n - 1, MatchedIds(invoices, p, n - 1));
      }
    }
  }

  lemma MatchedIdsComplete(invoices: seq<Invoice>, p: nat, n: nat)
    requires n <= |invoices|
    ensures forall i :: i in MatchedIds(invoices, p, n) <==> 0 <= i < n && IsMatchedOn(invoices[i], p)
    ensures Distinct(MatchedIds(invoices, p, n))
  {
    MatchedIdsMembers(invoices, p, n);
    MatchedIdsDistinct(invoices, p, n);
  }

  predicate OldestFirst(invoices: seq<Invoice>, ids: seq<nat>)
    requires IdsIn(ids, invoices)
  {
    forall a, b :: 0 <= a < b < |ids| ==> invoices[ids[a]].receivedAt <= invoices[ids[b]].receivedAt
  }

  lemma {:induction false} InsertionKeepsOrder(invoices: seq<Invoice>, i: nat, ids: seq<nat>)
    requires i < |invoices| && IdsIn(ids, invoices)
    requires OldestFirst(invoices, ids)
    ensures IdsIn(InsertByDate(invoices, i, ids), invoices)
    ensures OldestFirst(invoices, InsertByDate(invoices, i, ids))
  {
    InsertionMembers(invoices, i, ids);
    if |ids| > 0 && invoices[i].receivedAt >= invoices[ids[0]].receivedAt {
      InsertionMembers(invoices, i, ids[1..]);
      InsertionKeepsOrder(invoices, i, ids[1..]);
      var rest := InsertByDate(invoices, i, ids[1..]);
      forall b | 0 <= b < |rest| ensures invoices[ids[0]].receivedAt <= invoices[rest[b]].receivedAt {
        assert rest[b] == i || rest[b] in ids[1..];
      }
    }
  }

  /** The oldest open invoice claims the remaining capacity first. */
  lemma {:induction false} OpenIdsOldestFirst(invoices: seq<Invoice>, p: nat, n: nat)
    requires n <= |invoices|
    ensures OldestFirst(invoices, OpenIds(invoices, p, n))
  {
    if n > 0 {
      OpenIdsOldestFirst(invoices, p, n - 1);
      InsertionKeepsOrder(invoices, n - 1, OpenIds(invoices, p, n - 1));
    }
  }

  // ----- The passes -----

  /** What one pass keeps fixed while it judges. */
  datatype Order = Order(id: nat, facts: Option<PoFacts>, received: int)

  function Judge(o: Order, invoices: seq<Invoice>, i: nat): MatchResult
    requires i < |invoices|
  {
    MatchAgainstPo(o.facts, BillOf(invoices[i]), o.received, AllocatedValue(invoices, o.id))
  }

  function JudgeAlone(o: Order, invoices: seq<Invoice>, i: nat): MatchResult
    requires i < |invoices|
  {
    MatchAgainstPo(o.facts, BillOf(invoices[i]), o.received, AllocatedExcept(invoices, o.id, i))
  }

  function Stored(invoices: seq<Invoice>, i: nat, m: MatchResult): seq<Invoice>
    requires i < |invoices|
  {
    invoices[i := invoices[i].(status := StatusFor(m), result := Some(m))]
  }

  function Rematched(o: Order, invoices: seq<Invoice>, ids: seq<nat>): (r: seq<Invoice>)
    requires IdsIn(ids, invoices)
    ensures |r| == |invoices|
    decreases |ids|
  {
    if |ids| == 0 then invoices
    else Rematched(o, Stored(invoices, ids[0], Judge(o, invoices, ids[0])), ids[1..])
  }

  function Reevaluated(o: Order, invoices: seq<Invoice>, ids: seq<nat>): (r: seq<Invoice>)
    requires IdsIn(ids, invoices)
    ensures |r| == |invoices|
    decreases |ids|
  {
    if |ids| == 0 then invoices
    else Reevaluated(o, Stored(invoices, ids[0], JudgeAlone(o, invoices, ids[0])), ids[1..])
  }

  // ----- What a pass leaves alone -----

  /** The invoice without the two fields a pass may write. */
  function Core(inv: Invoice): Invoice {
    inv.(status := Received, result := None)
  }

  predicate SameCores(a: seq<Invoice>, b: seq<Invoice>) {
    |a| == |b| && forall i :: 0 <= i < |a| ==> Core(a[i]) == Core(b[i])
  }

  predicate SameOutside(a: seq<Invoice>, b: seq<Invoice>, ids: seq<nat>) {
    |a| == |b| && forall i :: 0 <= i < |a| && i !in ids ==> a[i] == b[i]
  }

  lemma {:induction false} RematchedFrame(o: Order, invoices: seq<Invoice>, ids: seq<nat>)
    requires IdsIn(ids, invoices)
    ensures SameCores(Rematched(o, invoices, ids), invoices)
    ensures SameOutside(Rematched(o, invoices, ids), invoices, ids)
    decreases |ids|
  {
    if |ids| > 0 {
      RematchedFrame(o, Stored(invoices, ids[0], Judge(o, invoices, ids[0])), ids[1..]);
      assert ids == [ids[0]] + ids[1..];
    }
  }

  lemma {:induction false} ReevaluatedFrame(o: Order, invoices: seq<Invoice>, ids: seq<nat>)
    requires IdsIn(ids, invoices)
    ensures SameCores(Reevaluated(o, invoices, ids), invoices)
    ensures SameOutside(Reevaluated(o, invoices, ids), invoices, ids)
    decreases |ids|
  {
    if |ids| > 0 {
      ReevaluatedFrame(o, Stored(invoices, ids[0], JudgeAlone(o, invoices, ids[0])), ids[1..]);
      assert ids == [ids[0]] + ids[1..];
    }
  }

  predicate AmountsOk(invoices: seq<Invoice>) {
    forall i :: 0 <= i < |invoices| ==> 0 <= invoices[i].amount
  }

  /** Storing one judgement moves the allocated value by that invoice only. */
  lemma StoredAllocation(invoices: seq<Invoice>, p: nat, i: nat, m: MatchResult)
    requires i < |invoices| && invoices[i].po == Some(p)
    ensures AllocatedValue(Stored(invoices, i, m), p)
         == AllocatedExcept(invoices, p, i) + (if m.outcome == Matched then invoices[i].amount else 0)
    ensures AllocatedExcept(invoices, p, i)
         == AllocatedValue(invoices, p) - (if Holds(invoices[i], p) then invoices[i].amount else 0)
  {
    var h := Holdings(invoices, p);
    SumUpdate(h, i, 0);
    SumUpdate(h, i, if m.outcome == Matched then invoices[i].amount else 0);
    assert Holdings(Stored(invoices, i, m), p) == h[i := if m.outcome == Matched then invoices[i].amount else 0];
  }

  lemma AllocationNonnegative(invoices: seq<Invoice>, p: nat)
    requires AmountsOk(invoices)
    ensures 0 <= AllocatedValue(invoices, p)
  {
    SumNonnegative(Holdings(invoices, p));
  }

  lemma AllocationExceptNonnegative(invoices: seq<Invoice>, p: nat, i: nat)
    requires AmountsOk(invoices) && i < |invoices|
    ensures 0 <= AllocatedExcept(invoices, p, i)
  {
    SumNonnegative(Holdings(invoices, p)[i := 0]);
  }

  // ----- Re-matching -----

  /** The invoices a rematch considers hold nothing yet. */
  predicate Waiting(invoices: seq<Invoice>, p: nat, ids: seq<nat>) {
    IdsIn(ids, invoices)
    && forall k :: 0 <= k < |ids| ==> invoices[ids[k]].po == Some(p) && !Holds(invoices[ids[k]], p)
  }

  lemma RematchStep(o: Order, invoices: seq<Invoice>, i: nat)
    requires i < |invoices| && AmountsOk(invoices)
    requires invoices[i].po == Some(o.id) && !Holds(invoices[i], o.id)
    ensures var next := Stored(invoices, i, Judge(o, invoices, i));
            AllocatedValue(invoices, o.id) <= AllocatedValue(next, o.id)
            && (WithinTolerance(AllocatedValue(invoices, o.id), o.received)
                ==> WithinTolerance(AllocatedValue(next, o.id), o.received))
  {
    var m := Judge(o, invoices, i);
    StoredAllocation(invoices, o.id, i, m);
    AllocationNonnegative(invoices, o.id);
    if m.outcome == Matched {
      MatchKeepsBound(o.facts, BillOf(invoices[i]), o.received, AllocatedValue(invoices, o.id));
    }
  }

  /** A rematch keeps the allocation bound, and the allocated value only grows. */
  lemma {:induction false} RematchKeepsBound(o: Order, invoices: seq<Invoice>, ids: seq<nat>)
    requires AmountsOk(invoices) && Waiting(invoices, o.id, ids) && Distinct(ids)
    ensures var after := Rematched(o, invoices, ids);
            AllocatedValue(invoices, o.id) <= AllocatedValue(after, o.id)
            && (WithinTolerance(AllocatedValue(invoices, o.id), o.received)
                ==> WithinTolerance(AllocatedValue(after, o.id), o.received))
    decreases |ids|
  {
    if |ids| > 0 {
      RematchStep(o, invoices, ids[0]);
      RematchKeepsBound(o, Stored(invoices, ids[0], Judge(o, invoices, ids[0])), ids[1..]);
    }
  }

  /** The rematch is a maximal greedy pass: whatever it leaves unmatched would
      not match in the final state either. */
  lemma {:induction false} RematchIsMaximal(o: Order, invoices: seq<Invoice>, ids: seq<nat>)
    requires AmountsOk(invoices) && Waiting(invoices, o.id, ids) && Distinct(ids)
    ensures var after := Rematched(o, invoices, ids);
            forall k :: 0 <= k < |ids| && after[ids[k]].status != MatchedStatus ==>
              Judge(o, after, ids[k]).outcome != Matched
    decreases |ids|
  {
    if |ids| > 0 {
      var i := ids[0];
      var next := Stored(invoices, i, Judge(o, invoices, i));
      var after := Rematched(o, next, ids[1..]);
      RematchIsMaximal(o, next, ids[1..]);
      if after[i].status != MatchedStatus {
        RematchedFrame(o, next, ids[1..]);
        RematchStep(o, invoices, i);
        RematchKeepsBound(o, next, ids[1..]);
        RefusalPersists(o.facts, BillOf(invoices[i]), o.received,
                        AllocatedValue(invoices, o.id), AllocatedValue(after, o.id));
        ReplayIsLossless(o.facts, BillOf(invoices[i]));
      }
    }
  }

  // ----- Re-evaluation -----

  /** The invoices a re-evaluation considers all hold value. */
  predicate Holding(invoices: seq<Invoice>, p: nat, ids: seq<nat>) {
    IdsIn(ids, invoices) && forall k :: 0 <= k < |ids| ==> Holds(invoices[ids[k]], p)
  }

  lemma ReevaluateStep(o: Order, invoices: seq<Invoice>, i: nat)
    requires i < |invoices| && AmountsOk(invoices) && Holds(invoices[i], o.id)
    ensures var m := JudgeAlone(o, invoices, i);
            AllocatedValue(Stored(invoices, i, m), o.id) <= AllocatedValue(invoices, o.id)
            && (m.outcome == Matched
                ==> AllocatedValue(Stored(invoices, i, m), o.id) == AllocatedValue(invoices, o.id)
                    && WithinTolerance(AllocatedValue(invoices, o.id), o.received))
  {
    var m := JudgeAlone(o, invoices, i);
    StoredAllocation(invoices, o.id, i, m);
    AllocationExceptNonnegative(invoices, o.id, i);
    if m.outcome == Matched {
      MatchKeepsBound(o.facts, BillOf(invoices[i]), o.received, AllocatedExcept(invoices, o.id, i));
    }
  }

  lemma {:induction false} ReevaluationOnlyReleases(o: Order, invoices: seq<Invoice>, ids: seq<nat>)
    requires AmountsOk(invoices) && Holding(invoices, o.id, ids) && Distinct(ids)
    ensures AllocatedValue(Reevaluated(o, invoices, ids), o.id) <= AllocatedValue(invoices, o.id)
    decreases |ids|
  {
    if |ids| > 0 {
      ReevaluateStep(o, invoices, ids[0]);
      ReevaluationOnlyReleases(o, Stored(invoices, ids[0], JudgeAlone(o, invoices, ids[0])), ids[1..]);
    }
  }

  /** Every invoice that holds value of the order is still to be judged. */
  predicate AllPending(invoices: seq<Invoice>, p: nat, ids: seq<nat>) {
    forall i :: 0 <= i < |invoices| && Holds(invoices[i], p) ==> i in ids
  }

  /** Re-judging the matched invoices restores the bound for whatever received
      value is left, although each is judged against siblings not judged yet. */
  lemma {:induction false} ReevaluationRestoresBound(o: Order, invoices: seq<Invoice>, ids: seq<nat>)
    requires AmountsOk(invoices) && Holding(invoices, o.id, ids) && Distinct(ids)
    requires 0 <= o.received
    requires AllPending(invoices, o.id, ids) || WithinTolerance(AllocatedValue(invoices, o.id), o.received)
    ensures WithinTolerance(AllocatedValue(Reevaluated(o, invoices, ids), o.id), o.received)
    decreases |ids|
  {
    if WithinTolerance(AllocatedValue(invoices, o.id), o.received) {
      ReevaluationOnlyReleases(o, invoices, ids);
    } else if |ids| == 0 {
      SumZero(Holdings(invoices, o.id));
    } else {
      var next := Stored(invoices, ids[0], JudgeAlone(o, invoices, ids[0]));
      ReevaluateStep(o, invoices, ids[0]);
      assert AllPending(next, o.id, ids[1..]);
      ReevaluationRestoresBound(o, next, ids[1..]);
    }
  }

  /** Whatever the pass kept would be kept again: a second pass demotes nothing. */
  lemma {:induction false} ReevaluationIsFixpoint(o: Order, invoices: seq<Invoice>, ids: seq<nat>)
    requires AmountsOk(invoices) && Holding(invoices, o.id, ids) && Distinct(ids)
    ensures var after := Reevaluated(o, invoices, ids);
            forall k :: 0 <= k < |ids| && after[ids[k]].status == MatchedStatus ==>
              JudgeAlone(o, after, ids[k]).outcome == Matched
    decreases |ids|
  {
    if |ids| > 0 {
      var i := ids[0];
      var next := Stored(invoices, i, JudgeAlone(o, invoices, i));
      var after := Reevaluated(o, next, ids[1..]);
      ReevaluationIsFixpoint(o, next, ids[1..]);
      ReevaluatedFrame(o, next, ids[1..]);
      if after[i].status == MatchedStatus {
        ReevaluateStep(o, invoices, i);
        ReevaluationOnlyReleases(o, next, ids[1..]);
        StoredAllocation(invoices, o.id, i, JudgeAlone(o, invoices, i));
        StoredAllocation(after, o.id, i, JudgeAlone(o, after, i));
        MatchPersists(o.facts, BillOf(invoices[i]), o.received,
                      AllocatedExcept(after, o.id, i), AllocatedExcept(invoices, o.id, i));
        ReplayIsLossless(o.facts, BillOf(invoices[i]));
      }
    }
  }

  /** Running the re-evaluation again, over the invoices that are still matched
      and in any order, leaves every status as it is. */
  lemma {:induction false} SecondPassDemotesNothing(o: Order, invoices: seq<Invoice>, ids: seq<nat>)
    requires IdsIn(ids, invoices)
    requires forall k :: 0 <= k < |ids| ==>
               IsMatchedOn(invoices[ids[k]], o.id) && JudgeAlone(o, invoices, ids[k]).outcome == Matched
    ensures var again := Reevaluated(o, invoices, ids);
            forall i :: 0 <= i < |invoices| ==> again[i].status == invoices[i].status
    decreases |ids|
  {
    if |ids| > 0 {
      var i := ids[0];
      var next := Stored(invoices, i, JudgeAlone(o, invoices, i));
      assert Holdings(next, o.id) == Holdings(invoices, o.id);
      var rest := ids[1..];
      forall k | 0 <= k < |rest|
        ensures IsMatchedOn(next[rest[k]], o.id) && JudgeAlone(o, next, rest[k]).outcome == Matched
      {
        var j := ids[k + 1];
        ReplayIsLossless(o.facts, BillOf(invoices[j]));
        MatchPersists(o.facts, BillOf(invoices[j]), o.received,
                      AllocatedExcept(invoices, o.id, j), AllocatedExcept(invoices, o.id, j));
      }
      SecondPassDemotesNothing(o, next, rest);
    }
  }

  // ----- Summaries -----

  datatype RematchSummary = RematchSummary(considered: nat, matched: nat, stillWaiting: nat, exceptions: nat)

  datatype ReevaluateSummary = ReevaluateSummary(considered: nat, kept: nat, demoted: nat)

  function CountStatus(invoices: seq<Invoice>, ids: seq<nat>, s: InvoiceStatus): nat
    requires IdsIn(ids, invoices)
  {
    if |ids| == 0 then 0
    else CountStatus(invoices, ids[..|ids| - 1], s) + (if invoices[ids[|ids| - 1]].status == s then 1 else 0)
  }

  /** The places in the list that hold an invoice with that status. */
  function PlacesWith(invoices: seq<Invoice>, ids: seq<nat>, s: InvoiceStatus): set<nat>
    requires IdsIn(ids, invoices)
  {
    set k: nat | k < |ids| && invoices[ids[k]].status == s
  }

  lemma PlacesGrow(invoices: seq<Invoice>, ids: seq<nat>, s: InvoiceStatus)
    requires IdsIn(ids, invoices) && |ids| > 0
    ensures var n := |ids| - 1;
            PlacesWith(invoices, ids, s)
            == PlacesWith(invoices, ids[..n], s) + (if invoices[ids[n]].status == s then {n} else {})
  {
    var n := |ids| - 1;
    forall k: nat | k < n ensures ids[..n][k] == ids[k] {
    }
  }

  /** A count is the number of places with that status. */
  lemma {:induction false} CountIsExact(invoices: seq<Invoice>, ids: seq<nat>, s: InvoiceStatus)
    requires IdsIn(ids, invoices)
    ensures CountStatus(invoices, ids, s) == |PlacesWith(invoices, ids, s)|
  {
    if |ids| > 0 {
      CountIsExact(invoices, ids[..|ids| - 1], s);
      PlacesGrow(invoices, ids, s);
    }
  }
}

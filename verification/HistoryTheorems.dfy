/** Facts about two points of one history. */
module HistoryTheorems {
  import opened Matching
  import opened LedgerModel
  import opened MatchPasses
  import opened LedgerSteps
  import opened LedgerTheorems
  import opened MemoryTheorems
  import opened LedgerSafety

  lemma {:induction false} EveryHistoryRemembers(history: seq<Event>)
    ensures var db := LedgerSteps.Replay(history); MemoryOk(db.pos, db.invoices)
  {
    if |history| > 0 {
      var n := |history| - 1;
      EveryHistoryRemembers(history[..n]);
      EveryHistoryIsSafe(history[..n]);
      StepRemembers(LedgerSteps.Replay(history[..n]), history[n]);
    }
  }

  lemma KeepsVerdictsTransitive(a: seq<Invoice>, b: seq<Invoice>, c: seq<Invoice>)
    requires KeepsVerdicts(a, b) && KeepsVerdicts(b, c)
    ensures KeepsVerdicts(a, c)
  {
    forall i | 0 <= i < |a| ensures SameVerdict(a[i], c[i]) {
      assert SameVerdict(a[i], b[i]) && SameVerdict(b[i], c[i]);
    }
  }

  lemma NextKeepsVerdicts(history: seq<Event>, e: Event)
    ensures var db := LedgerSteps.Replay(history); KeepsVerdicts(db.invoices, Step(db, e).invoices)
  {
    EveryHistoryIsSafe(history);
    EveryHistoryRemembers(history);
    StepRemembers(LedgerSteps.Replay(history), e);
  }

  /** The amount verdict and the partial flag an invoice got against its order
      are the ones every later pass stores, however long the history goes on. */
  lemma {:induction false} VerdictForEver(history: seq<Event>, more: seq<Event>)
    ensures KeepsVerdicts(LedgerSteps.Replay(history).invoices, LedgerSteps.Replay(history + more).invoices)
  {
    if |more| == 0 {
      assert history + more == history;
    } else {
      var n := |more| - 1;
      VerdictForEver(history, more[..n]);
      assert (history + more)[..|history + more| - 1] == history + more[..n];
      NextKeepsVerdicts(history + more[..n], more[n]);
      KeepsVerdictsTransitive(LedgerSteps.Replay(history).invoices,
                              LedgerSteps.Replay(history + more[..n]).invoices,
                              LedgerSteps.Replay(history + more).invoices);
    }
  }

  lemma NoMatchLeft(o: Order, invoices: seq<Invoice>, i: nat)
    requires AmountsOk(invoices) && i < |invoices| && IsOpen(invoices[i], o.id)
    ensures var after := Rematched(o, invoices, OpenIds(invoices, o.id, |invoices|));
            after[i].status != MatchedStatus ==> Judge(o, after, i).outcome != Matched
  {
    var ids := OpenIds(invoices, o.id, |invoices|);
    OpenIdsComplete(invoices, o.id, |invoices|);
    forall k | 0 <= k < |ids| ensures IsOpen(invoices[ids[k]], o.id) {
      assert ids[k] in ids;
    }
    RematchIsMaximal(o, invoices, ids);
    assert i in ids;
  }

  /** After goods are recorded no considered invoice is left that would match. */
  lemma RecordedReceiptLeavesNoMatch(db: Db, p: nat, inputs: seq<ReceiptInput>, i: nat)
    requires InvoicesOk(db.pos, db.invoices) && RecordReceipt(db, p, inputs).Done? && i < |db.invoices|
    requires IsOpen(db.invoices[i], p)
    ensures var after := RecordReceipt(db, p, inputs).db;
            after.invoices[i].status != MatchedStatus
            ==> Judge(OrderAt(after, p), after.invoices, i).outcome != Matched
  {
    var booked := Booked(db, p, BookedLines(p, db.pos[p], inputs, |db.receipts|));
    InvoicesAreWellFormed(db.pos, db.invoices);
    NoMatchLeft(OrderAt(booked, p), db.invoices, i);
  }

  /** After a receipt is cancelled, re-evaluating once more changes no status. */
  lemma CancelledReceiptIsSettled(db: Db, r: nat)
    requires Inv(db) && CancelReceipt(db, r).Done?
    ensures var after, p := CancelReceipt(db, r).db, db.receipts[r].po;
            var again := ReevaluateOn(after, p);
            |again.invoices| == |after.invoices|
            && forall i :: 0 <= i < |after.invoices| ==> again.invoices[i].status == after.invoices[i].status
  {
    var p := db.receipts[r].po;
    var less := db.(receipts := db.receipts[r := Receipt(p, false)]);
    var o, ids := OrderAt(less, p), MatchedIds(db.invoices, p, |db.invoices|);
    MatchedIdsComplete(db.invoices, p, |db.invoices|);
    forall k | 0 <= k < |ids| ensures IsMatchedOn(db.invoices[ids[k]], p) {
      assert ids[k] in ids;
    }
    InvoicesAreWellFormed(db.pos, db.invoices);
    GuardClearsOrder(db, p);
    ReevaluationIsFixpoint(o, db.invoices, ids);
    SettledAgain(o, db.invoices, ids);
  }

  lemma SettledAgain(o: Order, invoices: seq<Invoice>, ids: seq<nat>)
    requires IdsIn(ids, invoices) && Distinct(ids)
    requires forall i :: 0 <= i < |invoices| && IsMatchedOn(invoices[i], o.id) ==> i in ids
    requires forall k :: 0 <= k < |ids| ==> IsMatchedOn(invoices[ids[k]], o.id)
    requires var after := Reevaluated(o, invoices, ids);
             forall k :: 0 <= k < |ids| && after[ids[k]].status == MatchedStatus ==>
               JudgeAlone(o, after, ids[k]).outcome == Matched
    ensures var after := Reevaluated(o, invoices, ids);
            var again := Reevaluated(o, after, MatchedIds(after, o.id, |after|));
            forall i :: 0 <= i < |after| ==> again[i].status == after[i].status
  {
    var after := Reevaluated(o, invoices, ids);
    ReevaluatedFrame(o, invoices, ids);
    var left := MatchedIds(after, o.id, |after|);
    MatchedIdsComplete(after, o.id, |after|);
    forall k | 0 <= k < |left|
      ensures IsMatchedOn(after[left[k]], o.id) && JudgeAlone(o, after, left[k]).outcome == Matched
    {
      assert left[k] in left;
      assert Core(after[left[k]]) == Core(invoices[left[k]]);
      assert left[k] in ids;
    }
    SecondPassDemotesNothing(o, after, left);
  }
}

/** Payment runs: which invoices a run takes, what it freezes, and how a run, its lines
    and the paid invoices move. */
module RunTheorems {
  import opened Common
  import opened Sums
  import opened Matching
  import opened LedgerModel
  import opened LedgerSteps
  import opened MatchPasses
  import opened RequisitionTheorems
  import Batch
  import LedgerSafety

  // ----- Planning -----

  /** The account of the vendor is complete and vetted, with no change under way. */
  predicate BankReady(inv: Invoice, v: Vendor) {
    inv.number != "" && v.bank.name != "" && Batch.NamesAccount(v.bank.account) && Batch.Vetted(v.bank)
    && v.bank.submittedBy.None?
  }

  /** No run that is not voided still plans to pay the invoice. */
  predicate Unplanned(db: Db, i: nat) {
    forall l :: 0 <= l < |db.runLines| && db.runLines[l].invoice == i && db.runLines[l].status == Planned
                && db.runLines[l].run < |db.runs| ==>
      db.runs[db.runLines[l].run].status == RunVoided
  }

  predicate Payable(db: Db, i: nat) {
    i < |db.invoices|
    && var inv := db.invoices[i];
       inv.status == MatchedStatus && inv.currency == "PHP" && inv.vendor < |db.vendors|
       && (inv.po.Some? ==> inv.po.value < |db.pos| && db.pos[inv.po.value].status != PoCancelled)
       && BankReady(inv, db.vendors[inv.vendor]) && Unplanned(db, i)
  }

  /** The line plans to pay the invoice what is due to the account frozen now. */
  predicate PlansInvoice(db: Db, l: RunLine, run: nat) {
    l.run == run && l.status == Planned && Payable(db, l.invoice)
    && var inv := db.invoices[l.invoice];
       var bank := db.vendors[inv.vendor].bank;
       l.net == inv.amount + inv.vat - inv.ewt
       && l.snapshot == Batch.Snapshot(inv.number, inv.vendor, bank.name, bank.taxId, Batch.NamedAccount(bank.account))
  }

  function Nets(lines: seq<RunLine>): seq<int> {
    seq(|lines|, k requires 0 <= k < |lines| => lines[k].net)
  }

  function DueOn(db: Db, ids: seq<nat>): seq<int>
    requires forall k :: 0 <= k < |ids| ==> ids[k] < |db.invoices|
  {
    seq(|ids|, k requires 0 <= k < |ids| =>
      var inv := db.invoices[ids[k]]; inv.amount + inv.vat - inv.ewt)
  }

  lemma {:induction false} UniqueCovers(ids: seq<nat>)
    ensures forall id :: id in ids <==> id in Unique(ids)
  {
    if |ids| > 0 {
      UniqueCovers(ids[..|ids| - 1]);
      assert ids == ids[..|ids| - 1] + [ids[|ids| - 1]];
    }
  }

  lemma SnapshotIsFrozen(db: Db, inv: Invoice)
    ensures SnapshotFor(db, inv).Some? && inv.vendor < |db.vendors| && !UnverifiedBank(db.vendors[inv.vendor].bank)
       <==> inv.vendor < |db.vendors| && BankReady(inv, db.vendors[inv.vendor])
    ensures inv.vendor < |db.vendors| && BankReady(inv, db.vendors[inv.vendor]) ==>
              var bank := db.vendors[inv.vendor].bank;
              SnapshotFor(db, inv)
              == Some(Batch.Snapshot(inv.number, inv.vendor, bank.name, bank.taxId, Batch.NamedAccount(bank.account)))
  {
    if inv.vendor < |db.vendors| {
      Batch.FrozenIsUsable(inv.number, inv.vendor, db.vendors[inv.vendor].bank);
    }
  }

  lemma PayableMeans(db: Db, i: nat)
    requires i < |db.invoices|
    ensures var inv := db.invoices[i];
            Payable(db, i)
            <==> inv.status == MatchedStatus && inv.currency == PHP && OrderIsLive(db, inv) && !Claimed(db, i)
                 && SnapshotFor(db, inv).Some? && inv.vendor < |db.vendors|
                 && !UnverifiedBank(db.vendors[inv.vendor].bank)
  {
    SnapshotIsFrozen(db, db.invoices[i]);
  }

  /** Every gate about single invoices. */
  predicate SingleGatesPass(db: Db, ids: seq<nat>)
    requires IdsIn(ids, db.invoices)
  {
    !SomeUnverified(db, ids) && AllMatched(db.invoices, ids) && AllLive(db, ids) && AllFreezable(db, ids)
    && AllInPesos(db.invoices, ids) && !SomeClaimed(db, ids)
  }

  lemma PayablePass(db: Db, ids: seq<nat>)
    requires forall k :: 0 <= k < |ids| ==> Payable(db, ids[k])
    ensures IdsIn(ids, db.invoices) && SingleGatesPass(db, ids)
  {
    forall k | 0 <= k < |ids| {
      PayableMeans(db, ids[k]);
    }
  }

  lemma PassedArePayable(db: Db, ids: seq<nat>, k: nat)
    requires IdsIn(ids, db.invoices) && SingleGatesPass(db, ids) && k < |ids|
    ensures Payable(db, ids[k])
  {
    PayableMeans(db, ids[k]);
    assert SnapshotFor(db, db.invoices[ids[k]]).Some?;
  }

  lemma GatesAre(db: Db, ids: seq<nat>)
    requires IdsIn(ids, db.invoices)
    ensures PlanningGate(db, ids).None? <==> SingleGatesPass(db, ids) && IsDatabaseInt(Sum(NetsOf(db, ids)))
  {
    if AllFreezable(db, ids) {
      forall k | 0 <= k < |ids| ensures db.invoices[ids[k]].vendor < |db.vendors| {
        assert SnapshotFor(db, db.invoices[ids[k]]).Some?;
      }
    }
  }

  lemma GatesMeanPayable(db: Db, ids: seq<nat>)
    requires IdsIn(ids, db.invoices)
    ensures PlanningGate(db, ids).None?
       <==> (forall k :: 0 <= k < |ids| ==> Payable(db, ids[k])) && FitsColumn(Sum(DueOn(db, ids)))
  {
    assert NetsOf(db, ids) == DueOn(db, ids);
    GatesAre(db, ids);
    if SingleGatesPass(db, ids) {
      forall k | 0 <= k < |ids| {
        PassedArePayable(db, ids, k);
      }
    }
    if forall k :: 0 <= k < |ids| ==> Payable(db, ids[k]) {
      PayablePass(db, ids);
    }
  }

  /** A run is planned exactly when at least one invoice is named, all of them are
      payable and what is due on them fits the column, each counted once. */
  lemma RunNeedsPayable(db: Db, ids: seq<nat>, maker: string)
    ensures CreateRun(db, ids, maker).Done?
       <==> |ids| > 0 && (forall k :: 0 <= k < |ids| ==> Payable(db, ids[k]))
            && FitsColumn(Sum(DueOn(db, Unique(ids))))
  {
    UniqueCovers(ids);
    if |ids| > 0 && IdsIn(Unique(ids), db.invoices) {
      GatesMeanPayable(db, Unique(ids));
      AllOfBoth(db, ids, Unique(ids));
    }
  }

  lemma AllOfBoth(db: Db, a: seq<nat>, b: seq<nat>)
    requires forall id :: id in a <==> id in b
    ensures (forall k :: 0 <= k < |a| ==> Payable(db, a[k])) <==> (forall k :: 0 <= k < |b| ==> Payable(db, b[k]))
  {
    assert (forall k :: 0 <= k < |a| ==> Payable(db, a[k])) <==> (forall id :: id in a ==> Payable(db, id));
    assert (forall k :: 0 <= k < |b| ==> Payable(db, b[k])) <==> (forall id :: id in b ==> Payable(db, id));
  }

  /** One line of the run plans each invoice named, and no line anything else. */
  predicate PlansEach(db: Db, lines: seq<RunLine>, ids: seq<nat>) {
    (forall k :: 0 <= k < |lines| ==> PlansInvoice(db, lines[k], |db.runs|) && lines[k].invoice in ids)
    && (forall j, k :: 0 <= j < k < |lines| ==> lines[j].invoice != lines[k].invoice)
    && (forall i :: 0 <= i < |ids| ==> exists k :: 0 <= k < |lines| && lines[k].invoice == ids[i])
  }

  /** The run is a draft of its maker over what its lines pay; each invoice named gets
      one line, however often it was named. */
  lemma RunIsPlanned(db: Db, ids: seq<nat>, maker: string)
    requires CreateRun(db, ids, maker).Done?
    ensures var after, n := CreateRun(db, ids, maker).db, |db.runLines|;
            |after.runLines| >= n
            && var lines := after.runLines[n..];
               after == db.(runs := db.runs + [Run(maker, None, None, RunDraft, Sum(Nets(lines)))],
                            runLines := db.runLines + lines)
               && PlansEach(db, lines, ids)
  {
    LedgerSafety.PlannedOutcome(db, ids, maker);
    RunNeedsPayable(db, ids, maker);
    UniqueCovers(ids);
    AllOfBoth(db, ids, Unique(ids));
    LinesArePlanned(db, Unique(ids));
    var lines := PlannedLines(db, Unique(ids), |db.runs|);
    assert After(db, CreateRun(db, ids, maker)).runLines[|db.runLines|..] == lines;
    OneLineEach(db, lines, ids);
  }

  lemma OneLineEach(db: Db, lines: seq<RunLine>, ids: seq<nat>)
    requires |lines| == |Unique(ids)|
    requires forall k :: 0 <= k < |lines| ==>
               lines[k].invoice == Unique(ids)[k] && PlansInvoice(db, lines[k], |db.runs|)
    ensures PlansEach(db, lines, ids)
  {
    UniqueCovers(ids);
    forall i | 0 <= i < |ids| ensures exists k :: 0 <= k < |lines| && lines[k].invoice == ids[i] {
      assert ids[i] in Unique(ids);
      var k :| 0 <= k < |Unique(ids)| && Unique(ids)[k] == ids[i];
      assert lines[k].invoice == ids[i];
    }
  }

  lemma LineIsPlanned(db: Db, i: nat, run: nat)
    requires Payable(db, i)
    ensures SnapshotFor(db, db.invoices[i]).Some?
    ensures var line := RunLine(run, i, NetPayable(db.invoices[i]), SnapshotFor(db, db.invoices[i]).value, Planned);
            PlansInvoice(db, line, run)
  {
    SnapshotIsFrozen(db, db.invoices[i]);
  }

  lemma LinesArePlanned(db: Db, ids: seq<nat>)
    requires IdsIn(ids, db.invoices) && forall k :: 0 <= k < |ids| ==> Payable(db, ids[k])
    ensures AllFreezable(db, ids)
    ensures var lines := PlannedLines(db, ids, |db.runs|);
            Nets(lines) == NetsOf(db, ids)
            && forall k :: 0 <= k < |ids| ==> lines[k].invoice == ids[k] && PlansInvoice(db, lines[k], |db.runs|)
  {
    forall k | 0 <= k < |ids|
      ensures SnapshotFor(db, db.invoices[ids[k]]).Some?
      ensures PlansInvoice(db, RunLine(|db.runs|, ids[k], NetPayable(db.invoices[ids[k]]),
                                       SnapshotFor(db, db.invoices[ids[k]]).value, Planned), |db.runs|)
    {
      LineIsPlanned(db, ids[k], |db.runs|);
    }
  }

  predicate ReadyFor(db: Db, i: nat) {
    i < |db.invoices| && db.invoices[i].vendor < |db.vendors|
    && BankReady(db.invoices[i], db.vendors[db.invoices[i].vendor])
  }

  /** Everything the run asks of the invoice before it freezes accounts. */
  predicate ReadyToFreeze(db: Db, i: nat) {
    i < |db.invoices|
    && var inv := db.invoices[i];
       inv.status == MatchedStatus
       && (inv.po.Some? ==> inv.po.value < |db.pos| && db.pos[inv.po.value].status != PoCancelled)
       && (inv.vendor < |db.vendors| ==>
             var bank := db.vendors[inv.vendor].bank;
             bank.account.Account? && bank.verifiedAt.Some? && bank.verifiedBy.Some? && bank.changedAt.None?
             && bank.submittedBy.None?)
  }

  function GoneOrIncomplete(db: Db, i: nat): Refusal {
    if i < |db.invoices| && db.invoices[i].vendor < |db.vendors| then BadRequest else NotFound
  }

  lemma FirstUnreadyGate(db: Db, ids: seq<nat>, k: nat)
    requires IdsIn(ids, db.invoices) && k < |ids|
    requires forall j :: 0 <= j < |ids| ==> ReadyToFreeze(db, ids[j])
    requires forall j :: 0 <= j < k ==> ReadyFor(db, ids[j])
    requires !ReadyFor(db, ids[k])
    ensures FreezeGate(db, ids) == Some(GoneOrIncomplete(db, ids[k]))
  {
    forall j | 0 <= j < |ids| ensures ReadyFor(db, ids[j]) <==> SnapshotFor(db, db.invoices[ids[j]]).Some? {
      assert ReadyToFreeze(db, ids[j]);
      SnapshotIsFrozen(db, db.invoices[ids[j]]);
    }
    assert AllFreezable(db, ids[..k]);
    assert !AllFreezable(db, ids);
    forall j | k < j < |ids| ensures !AllFreezable(db, ids[..j]) {
      assert ids[..j][k] == ids[k];
    }
  }

  /** The first invoice whose account cannot be frozen decides the refusal: not found if
      its vendor is gone, and otherwise a bad request. */
  lemma FirstUnreadyDecides(db: Db, ids: seq<nat>, maker: string, k: nat)
    requires |ids| > 0 && k < |Unique(ids)| && IdsIn(Unique(ids), db.invoices)
    requires forall j :: 0 <= j < |Unique(ids)| ==> ReadyToFreeze(db, Unique(ids)[j])
    requires forall j :: 0 <= j < k ==> ReadyFor(db, Unique(ids)[j])
    requires !ReadyFor(db, Unique(ids)[k])
    ensures CreateRun(db, ids, maker) == Refused(GoneOrIncomplete(db, Unique(ids)[k]))
  {
    FirstUnreadyGate(db, Unique(ids), k);
    EarlierGatesPass(db, Unique(ids));
  }

  lemma EarlierGatesPass(db: Db, ids: seq<nat>)
    requires IdsIn(ids, db.invoices)
    requires forall j :: 0 <= j < |ids| ==> ReadyToFreeze(db, ids[j])
    ensures !SomeUnverified(db, ids) && AllMatched(db.invoices, ids) && AllLive(db, ids)
  {
    forall j | 0 <= j < |ids|
      ensures db.invoices[ids[j]].status == MatchedStatus && OrderIsLive(db, db.invoices[ids[j]])
      ensures db.invoices[ids[j]].vendor < |db.vendors| ==>
                !UnverifiedBank(db.vendors[db.invoices[ids[j]].vendor].bank)
    {
      assert ReadyToFreeze(db, ids[j]);
    }
  }

  /** How a run over no invoices, unknown ones or unmatched ones is refused. */
  lemma EarlyRefusals(db: Db, ids: seq<nat>, maker: string)
    ensures |ids| == 0 ==> CreateRun(db, ids, maker) == Refused(BadRequest)
    ensures (exists k :: 0 <= k < |ids| && ids[k] >= |db.invoices|) ==>
              CreateRun(db, ids, maker) == Refused(NotFound)
    ensures IdsIn(ids, db.invoices)
            && (exists k :: 0 <= k < |ids| && db.invoices[ids[k]].status != MatchedStatus) ==>
              CreateRun(db, ids, maker) == Refused(BadRequest)
  {
    UniqueCovers(ids);
    assert forall k :: 0 <= k < |ids| ==> ids[k] in Unique(ids);
    assert IdsIn(ids, db.invoices) <==> IdsIn(Unique(ids), db.invoices) by {
      assert IdsIn(Unique(ids), db.invoices) ==> forall id :: id in Unique(ids) ==> id < |db.invoices|;
      assert IdsIn(ids, db.invoices) ==> forall id :: id in ids ==> id < |db.invoices|;
    }
    if IdsIn(ids, db.invoices) && AllMatched(db.invoices, Unique(ids)) {
      forall k | 0 <= k < |ids| ensures db.invoices[ids[k]].status == MatchedStatus {
        var j :| 0 <= j < |Unique(ids)| && Unique(ids)[j] == ids[k];
      }
    }
  }

  lemma AllCanBeFrozen(db: Db, ids: seq<nat>)
    requires IdsIn(ids, db.invoices) && forall j :: 0 <= j < |ids| ==> ReadyFor(db, ids[j])
    ensures FreezeGate(db, ids).None?
  {
    forall j | 0 <= j < |ids| ensures SnapshotFor(db, db.invoices[ids[j]]).Some? {
      assert ReadyFor(db, ids[j]);
      SnapshotIsFrozen(db, db.invoices[ids[j]]);
    }
    assert AllFreezable(db, ids);
    forall k | 0 <= k < |ids| ensures db.invoices[ids[k]].vendor < |db.vendors| {
      assert ReadyFor(db, ids[k]);
    }
  }

  /** All amounts in pesos, and what is due fits its column. */
  predicate Fitting(db: Db, ids: seq<nat>)
    requires IdsIn(ids, db.invoices)
  {
    (forall j :: 0 <= j < |ids| ==> db.invoices[ids[j]].currency == "PHP") && FitsColumn(Sum(DueOn(db, ids)))
  }

  lemma FittingMeans(db: Db, ids: seq<nat>)
    requires IdsIn(ids, db.invoices)
    ensures Fitting(db, ids) <==> AllInPesos(db.invoices, ids) && IsDatabaseInt(Sum(NetsOf(db, ids)))
  {
    assert NetsOf(db, ids) == DueOn(db, ids);
  }

  lemma RefusalIsGate(db: Db, ids: seq<nat>, maker: string)
    requires |ids| > 0 && IdsIn(Unique(ids), db.invoices) && CreateRun(db, ids, maker).Refused?
    ensures PlanningGate(db, Unique(ids)) == Some(CreateRun(db, ids, maker).why)
  {
  }

  lemma LateGates(db: Db, ids: seq<nat>)
    requires IdsIn(ids, db.invoices)
    requires !SomeUnverified(db, ids) && AllMatched(db.invoices, ids) && AllLive(db, ids) && FreezeGate(db, ids).None?
    ensures PlanningGate(db, ids).Some? ==>
              PlanningGate(db, ids).value == (if Fitting(db, ids) then Conflict else BadRequest)
  {
    FittingMeans(db, ids);
  }

  /** Once every account could be frozen: a foreign currency or a total that does not
      fit, and then an invoice that another run plans. */
  lemma LateRefusals(db: Db, ids: seq<nat>, maker: string)
    requires |ids| > 0 && IdsIn(Unique(ids), db.invoices)
    requires forall j :: 0 <= j < |Unique(ids)| ==> ReadyToFreeze(db, Unique(ids)[j])
    requires forall j :: 0 <= j < |Unique(ids)| ==> ReadyFor(db, Unique(ids)[j])
    ensures CreateRun(db, ids, maker).Refused? ==>
              CreateRun(db, ids, maker).why == (if Fitting(db, Unique(ids)) then Conflict else BadRequest)
  {
    if CreateRun(db, ids, maker).Refused? {
      RefusalIsGate(db, ids, maker);
      EarlierGatesPass(db, Unique(ids));
      AllCanBeFrozen(db, Unique(ids));
      LateGates(db, Unique(ids));
    }
  }

  // ----- The moves of a run -----

  /** A draft is approved by somebody other than its maker. */
  lemma RunIsApproved(db: Db, r: nat, actor: string)
    ensures ApproveRun(db, r, actor).Done?
       <==> r < |db.runs| && db.runs[r].status == RunDraft && db.runs[r].createdBy != actor
    ensures ApproveRun(db, r, actor).Refused? ==>
              ApproveRun(db, r, actor).why
              == (if r >= |db.runs| then NotFound
                  else if db.runs[r].status != RunDraft then Conflict
                  else BadRequest)
    ensures ApproveRun(db, r, actor).Done? ==>
              ApproveRun(db, r, actor).db
              == db.(runs := db.runs[r := db.runs[r].(status := RunApproved, approvedBy := Some(actor))])
  {
  }

  /** An approved run is executed. */
  lemma RunIsExecuted(db: Db, r: nat)
    ensures ExecuteRun(db, r).Done? <==> r < |db.runs| && db.runs[r].status == RunApproved
    ensures ExecuteRun(db, r).Refused? ==> ExecuteRun(db, r).why == (if r < |db.runs| then Conflict else NotFound)
    ensures ExecuteRun(db, r).Done? ==>
              ExecuteRun(db, r).db == db.(runs := db.runs[r := db.runs[r].(status := RunExecuted)])
  {
  }

  /** A draft is voided by anybody with a reason, an approved run only by somebody
      other than its maker; an executed run is not. */
  lemma RunIsVoided(db: Db, r: nat, actor: string, blankReason: bool)
    ensures VoidRun(db, r, actor, blankReason).Done?
       <==> !blankReason && r < |db.runs|
            && (db.runs[r].status == RunDraft
                || (db.runs[r].status == RunApproved && db.runs[r].createdBy != actor))
    ensures VoidRun(db, r, actor, blankReason).Refused? ==>
              VoidRun(db, r, actor, blankReason).why
              == (if blankReason then BadRequest
                  else if r >= |db.runs| then NotFound
                  else if db.runs[r].status == RunApproved then BadRequest
                  else Conflict)
    ensures VoidRun(db, r, actor, blankReason).Done? ==>
              VoidRun(db, r, actor, blankReason).db
              == db.(runs := db.runs[r := db.runs[r].(status := RunVoided, voidedBy := Some(actor))])
  {
  }

  // ----- Reconciliation -----

  /** The line is one of an executed run and still waits for the bank. */
  predicate Reconcilable(db: Db, r: nat, l: nat) {
    r < |db.runs| && db.runs[r].status == RunExecuted
    && l < |db.runLines| && db.runLines[l].run == r && db.runLines[l].status == Planned
  }

  /** The line now says what the bank said. */
  predicate Answered(before: RunLine, after: RunLine, outcome: BankOutcome) {
    after == before.(status := after.status)
    && (after.status == LinePaid <==> outcome == BankPaid)
    && (after.status == Dishonored <==> outcome == BankDishonored)
    && (after.status == LineRejected <==> outcome == BankRejected)
  }

  /** The budget the invoice is paid from, if its order names one. */
  function PayingBudget(db: Db, inv: Invoice): Option<nat> {
    if inv.po.Some? && inv.po.value < |db.pos| && db.pos[inv.po.value].requisition < |db.reqs|
       && db.reqs[db.pos[inv.po.value].requisition].budget.Some?
       && db.reqs[db.pos[inv.po.value].requisition].budget.value < |db.budgets|
    then db.reqs[db.pos[inv.po.value].requisition].budget
    else None
  }

  /** The invoice is paid, and its amount moved from committed, which does not go below
      zero, to spent; an invoice that was paid already moves nothing. */
  predicate PaysInvoice(db: Db, after: Db, i: nat)
    requires i < |db.invoices|
  {
    var inv := db.invoices[i];
    if inv.status == Paid then after.invoices == db.invoices && after.budgets == db.budgets
    else
      after.invoices == db.invoices[i := inv.(status := Paid)]
      && var b := PayingBudget(db, inv);
         if b.None? then after.budgets == db.budgets
         else
           |after.budgets| == |db.budgets|
           && after.budgets == db.budgets[b.value := after.budgets[b.value]]
           && var was, now := db.budgets[b.value], after.budgets[b.value];
              now.currency == was.currency && now.limit == was.limit && now.spent == was.spent + inv.amount
              && now.committed == (if was.committed <= inv.amount then 0 else was.committed - inv.amount)
  }

  /** The bank's answer is taken once, for a waiting line of an executed run. It is
      written on that line alone; "paid" pays the invoice, and any other answer leaves
      invoices and budgets alone; the run is reconciled exactly when no line of it
      waits any more. */
  lemma LineIsReconciled(db: Db, r: nat, l: nat, outcome: BankOutcome)
    ensures Reconcile(db, r, l, outcome).Done?
       <==> Reconcilable(db, r, l) && (outcome == BankPaid ==> db.runLines[l].invoice < |db.invoices|)
    ensures Reconcile(db, r, l, outcome).Refused? ==>
              Reconcile(db, r, l, outcome).why
              == (if r < |db.runs| && (db.runs[r].status != RunExecuted
                                       || (l < |db.runLines| && db.runLines[l].run == r
                                           && db.runLines[l].status != Planned))
                  then Conflict else NotFound)
    ensures Reconcile(db, r, l, outcome).Done? ==>
              var after := Reconcile(db, r, l, outcome).db;
              |after.runLines| == |db.runLines|
              && after == db.(runLines := db.runLines[l := after.runLines[l]], invoices := after.invoices,
                              budgets := after.budgets, runs := after.runs)
              && Answered(db.runLines[l], after.runLines[l], outcome)
              && (outcome == BankPaid ==> PaysInvoice(db, after, db.runLines[l].invoice))
              && (outcome != BankPaid ==> after.invoices == db.invoices && after.budgets == db.budgets)
              && after.runs
                 == (if exists k :: 0 <= k < |db.runLines| && k != l && db.runLines[k].run == r
                                    && db.runLines[k].status == Planned
                     then db.runs else db.runs[r := db.runs[r].(status := RunReconciled)])
  {
    if Reconcile(db, r, l, outcome).Done? {
      var after := Reconcile(db, r, l, outcome).db;
      assert forall k :: 0 <= k < |db.runLines| && k != l ==> after.runLines[k] == db.runLines[k];
    }
  }
}

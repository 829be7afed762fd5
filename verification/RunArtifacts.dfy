/** What a payment run hands to the bank and to the books. In every reachable
    database both are built from frozen rows that still add up. */
module RunArtifacts {
  import opened Common
  import opened Sums
  import opened Text
  import opened LedgerModel
  import opened LedgerSteps
  import opened LedgerTheorems
  import Batch
  import Journal
  import Pain001
  import Sorting
  import Pain001Document
  import PaymentMessage

  /** The lines of run `r` among the first `n` rows, by row identifier. */
  function LineIds(runLines: seq<RunLine>, r: nat, n: nat): (ids: seq<nat>)
    requires n <= |runLines|
    ensures forall k :: 0 <= k < |ids| ==> ids[k] < n && runLines[ids[k]].run == r
  {
    if n == 0 then []
    else if runLines[n - 1].run == r then LineIds(runLines, r, n - 1) + [n - 1]
    else LineIds(runLines, r, n - 1)
  }

  /** The query has no order: any permutation of the run's lines may come back. */
  ghost predicate Reads(db: Db, r: nat, rows: seq<nat>) {
    multiset(rows) == multiset(LineIds(db.runLines, r, |db.runLines|))
  }

  lemma ReadsLinesOfRun(db: Db, r: nat, rows: seq<nat>)
    requires Reads(db, r, rows)
    ensures forall k :: 0 <= k < |rows| ==> rows[k] < |db.runLines| && db.runLines[rows[k]].run == r
  {
    forall k | 0 <= k < |rows| ensures rows[k] < |db.runLines| && db.runLines[rows[k]].run == r {
      assert rows[k] in multiset(rows);
      assert rows[k] in LineIds(db.runLines, r, |db.runLines|);
    }
  }

  predicate RowsIn(rows: seq<nat>, db: Db) {
    forall k :: 0 <= k < |rows| ==> rows[k] < |db.runLines|
  }

  function NetsRead(db: Db, rows: seq<nat>): seq<int>
    requires RowsIn(rows, db)
  {
    seq(|rows|, k requires 0 <= k < |rows| => db.runLines[rows[k]].net)
  }

  lemma NetsReadWithout(db: Db, rows: seq<nat>, k: nat)
    requires RowsIn(rows, db) && k < |rows|
    ensures RowsIn(Without(rows, k), db)
    ensures Sum(NetsRead(db, Without(rows, k))) == Sum(NetsRead(db, rows)) - db.runLines[rows[k]].net
  {
    SumWithout(NetsRead(db, rows), k);
    assert NetsRead(db, Without(rows, k)) == Without(NetsRead(db, rows), k);
  }

  /** Reading the same rows in another order reads the same total. */
  lemma {:induction false} NetsReadAgree(db: Db, a: seq<nat>, b: seq<nat>)
    requires RowsIn(a, db) && RowsIn(b, db) && multiset(a) == multiset(b)
    ensures Sum(NetsRead(db, a)) == Sum(NetsRead(db, b))
  {
    assert |multiset(a)| == |a| && |multiset(b)| == |b|;
    if |a| > 0 {
      assert a[0] in multiset(b);
      var k :| 0 <= k < |b| && b[k] == a[0];
      WithoutMultiset(a, 0);
      WithoutMultiset(b, k);
      NetsReadWithout(db, a, 0);
      NetsReadWithout(db, b, k);
      NetsReadAgree(db, Without(a, 0), Without(b, k));
    }
  }

  lemma {:induction false} NetsOfLineIds(db: Db, r: nat, n: nat)
    requires n <= |db.runLines|
    ensures Sum(NetsRead(db, LineIds(db.runLines, r, n))) == Sum(RunNets(db.runLines, r)[..n])
  {
    if n > 0 {
      NetsOfLineIds(db, r, n - 1);
      assert RunNets(db.runLines, r)[..n][..n - 1] == RunNets(db.runLines, r)[..n - 1];
      var before := LineIds(db.runLines, r, n - 1);
      if db.runLines[n - 1].run == r {
        assert NetsRead(db, before + [n - 1])[..|before|] == NetsRead(db, before);
      }
    }
  }

  /** Whatever order the query uses, the rows add up to the run's frozen total. */
  lemma RowsAddUp(db: Db, r: nat, rows: seq<nat>)
    requires Inv(db) && r < |db.runs| && Reads(db, r, rows)
    ensures RowsIn(rows, db) && Sum(NetsRead(db, rows)) == db.runs[r].total
  {
    ReadsLinesOfRun(db, r, rows);
    var ids := LineIds(db.runLines, r, |db.runLines|);
    NetsReadAgree(db, rows, ids);
    NetsOfLineIds(db, r, |db.runLines|);
    assert RunNets(db.runLines, r)[..|db.runLines|] == RunNets(db.runLines, r);
  }

  // ----- The bank batch -----

  /** The inputs of a batch that the ledger does not hold. */
  datatype Stamp = Stamp(runNumber: string, executedAt: string, currency: string)

  function CreditInputOf(db: Db, row: nat, currency: string): Batch.CreditInput
    requires row < |db.runLines|
  {
    var l := db.runLines[row];
    Batch.CreditInput(IntToString(row), IntToString(l.invoice), l.net, currency, l.snapshot.invoiceNumber,
                      l.snapshot.vendorName, l.snapshot.vendorTaxId, Batch.AsRecord(l.snapshot.beneficiary))
  }

  function CreditInputs(db: Db, rows: seq<nat>, currency: string): seq<Batch.CreditInput>
    requires RowsIn(rows, db)
  {
    seq(|rows|, k requires 0 <= k < |rows| => CreditInputOf(db, rows[k], currency))
  }

  datatype Generated = BatchRefused(why: Refusal) | BatchOf(manifest: Batch.BatchManifest)

  function GenerateBatch(db: Db, cmp: Batch.Collation, r: nat, rows: seq<nat>, stamp: Stamp): Generated
    requires RowsIn(rows, db)
  {
    if r >= |db.runs| then BatchRefused(NotFound)
    else if db.runs[r].status != RunApproved && db.runs[r].status != RunExecuted then BatchRefused(Conflict)
    else if exists k :: 0 <= k < |rows| && !Batch.SnapshotSchema(db.runLines[rows[k]].snapshot)
    then BatchRefused(BadRequest)
    else
      match Batch.BuildPaymentBatch(cmp, stamp.runNumber, stamp.executedAt, stamp.currency, db.runs[r].total,
                                    CreditInputs(db, rows, stamp.currency))
      case BatchBuilt(m) => BatchOf(m)
      case _ => BatchRefused(BadRequest)
  }

  /** For an approved or executed run that the service created, the batch is never
      refused for imbalance or unusable beneficiaries, it pays exactly the run's
      total, and it does not depend on the order in which the rows were read. */
  lemma BatchIsNeverRefused(history: seq<Event>, cmp: Batch.Collation, r: nat, rows: seq<nat>, stamp: Stamp)
    requires var db := LedgerSteps.Replay(history);
             r < |db.runs| && (db.runs[r].status == RunApproved || db.runs[r].status == RunExecuted)
             && Reads(db, r, rows)
    ensures var db := LedgerSteps.Replay(history);
            RowsIn(rows, db)
            && var g := GenerateBatch(db, cmp, r, rows, stamp);
               g.BatchOf? && g.manifest.totalMinor == db.runs[r].total
               && Sum(Batch.CreditAmounts(g.manifest.credits)) == db.runs[r].total
               && |g.manifest.credits| == |rows|
  {
    var db := LedgerSteps.Replay(history);
    EveryHistoryIsSafe(history);
    RowsAddUp(db, r, rows);
    SnapshotsAreUsable(db, rows);
    BatchOfRows(db, cmp, r, rows, stamp);
  }

  /** The credit pays the row what is due to the account that was frozen on it. */
  predicate PaysRow(db: Db, c: Batch.Credit, row: nat, currency: string)
    requires row < |db.runLines|
  {
    var l := db.runLines[row];
    c.lineId == IntToString(row) && c.invoiceId == IntToString(l.invoice)
    && c.amountMinor == l.net && c.currencyCode == currency
    && c.invoiceNumber == l.snapshot.invoiceNumber && c.vendorName == l.snapshot.vendorName
    && c.vendorTaxId == l.snapshot.vendorTaxId && c.beneficiary == l.snapshot.beneficiary
  }

  /** In the batch of such a run every credit pays one of its rows, and every row is
      paid by a credit; there are as many of the ones as of the others. */
  lemma EveryRowIsPaid(history: seq<Event>, cmp: Batch.Collation, r: nat, rows: seq<nat>, stamp: Stamp)
    requires var db := LedgerSteps.Replay(history);
             r < |db.runs| && (db.runs[r].status == RunApproved || db.runs[r].status == RunExecuted)
             && Reads(db, r, rows)
    ensures var db := LedgerSteps.Replay(history);
            RowsIn(rows, db)
            && var g := GenerateBatch(db, cmp, r, rows, stamp);
               g.BatchOf? && CreditsPayRows(db, g.manifest.credits, rows, stamp.currency)
  {
    var db := LedgerSteps.Replay(history);
    EveryHistoryIsSafe(history);
    BatchIsNeverRefused(history, cmp, r, rows, stamp);
    SnapshotsAreUsable(db, rows);
    RowsArePaid(db, cmp, r, rows, stamp);
  }

  predicate CreditsPayRows(db: Db, credits: seq<Batch.Credit>, rows: seq<nat>, currency: string)
    requires RowsIn(rows, db)
  {
    |credits| == |rows|
    && (forall i :: 0 <= i < |credits| ==> PaysSomeRow(db, credits[i], rows, currency))
    && forall k :: 0 <= k < |rows| ==> IsPaid(db, credits, rows[k], currency)
  }

  predicate PaysSomeRow(db: Db, c: Batch.Credit, rows: seq<nat>, currency: string)
    requires RowsIn(rows, db)
  {
    exists k :: 0 <= k < |rows| && PaysRow(db, c, rows[k], currency)
  }

  predicate IsPaid(db: Db, credits: seq<Batch.Credit>, row: nat, currency: string)
    requires row < |db.runLines|
  {
    exists i :: 0 <= i < |credits| && PaysRow(db, credits[i], row, currency)
  }

  lemma FrozenAccountIsPaid(db: Db, c: Batch.Credit, row: nat, currency: string)
    requires row < |db.runLines| && Batch.UsableSnapshot(db.runLines[row].snapshot)
    requires Batch.Pays(c, CreditInputOf(db, row, currency))
    ensures PaysRow(db, c, row, currency)
  {
    Batch.UsableAccount(Batch.AsRecord(db.runLines[row].snapshot.beneficiary));
  }

  lemma RowsArePaid(db: Db, cmp: Batch.Collation, r: nat, rows: seq<nat>, stamp: Stamp)
    requires RowsIn(rows, db) && GenerateBatch(db, cmp, r, rows, stamp).BatchOf?
    requires forall k :: 0 <= k < |rows| ==> Batch.UsableSnapshot(db.runLines[rows[k]].snapshot)
    ensures CreditsPayRows(db, GenerateBatch(db, cmp, r, rows, stamp).manifest.credits, rows, stamp.currency)
  {
    var inputs := CreditInputs(db, rows, stamp.currency);
    Batch.BatchConserves(cmp, stamp.runNumber, stamp.executedAt, stamp.currency, db.runs[r].total, inputs);
    var sorted := Batch.SortCredits(cmp, inputs);
    SortedRowsArePaid(db, GenerateBatch(db, cmp, r, rows, stamp).manifest.credits, rows, sorted, stamp.currency);
  }

  lemma CreditHasRow(db: Db, c: Batch.Credit, x: Batch.CreditInput, rows: seq<nat>, currency: string)
    requires RowsIn(rows, db) && x in CreditInputs(db, rows, currency) && Batch.Pays(c, x)
    requires forall k :: 0 <= k < |rows| ==> Batch.UsableSnapshot(db.runLines[rows[k]].snapshot)
    ensures PaysSomeRow(db, c, rows, currency)
  {
    var k :| 0 <= k < |rows| && CreditInputs(db, rows, currency)[k] == x;
    FrozenAccountIsPaid(db, c, rows[k], currency);
  }

  lemma RowHasCredit(db: Db, credits: seq<Batch.Credit>, sorted: seq<Batch.CreditInput>, row: nat, currency: string)
    requires row < |db.runLines| && Batch.UsableSnapshot(db.runLines[row].snapshot)
    requires CreditInputOf(db, row, currency) in sorted && |credits| == |sorted|
    requires forall i :: 0 <= i < |credits| ==> Batch.Pays(credits[i], sorted[i])
    ensures IsPaid(db, credits, row, currency)
  {
    var i :| 0 <= i < |sorted| && sorted[i] == CreditInputOf(db, row, currency);
    FrozenAccountIsPaid(db, credits[i], row, currency);
  }

  lemma SortedRowsArePaid(db: Db, credits: seq<Batch.Credit>, rows: seq<nat>, sorted: seq<Batch.CreditInput>,
                          currency: string)
    requires RowsIn(rows, db) && Batch.PaysEach(credits, CreditInputs(db, rows, currency), sorted)
    requires forall k :: 0 <= k < |rows| ==> Batch.UsableSnapshot(db.runLines[rows[k]].snapshot)
    ensures CreditsPayRows(db, credits, rows, currency)
  {
    var inputs := CreditInputs(db, rows, currency);
    Sorting.SameElements(sorted, inputs);
    forall i | 0 <= i < |credits| ensures PaysSomeRow(db, credits[i], rows, currency) {
      assert sorted[i] in inputs;
      CreditHasRow(db, credits[i], sorted[i], rows, currency);
    }
    forall k | 0 <= k < |rows| ensures IsPaid(db, credits, rows[k], currency) {
      assert inputs[k] in sorted;
      RowHasCredit(db, credits, sorted, rows[k], currency);
    }
  }

  lemma BatchOfRows(db: Db, cmp: Batch.Collation, r: nat, rows: seq<nat>, stamp: Stamp)
    requires r < |db.runs| && (db.runs[r].status == RunApproved || db.runs[r].status == RunExecuted)
    requires RowsIn(rows, db) && Sum(NetsRead(db, rows)) == db.runs[r].total
    requires forall k :: 0 <= k < |rows| ==> Batch.UsableSnapshot(db.runLines[rows[k]].snapshot)
    requires Batch.AllUsable(CreditInputs(db, rows, stamp.currency))
    ensures var g := GenerateBatch(db, cmp, r, rows, stamp);
            g.BatchOf? && g.manifest.totalMinor == db.runs[r].total
            && Sum(Batch.CreditAmounts(g.manifest.credits)) == db.runs[r].total
            && |g.manifest.credits| == |rows|
  {
    var inputs := CreditInputs(db, rows, stamp.currency);
    assert Batch.Nets(inputs) == NetsRead(db, rows);
    Batch.BatchConserves(cmp, stamp.runNumber, stamp.executedAt, stamp.currency, db.runs[r].total, inputs);
  }

  lemma SnapshotsAreUsable(db: Db, rows: seq<nat>)
    requires Inv(db) && RowsIn(rows, db)
    ensures forall k :: 0 <= k < |rows| ==> Batch.UsableSnapshot(db.runLines[rows[k]].snapshot)
    ensures forall currency :: Batch.AllUsable(CreditInputs(db, rows, currency))
  {
    forall k | 0 <= k < |rows| ensures Batch.UsableSnapshot(db.runLines[rows[k]].snapshot) {
      assert RunLineOk(db.invoices, db.runs, db.runLines[rows[k]]);
    }
  }

  lemma EachNetFits(db: Db, r: nat, rows: seq<nat>)
    requires Inv(db) && r < |db.runs| && RowsIn(rows, db) && Sum(NetsRead(db, rows)) == db.runs[r].total
    ensures forall k :: 0 <= k < |rows| ==> IsDatabaseInt(db.runLines[rows[k]].net)
    ensures IsDatabaseInt(db.runs[r].total)
  {
    RowFacts(db, rows);
    assert RunOk(db.runs[r]);
    var nets := NetsRead(db, rows);
    forall k | 0 <= k < |rows| ensures IsDatabaseInt(db.runLines[rows[k]].net) {
      SumCoversEach(nets, k);
    }
  }

  /** The credit-transfer message of such a run is never refused either: it comes
      exactly when both debtor settings hold text, and both of its control sums
      parse to the run's frozen total. */
  lemma MessageOfRun(history: seq<Event>, cmp: Batch.Collation, r: nat, rows: seq<nat>, stamp: Stamp,
                     name: Option<string>, account: Option<string>)
    requires var db := LedgerSteps.Replay(history);
             r < |db.runs| && (db.runs[r].status == RunApproved || db.runs[r].status == RunExecuted)
             && Reads(db, r, rows)
    ensures var db := LedgerSteps.Replay(history);
            RowsIn(rows, db)
            && var g := GenerateBatch(db, cmp, r, rows, stamp);
               g.BatchOf?
               && var e := PaymentMessage.EmitFor(g.manifest, name, account);
                  (e.Emitted? <==> Batch.TrimmedOrEmpty(name) != "" && Batch.TrimmedOrEmpty(account) != "")
                  && !e.UnsafeAmount?
                  && (e.Emitted? ==> PaysTotal(Pain001Document.ReadElements(e.xml), |rows|, db.runs[r].total))
  {
    var db := LedgerSteps.Replay(history);
    EveryHistoryIsSafe(history);
    RowsAddUp(db, r, rows);
    EachNetFits(db, r, rows);
    BatchIsNeverRefused(history, cmp, r, rows, stamp);
    CreditsAreRows(db, cmp, r, rows, stamp);
    EmissionTotals(GenerateBatch(db, cmp, r, rows, stamp).manifest, name, account);
  }

  /** One instructed amount per line, and both control sums parse to the total. */
  predicate PaysTotal(es: seq<(string, string)>, count: nat, total: int) {
    var sums := PaymentMessage.Values(es, "CtrlSum");
    |sums| == 2 && |PaymentMessage.Values(es, "InstdAmt")| == count
    && forall i :: 0 <= i < 2 ==> Pain001.ParseAmount(sums[i]) == Some(total)
  }

  lemma EmissionTotals(m: Batch.BatchManifest, name: Option<string>, account: Option<string>)
    requires forall i :: 0 <= i < |m.credits| ==> IsDatabaseInt(m.credits[i].amountMinor)
    requires IsDatabaseInt(m.totalMinor)
    ensures var e := PaymentMessage.EmitFor(m, name, account);
            (e.Emitted? <==> Batch.TrimmedOrEmpty(name) != "" && Batch.TrimmedOrEmpty(account) != "")
            && !e.UnsafeAmount?
            && (e.Emitted? ==> PaysTotal(Pain001Document.ReadElements(e.xml), |m.credits|, m.totalMinor))
  {
    var debtor := PaymentMessage.ResolveDebtor(name, account);
    if debtor.Some? {
      MessageTotals(m, debtor.value);
    }
  }

  lemma MessageTotals(m: Batch.BatchManifest, debtor: PaymentMessage.Debtor)
    requires forall i :: 0 <= i < |m.credits| ==> IsDatabaseInt(m.credits[i].amountMinor)
    requires IsDatabaseInt(m.totalMinor)
    ensures var xml := PaymentMessage.BuildPain001(m, debtor);
            xml.Some? && PaysTotal(Pain001Document.ReadElements(xml.value), |m.credits|, m.totalMinor)
  {
    var es := Pain001Document.ReadElements(PaymentMessage.BuildPain001(m, debtor).value);
    PaymentMessage.MessageValues(m, debtor);
    SumsParse(m.totalMinor, PaymentMessage.Values(es, "CtrlSum"));
  }

  lemma SumsParse(total: int, sums: seq<string>)
    requires IsDatabaseInt(total) && sums == [PaymentMessage.Amount(total), PaymentMessage.Amount(total)]
    ensures forall i :: 0 <= i < 2 ==> Pain001.ParseAmount(sums[i]) == Some(total)
  {
    PaymentMessage.AmountIsPlain(total);
  }

  lemma SortedNetsFit(cmp: Batch.Collation, inputs: seq<Batch.CreditInput>)
    requires forall k :: 0 <= k < |inputs| ==> IsDatabaseInt(inputs[k].netMinor)
    ensures var sorted := Batch.SortCredits(cmp, inputs);
            forall i :: 0 <= i < |sorted| ==> IsDatabaseInt(sorted[i].netMinor)
  {
    var sorted := Batch.SortCredits(cmp, inputs);
    Sorting.SortPermutes(Batch.CreditOrder(cmp), inputs);
    Sorting.SameElements(sorted, inputs);
    forall i | 0 <= i < |sorted| ensures IsDatabaseInt(sorted[i].netMinor) {
      assert sorted[i] in inputs;
    }
  }

  lemma CreditsAreRows(db: Db, cmp: Batch.Collation, r: nat, rows: seq<nat>, stamp: Stamp)
    requires RowsIn(rows, db) && GenerateBatch(db, cmp, r, rows, stamp).BatchOf?
    requires forall k :: 0 <= k < |rows| ==> IsDatabaseInt(db.runLines[rows[k]].net)
    ensures var m := GenerateBatch(db, cmp, r, rows, stamp).manifest;
            forall i :: 0 <= i < |m.credits| ==> IsDatabaseInt(m.credits[i].amountMinor)
  {
    var inputs := CreditInputs(db, rows, stamp.currency);
    Batch.SortedUsable(cmp, inputs);
    SortedNetsFit(cmp, inputs);
  }

  /** The collation tells row identifiers apart. */
  ghost predicate TellsRowsApart(cmp: Batch.Collation) {
    forall i: nat, j: nat :: cmp(IntToString(i), IntToString(j)) == 0 ==> i == j
  }

  lemma CreditInputsWithout(db: Db, rows: seq<nat>, k: nat, currency: string)
    requires RowsIn(rows, db) && k < |rows|
    ensures RowsIn(Without(rows, k), db)
    ensures multiset(CreditInputs(db, rows, currency))
         == multiset(CreditInputs(db, Without(rows, k), currency)) + multiset{CreditInputOf(db, rows[k], currency)}
  {
    var inputs := CreditInputs(db, rows, currency);
    WithoutMultiset(inputs, k);
    assert CreditInputs(db, Without(rows, k), currency) == Without(inputs, k);
    assert inputs[k] in multiset(inputs);
  }

  lemma {:induction false} CreditInputsPermute(db: Db, a: seq<nat>, b: seq<nat>, currency: string)
    requires RowsIn(a, db) && RowsIn(b, db) && multiset(a) == multiset(b)
    ensures multiset(CreditInputs(db, a, currency)) == multiset(CreditInputs(db, b, currency))
  {
    assert |multiset(a)| == |a| && |multiset(b)| == |b|;
    if |a| > 0 {
      assert a[0] in multiset(b);
      var k :| 0 <= k < |b| && b[k] == a[0];
      WithoutMultiset(a, 0);
      WithoutMultiset(b, k);
      CreditInputsWithout(db, a, 0, currency);
      CreditInputsWithout(db, b, k, currency);
      CreditInputsPermute(db, Without(a, 0), Without(b, k), currency);
    }
  }

  /** Two generations of the same run are identical, whatever order the query
      returned: the hand-off file can be regenerated byte for byte. */
  lemma RegenerationIsIdentical(db: Db, cmp: Batch.Collation, r: nat, a: seq<nat>, b: seq<nat>, stamp: Stamp)
    requires Batch.IsCollation(cmp) && TellsRowsApart(cmp)
    requires RowsIn(a, db) && RowsIn(b, db) && multiset(a) == multiset(b)
    ensures GenerateBatch(db, cmp, r, a, stamp) == GenerateBatch(db, cmp, r, b, stamp)
  {
    var x, y := CreditInputs(db, a, stamp.currency), CreditInputs(db, b, stamp.currency);
    CreditInputsPermute(db, a, b, stamp.currency);
    assert forall k :: 0 <= k < |a| ==> a[k] in multiset(b);
    assert forall k :: 0 <= k < |b| ==> b[k] in multiset(a);
    assert Batch.DistinctIds(cmp, x);
    if r < |db.runs| {
      Batch.BatchIsCanonical(cmp, stamp.runNumber, stamp.executedAt, stamp.currency, db.runs[r].total, x, y);
    }
  }

  // ----- The journal -----

  const UNKNOWN_VENDOR: string := "(unknown vendor)"

  function ManifestInvoiceOf(db: Db, v: nat): Journal.ManifestInvoice
    requires v < |db.invoices|
  {
    var inv := db.invoices[v];
    var known := inv.vendor < |db.vendors|;
    Journal.ManifestInvoice(
      IntToString(v), inv.number,
      if known then db.vendors[inv.vendor].bank.name else UNKNOWN_VENDOR,
      if known then db.vendors[inv.vendor].bank.taxId else None,
      inv.amount, inv.vat, inv.ewt)
  }

  predicate InvoicesFound(db: Db, rows: seq<nat>)
    requires RowsIn(rows, db)
  {
    forall k :: 0 <= k < |rows| ==> db.runLines[rows[k]].invoice < |db.invoices|
  }

  function ManifestInvoices(db: Db, rows: seq<nat>): seq<Journal.ManifestInvoice>
    requires RowsIn(rows, db) && InvoicesFound(db, rows)
  {
    seq(|rows|, k requires 0 <= k < |rows| => ManifestInvoiceOf(db, db.runLines[rows[k]].invoice))
  }

  datatype Export = ExportRefused(why: Refusal) | Exported(manifest: Journal.JournalManifest)

  function BuildForRun(db: Db, r: nat, rows: seq<nat>, stamp: Stamp): Export
    requires RowsIn(rows, db)
  {
    if r >= |db.runs| then ExportRefused(NotFound)
    else if db.runs[r].status != RunExecuted && db.runs[r].status != RunReconciled then ExportRefused(Conflict)
    else if !InvoicesFound(db, rows) then ExportRefused(NotFound)
    else
      var m := Journal.ManifestOf(stamp.runNumber, stamp.executedAt, stamp.currency, ManifestInvoices(db, rows));
      if !Journal.Balanced(m.entries) then ExportRefused(Conflict) else Exported(m)
  }

  lemma RowFacts(db: Db, rows: seq<nat>)
    requires Inv(db) && RowsIn(rows, db)
    ensures InvoicesFound(db, rows)
    ensures forall k :: 0 <= k < |rows| ==>
              db.runLines[rows[k]].net == NetPayable(db.invoices[db.runLines[rows[k]].invoice])
              && InvoiceOk(db.pos, db.invoices[db.runLines[rows[k]].invoice])
  {
    forall k | 0 <= k < |rows|
      ensures db.runLines[rows[k]].invoice < |db.invoices|
              && db.runLines[rows[k]].net == NetPayable(db.invoices[db.runLines[rows[k]].invoice])
              && InvoiceOk(db.pos, db.invoices[db.runLines[rows[k]].invoice])
    {
      assert RunLineOk(db.invoices, db.runs, db.runLines[rows[k]]);
      assert InvoiceOk(db.pos, db.invoices[db.runLines[rows[k]].invoice]);
    }
  }

  /** The journal of an executed or reconciled run: no negative amount, debits
      equal to credits, the run's frozen total; the export is refused exactly
      when all its invoices are worth nothing. */
  lemma JournalOfRun(history: seq<Event>, r: nat, rows: seq<nat>, stamp: Stamp)
    requires var db := LedgerSteps.Replay(history);
             r < |db.runs| && (db.runs[r].status == RunExecuted || db.runs[r].status == RunReconciled)
             && Reads(db, r, rows)
    ensures var db := LedgerSteps.Replay(history);
            RowsIn(rows, db) && InvoicesFound(db, rows)
            && var invoices := ManifestInvoices(db, rows);
               var m := Journal.ManifestOf(stamp.runNumber, stamp.executedAt, stamp.currency, invoices);
               JournalAddsUp(stamp, invoices, db.runs[r].total)
               && BuildForRun(db, r, rows, stamp)
                  == if Sum(Journal.Payables(invoices)) == 0 then ExportRefused(Conflict) else Exported(m)
  {
    var db := LedgerSteps.Replay(history);
    EveryHistoryIsSafe(history);
    RowsAddUp(db, r, rows);
    RowFacts(db, rows);
    JournalOfRows(db, r, rows, stamp);
  }

  /** The journal of the invoices: its total, its two sides, its signs, when it may
      be exported, and what leaves the cash account. */
  predicate JournalAddsUp(stamp: Stamp, invoices: seq<Journal.ManifestInvoice>, total: int) {
    var m := Journal.ManifestOf(stamp.runNumber, stamp.executedAt, stamp.currency, invoices);
    m.total == total
    && Journal.SideTotal(m.entries, Journal.Debit) == Journal.SideTotal(m.entries, Journal.Credit)
    && Journal.EntriesNonnegative(m.entries)
    && (Journal.Balanced(m.entries) <==> Sum(Journal.Payables(invoices)) != 0)
    && Journal.AccountTotal(m.entries, "1010", Journal.Credit) == total
  }

  lemma JournalOfInvoices(stamp: Stamp, invoices: seq<Journal.ManifestInvoice>, total: int)
    requires Sum(Journal.Nets(invoices)) == total
    requires forall i :: 0 <= i < |invoices| ==>
               0 <= invoices[i].amount && 0 <= invoices[i].vat && 0 <= invoices[i].ewt
                   && 0 <= Journal.NetMinor(invoices[i])
    ensures JournalAddsUp(stamp, invoices, total)
  {
    Journal.JournalBalances(stamp.runNumber, stamp.executedAt, stamp.currency, invoices);
    Journal.PostingsNonnegative(invoices, stamp.currency);
    Journal.AccountsAreRight(stamp.runNumber, stamp.executedAt, stamp.currency, invoices);
    SumNonnegative(Journal.Payables(invoices));
  }

  lemma JournalOfRows(db: Db, r: nat, rows: seq<nat>, stamp: Stamp)
    requires r < |db.runs| && RowsIn(rows, db) && InvoicesFound(db, rows)
    requires Sum(NetsRead(db, rows)) == db.runs[r].total
    requires forall k :: 0 <= k < |rows| ==>
               db.runLines[rows[k]].net == NetPayable(db.invoices[db.runLines[rows[k]].invoice])
               && InvoiceOk(db.pos, db.invoices[db.runLines[rows[k]].invoice])
    ensures JournalAddsUp(stamp, ManifestInvoices(db, rows), db.runs[r].total)
  {
    var invoices := ManifestInvoices(db, rows);
    assert Journal.Nets(invoices) == NetsRead(db, rows);
    JournalOfInvoices(stamp, invoices, db.runs[r].total);
  }

  /** Only an approved or executed run has a batch, and only an executed or reconciled
      one a journal. */
  lemma ArtifactsNeedTheirStatus(db: Db, cmp: Batch.Collation, r: nat, rows: seq<nat>, stamp: Stamp)
    requires RowsIn(rows, db)
    ensures r >= |db.runs| ==>
              GenerateBatch(db, cmp, r, rows, stamp) == BatchRefused(NotFound)
              && BuildForRun(db, r, rows, stamp) == ExportRefused(NotFound)
    ensures r < |db.runs| && db.runs[r].status in {RunDraft, RunReconciled, RunVoided} ==>
              GenerateBatch(db, cmp, r, rows, stamp) == BatchRefused(Conflict)
    ensures r < |db.runs| && db.runs[r].status in {RunDraft, RunApproved, RunVoided} ==>
              BuildForRun(db, r, rows, stamp) == ExportRefused(Conflict)
  {
  }

  /** The entry is about the invoice, under the name its vendor has now. */
  predicate IsAbout(db: Db, e: Journal.JournalEntry, v: nat) {
    v < |db.invoices| && e.invoiceId == IntToString(v) && e.invoiceNumber == db.invoices[v].number
    && (if db.invoices[v].vendor < |db.vendors|
        then e.vendorName == db.vendors[db.invoices[v].vendor].bank.name
             && e.vendorTaxId == db.vendors[db.invoices[v].vendor].bank.taxId
        else e.vendorName == "(unknown vendor)" && e.vendorTaxId.None?)
  }

  /** Every entry of an exported journal is about an invoice on a line of the run. */
  lemma JournalIsAboutTheRun(db: Db, r: nat, rows: seq<nat>, stamp: Stamp, j: nat)
    requires RowsIn(rows, db) && BuildForRun(db, r, rows, stamp).Exported?
    requires j < |BuildForRun(db, r, rows, stamp).manifest.entries|
    ensures exists k ::
              0 <= k < |rows|
              && IsAbout(db, BuildForRun(db, r, rows, stamp).manifest.entries[j], db.runLines[rows[k]].invoice)
  {
    var invoices := ManifestInvoices(db, rows);
    var e := BuildForRun(db, r, rows, stamp).manifest.entries[j];
    Journal.EntriesNameInvoices(invoices, stamp.currency);
    var k :| 0 <= k < |invoices| && Journal.PostedFor(e, invoices[k], stamp.currency);
    assert IsAbout(db, e, db.runLines[rows[k]].invoice);
  }
}

/** A reachable executed run that is worth nothing: its journal balances, and its
    export is refused all the same. */
module EmptyRunScenario {
  import opened Sums
  import opened LedgerModel
  import opened LedgerSteps
  import opened PurchaseScenario
  import Journal
  import RunArtifacts

  const NOTHING: seq<Event> := Paying(0, true)

  /** A partial invoice of zero matches, is planned, approved and executed; the one
      line of its run gives a journal of two zero entries, which the balance check
      refuses to export. */
  lemma WorthlessRunIsNotExported(stamp: RunArtifacts.Stamp)
    ensures var db := LedgerSteps.Replay(NOTHING);
            |db.runs| == 1 && db.runs[0].status == RunExecuted
            && RunArtifacts.Reads(db, 0, [0]) && RunArtifacts.RowsIn([0], db) && RunArtifacts.InvoicesFound(db, [0])
            && Sum(Journal.Payables(RunArtifacts.ManifestInvoices(db, [0]))) == 0
            && RunArtifacts.BuildForRun(db, 0, [0], stamp) == RunArtifacts.ExportRefused(Conflict)
  {
    NothingAtAll();
    ExecutedState(0, true);
    OnlyRow();
    NothingPayable(stamp);
  }

  const WORTHLESS: Db := WithRun(0, true, RunExecuted)

  lemma OnlyRow()
    ensures RunArtifacts.LineIds(WORTHLESS.runLines, 0, 1) == [0]
  {
  }

  lemma NothingPayable(stamp: RunArtifacts.Stamp)
    ensures RunArtifacts.RowsIn([0], WORTHLESS) && RunArtifacts.InvoicesFound(WORTHLESS, [0])
    ensures Sum(Journal.Payables(RunArtifacts.ManifestInvoices(WORTHLESS, [0]))) == 0
    ensures RunArtifacts.BuildForRun(WORTHLESS, 0, [0], stamp) == RunArtifacts.ExportRefused(Conflict)
  {
    var invoices := RunArtifacts.ManifestInvoices(WORTHLESS, [0]);
    assert Journal.Payables(invoices) == [0];
    SumOne(0);
    Journal.JournalBalances(stamp.runNumber, stamp.executedAt, stamp.currency, invoices);
  }
}

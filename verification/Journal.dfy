/** The payment journal: one balanced posting per invoice, the balance check and
    the flat file. */
module Journal {
  import opened Common
  import opened Sums
  import opened Text
  import Csv

  const ACCOUNTS_PAYABLE: string := "2010"
  const EWT_WITHHOLDING_PAYABLE: string := "2020"
  const CASH_CLEARING: string := "1010"

  datatype Side = Debit | Credit

  datatype ManifestInvoice = ManifestInvoice(
    invoiceId: string,
    invoiceNumber: string,
    vendorName: string,
    vendorTaxId: Option<string>,
    amount: int,
    vat: int,
    ewt: int)

  datatype JournalEntry = JournalEntry(
    invoiceId: string,
    invoiceNumber: string,
    vendorName: string,
    vendorTaxId: Option<string>,
    account: string,
    side: Side,
    amount: int,
    currency: string,
    memo: string)

  datatype JournalManifest = JournalManifest(
    runNumber: string,
    executedAt: string,
    currency: string,
    total: int,
    entries: seq<JournalEntry>)

  function NetMinor(inv: ManifestInvoice): int {
    inv.amount + inv.vat - inv.ewt
  }

  function Entry(inv: ManifestInvoice, account: string, side: Side, amount: int, currency: string,
                 memo: string): JournalEntry
  {
    JournalEntry(inv.invoiceId, inv.invoiceNumber, inv.vendorName, inv.vendorTaxId, account, side, amount, currency,
        memo)
  }

  function Payable(inv: ManifestInvoice, currency: string): JournalEntry {
    Entry(inv, ACCOUNTS_PAYABLE, Debit, inv.amount + inv.vat, currency,
        "AP " + inv.invoiceNumber + " " + inv.vendorName)
  }

  function Withheld(inv: ManifestInvoice, currency: string): JournalEntry {
    Entry(inv, EWT_WITHHOLDING_PAYABLE, Credit, inv.ewt, currency, "EWT withheld " + inv.invoiceNumber)
  }

  function Cash(inv: ManifestInvoice, currency: string): JournalEntry {
    Entry(inv, CASH_CLEARING, Credit, NetMinor(inv), currency, "Payment " + inv.invoiceNumber)
  }

  function Posting(inv: ManifestInvoice, currency: string): seq<JournalEntry> {
    [Payable(inv, currency)] + (if inv.ewt > 0 then [Withheld(inv, currency)] else []) + [Cash(inv, currency)]
  }

  function Postings(invoices: seq<ManifestInvoice>, currency: string): seq<JournalEntry> {
    if |invoices| == 0 then []
    else Postings(invoices[..|invoices| - 1], currency) + Posting(invoices[|invoices| - 1], currency)
  }

  function Nets(invoices: seq<ManifestInvoice>): seq<int> {
    seq(|invoices|, i requires 0 <= i < |invoices| => NetMinor(invoices[i]))
  }

  function ManifestOf(runNumber: string, executedAt: string, currency: string,
                      invoices: seq<ManifestInvoice>): JournalManifest
  {
    JournalManifest(runNumber, executedAt, currency, Sum(Nets(invoices)), Postings(invoices, currency))
  }

  method BuildJournalManifest(runNumber: string, executedAt: string, currency: string, invoices: seq<ManifestInvoice>)
    returns (m: JournalManifest)
    ensures m == ManifestOf(runNumber, executedAt, currency, invoices)
  {
    var entries: seq<JournalEntry> := [];
    var total := 0;
    for k := 0 to |invoices|
      invariant entries == Postings(invoices[..k], currency)
      invariant total == Sum(Nets(invoices[..k]))
    {
      var inv := invoices[k];
      assert invoices[..k + 1][..k] == invoices[..k];
      assert Nets(invoices[..k + 1])[..k] == Nets(invoices[..k]);
      entries := entries + [Payable(inv, currency)];
      if inv.ewt > 0 {
        entries := entries + [Withheld(inv, currency)];
      }
      entries := entries + [Cash(inv, currency)];
      total := total + NetMinor(inv);
    }
    assert invoices[..|invoices|] == invoices;
    m := JournalManifest(runNumber, executedAt, currency, total, entries);
  }

  // ----- Balance -----

  function SideAmounts(entries: seq<JournalEntry>, side: Side): seq<int> {
    seq(|entries|, i requires 0 <= i < |entries| => if entries[i].side == side then entries[i].amount else 0)
  }

  function SideTotal(entries: seq<JournalEntry>, side: Side): int {
    Sum(SideAmounts(entries, side))
  }

  predicate Balanced(entries: seq<JournalEntry>) {
    SideTotal(entries, Debit) == SideTotal(entries, Credit) && SideTotal(entries, Credit) > 0
  }

  method VerifyBalanced(m: JournalManifest) returns (balanced: bool, debits: int, credits: int)
    ensures debits == SideTotal(m.entries, Debit) && credits == SideTotal(m.entries, Credit)
    ensures balanced <==> Balanced(m.entries)
  {
    debits, credits := 0, 0;
    for k := 0 to |m.entries|
      invariant debits == SideTotal(m.entries[..k], Debit) && credits == SideTotal(m.entries[..k], Credit)
    {
      var e := m.entries[k];
      assert SideAmounts(m.entries[..k + 1], Debit)[..k] == SideAmounts(m.entries[..k], Debit);
      assert SideAmounts(m.entries[..k + 1], Credit)[..k] == SideAmounts(m.entries[..k], Credit);
      if e.side == Debit {
        debits := debits + e.amount;
      } else {
        credits := credits + e.amount;
      }
    }
    assert m.entries[..|m.entries|] == m.entries;
    balanced := debits == credits && credits > 0;
  }

  lemma SideTotalConcat(a: seq<JournalEntry>, b: seq<JournalEntry>, side: Side)
    ensures SideTotal(a + b, side) == SideTotal(a, side) + SideTotal(b, side)
  {
    SumConcat(SideAmounts(a, side), SideAmounts(b, side));
    assert SideAmounts(a + b, side) == SideAmounts(a, side) + SideAmounts(b, side);
  }

  lemma SideTotalOne(e: JournalEntry, side: Side)
    ensures SideTotal([e], side) == if e.side == side then e.amount else 0
  {
    SumAppend([], SideAmounts([e], side)[0]);
    assert SideAmounts([e], side) == [] + [SideAmounts([e], side)[0]];
  }

  lemma PostingTotals(inv: ManifestInvoice, currency: string)
    ensures SideTotal(Posting(inv, currency), Debit) == inv.amount + inv.vat
    ensures SideTotal(Posting(inv, currency), Credit) == Max(0, inv.ewt) + NetMinor(inv)
  {
    var withheld := if inv.ewt > 0 then [Withheld(inv, currency)] else [];
    forall side: Side
      ensures SideTotal(Posting(inv, currency), side)
           == SideTotal([Payable(inv, currency)], side) + SideTotal(withheld, side)
              + SideTotal([Cash(inv, currency)], side)
    {
      SideTotalConcat([Payable(inv, currency)] + withheld, [Cash(inv, currency)], side);
      SideTotalConcat([Payable(inv, currency)], withheld, side);
    }
    SideTotalOne(Payable(inv, currency), Debit);
    SideTotalOne(Payable(inv, currency), Credit);
    SideTotalOne(Cash(inv, currency), Debit);
    SideTotalOne(Cash(inv, currency), Credit);
    if inv.ewt > 0 {
      SideTotalOne(Withheld(inv, currency), Debit);
      SideTotalOne(Withheld(inv, currency), Credit);
    }
  }

  function Payables(invoices: seq<ManifestInvoice>): seq<int> {
    seq(|invoices|, i requires 0 <= i < |invoices| => invoices[i].amount + invoices[i].vat)
  }

  predicate NoNegativeEwt(invoices: seq<ManifestInvoice>) {
    forall i :: 0 <= i < |invoices| ==> 0 <= invoices[i].ewt
  }

  lemma {:induction false} PostingsTotals(invoices: seq<ManifestInvoice>, currency: string)
    ensures var entries := Postings(invoices, currency);
            SideTotal(entries, Debit) == Sum(Payables(invoices)) <= SideTotal(entries, Credit)
            && (SideTotal(entries, Debit) == SideTotal(entries, Credit) <==> NoNegativeEwt(invoices))
  {
    if |invoices| > 0 {
      var n := |invoices| - 1;
      var before, last := invoices[..n], invoices[n];
      PostingsTotals(before, currency);
      PostingTotals(last, currency);
      SideTotalConcat(Postings(before, currency), Posting(last, currency), Debit);
      SideTotalConcat(Postings(before, currency), Posting(last, currency), Credit);
      assert Payables(invoices)[..n] == Payables(before);
      assert NoNegativeEwt(invoices) <==> NoNegativeEwt(before) && 0 <= last.ewt;
    }
  }

  /** The journal of any invoice list: debits are gross plus VAT, they equal the
      credits exactly when no withholding is negative, and the check passes
      exactly when there is something to post besides. */
  lemma JournalBalances(runNumber: string, executedAt: string, currency: string, invoices: seq<ManifestInvoice>)
    ensures var m := ManifestOf(runNumber, executedAt, currency, invoices);
            SideTotal(m.entries, Debit) == Sum(Payables(invoices))
            && (SideTotal(m.entries, Debit) == SideTotal(m.entries, Credit) <==> NoNegativeEwt(invoices))
            && (Balanced(m.entries) <==> NoNegativeEwt(invoices) && Sum(Payables(invoices)) > 0)
  {
    PostingsTotals(invoices, currency);
  }

  // ----- Account by account -----

  function AccountAmounts(entries: seq<JournalEntry>, account: string, side: Side): seq<int> {
    seq(|entries|, i requires 0 <= i < |entries| =>
      if entries[i].account == account && entries[i].side == side then entries[i].amount else 0)
  }

  function AccountTotal(entries: seq<JournalEntry>, account: string, side: Side): int {
    Sum(AccountAmounts(entries, account, side))
  }

  /** What an invoice puts on an account: gross plus VAT on payables, a positive
      withholding on the tax account, the net on cash. */
  function Due(inv: ManifestInvoice, account: string, side: Side): int {
    if account == "2010" && side == Debit then inv.amount + inv.vat
    else if account == "2020" && side == Credit && inv.ewt > 0 then inv.ewt
    else if account == "1010" && side == Credit then inv.amount + inv.vat - inv.ewt
    else 0
  }

  function Dues(invoices: seq<ManifestInvoice>, account: string, side: Side): seq<int> {
    seq(|invoices|, i requires 0 <= i < |invoices| => Due(invoices[i], account, side))
  }

  /** The three posting rules, and no fourth. */
  predicate KnownPosting(e: JournalEntry) {
    (e.account == "2010" && e.side == Debit) || (e.account == "2020" && e.side == Credit)
    || (e.account == "1010" && e.side == Credit)
  }

  /** The entry names the invoice it comes from. */
  predicate PostedFor(e: JournalEntry, inv: ManifestInvoice, currency: string) {
    e.invoiceId == inv.invoiceId && e.invoiceNumber == inv.invoiceNumber && e.vendorName == inv.vendorName
    && e.vendorTaxId == inv.vendorTaxId && e.currency == currency
    && e.memo == (if e.account == "2010" then "AP " + inv.invoiceNumber + " " + inv.vendorName
                  else if e.account == "2020" then "EWT withheld " + inv.invoiceNumber
                  else "Payment " + inv.invoiceNumber)
  }

  lemma AccountTotalConcat(a: seq<JournalEntry>, b: seq<JournalEntry>, account: string, side: Side)
    ensures AccountTotal(a + b, account, side) == AccountTotal(a, account, side) + AccountTotal(b, account, side)
  {
    SumConcat(AccountAmounts(a, account, side), AccountAmounts(b, account, side));
    assert AccountAmounts(a + b, account, side)
        == AccountAmounts(a, account, side) + AccountAmounts(b, account, side);
  }

  lemma AccountTotalOne(e: JournalEntry, account: string, side: Side)
    ensures AccountTotal([e], account, side) == if e.account == account && e.side == side then e.amount else 0
  {
    SumAppend([], AccountAmounts([e], account, side)[0]);
    assert AccountAmounts([e], account, side) == [] + [AccountAmounts([e], account, side)[0]];
  }

  lemma PostingByAccount(inv: ManifestInvoice, currency: string, account: string, side: Side)
    ensures AccountTotal(Posting(inv, currency), account, side) == Due(inv, account, side)
  {
    var withheld := if inv.ewt > 0 then [Withheld(inv, currency)] else [];
    AccountTotalConcat([Payable(inv, currency)] + withheld, [Cash(inv, currency)], account, side);
    AccountTotalConcat([Payable(inv, currency)], withheld, account, side);
    AccountTotalOne(Payable(inv, currency), account, side);
    AccountTotalOne(Withheld(inv, currency), account, side);
    AccountTotalOne(Cash(inv, currency), account, side);
  }

  lemma {:induction false} AccountIsDue(invoices: seq<ManifestInvoice>, currency: string, account: string, side: Side)
    ensures AccountTotal(Postings(invoices, currency), account, side) == Sum(Dues(invoices, account, side))
  {
    if |invoices| > 0 {
      var n := |invoices| - 1;
      AccountIsDue(invoices[..n], currency, account, side);
      AccountTotalConcat(Postings(invoices[..n], currency), Posting(invoices[n], currency), account, side);
      PostingByAccount(invoices[n], currency, account, side);
      assert Dues(invoices, account, side)[..n] == Dues(invoices[..n], account, side);
    }
  }

  predicate NamesOneOf(e: JournalEntry, invoices: seq<ManifestInvoice>, currency: string) {
    KnownPosting(e) && exists i :: 0 <= i < |invoices| && PostedFor(e, invoices[i], currency)
  }

  lemma PostingNamesInvoice(inv: ManifestInvoice, currency: string)
    ensures forall k :: 0 <= k < |Posting(inv, currency)| ==>
              KnownPosting(Posting(inv, currency)[k]) && PostedFor(Posting(inv, currency)[k], inv, currency)
  {
  }

  lemma {:induction false} EntriesNameInvoices(invoices: seq<ManifestInvoice>, currency: string)
    ensures forall k :: 0 <= k < |Postings(invoices, currency)| ==>
              NamesOneOf(Postings(invoices, currency)[k], invoices, currency)
  {
    if |invoices| > 0 {
      var n := |invoices| - 1;
      var before, posting := Postings(invoices[..n], currency), Posting(invoices[n], currency);
      EntriesNameInvoices(invoices[..n], currency);
      PostingNamesInvoice(invoices[n], currency);
      forall k | 0 <= k < |before + posting| ensures NamesOneOf((before + posting)[k], invoices, currency) {
        if k < |before| {
          var i :| 0 <= i < n && PostedFor(before[k], invoices[..n][i], currency);
          assert PostedFor(before[k], invoices[i], currency);
        } else {
          assert PostedFor(posting[k - |before|], invoices[n], currency);
        }
      }
    }
  }

  /** Account by account, for any invoice list: payables are debited with gross plus
      VAT, withholding is credited with what was withheld, and cash with the nets,
      which are the manifest's total. Nothing else is posted, and every entry names
      its invoice. */
  lemma AccountsAreRight(runNumber: string, executedAt: string, currency: string, invoices: seq<ManifestInvoice>)
    ensures var m := ManifestOf(runNumber, executedAt, currency, invoices);
            (forall account, side ::
               AccountTotal(m.entries, account, side) == Sum(Dues(invoices, account, side)))
            && AccountTotal(m.entries, "1010", Credit) == m.total
            && forall k :: 0 <= k < |m.entries| ==> NamesOneOf(m.entries[k], invoices, currency)
  {
    forall account, side {
      AccountIsDue(invoices, currency, account, side);
    }
    assert Dues(invoices, "1010", Credit) == Nets(invoices);
    EntriesNameInvoices(invoices, currency);
  }

  // ----- From the tax engine to the journal -----

  predicate EntriesNonnegative(entries: seq<JournalEntry>) {
    forall i :: 0 <= i < |entries| ==> 0 <= entries[i].amount
  }

  /** No journal amount is negative exactly when gross plus VAT covers the
      withholding on every invoice and is itself not negative. */
  lemma {:induction false} PostingsNonnegative(invoices: seq<ManifestInvoice>, currency: string)
    ensures EntriesNonnegative(Postings(invoices, currency))
       <==> forall i :: 0 <= i < |invoices| ==> 0 <= invoices[i].amount + invoices[i].vat && 0 <= NetMinor(invoices[i])
  {
    if |invoices| > 0 {
      var n := |invoices| - 1;
      var last := invoices[n];
      var before, posting := Postings(invoices[..n], currency), Posting(last, currency);
      PostingsNonnegative(invoices[..n], currency);
      assert Postings(invoices, currency) == before + posting;
      assert posting[0] == Payable(last, currency) && posting[|posting| - 1] == Cash(last, currency);
      assert EntriesNonnegative(before + posting) <==> EntriesNonnegative(before) && EntriesNonnegative(posting) by {
        assert forall i :: 0 <= i < |before| ==> (before + posting)[i] == before[i];
        assert forall i :: 0 <= i < |posting| ==> posting[i] == (before + posting)[|before| + i];
      }
    }
  }

  // ----- The flat file -----

  const CSV_HEADERS: seq<string> :=
    ["invoiceId", "invoiceNumber", "vendorName", "vendorTaxId", "account", "side", "amountMinor", "currencyCode",
        "memo"]

  function SideName(side: Side): string {
    match side case Debit => "debit" case Credit => "credit"
  }

  function CommentLine(m: JournalManifest): string {
    "# run=" + m.runNumber + " executedAt=" + m.executedAt + " total=" + IntToString(m.total)
  }

  function EntryCells(e: JournalEntry): seq<string> {
    [e.invoiceId, e.invoiceNumber, e.vendorName, if e.vendorTaxId.Some? then e.vendorTaxId.value else "",
     e.account, SideName(e.side), IntToString(e.amount), e.currency, e.memo]
  }

  function Table(m: JournalManifest): seq<seq<string>> {
    [CSV_HEADERS] + seq(|m.entries|, i requires 0 <= i < |m.entries| => EntryCells(m.entries[i]))
  }

  predicate OneLine(m: JournalManifest) {
    '\n' !in m.runNumber && '\n' !in m.executedAt
  }

  /** An entry as an importer reads it; the file has no way to say "no tax id". */
  function ReadEntry(cells: seq<string>): Option<JournalEntry> {
    if |cells| != 9 || (cells[5] != "debit" && cells[5] != "credit") then None
    else match ParseInt(cells[6])
         case None => None
         case Some(amount) =>
           Some(JournalEntry(cells[0], cells[1], cells[2], Some(cells[3]), cells[4],
                             if cells[5] == "debit" then Debit else Credit, amount, cells[7], cells[8]))
  }

  function ReadEntries(rows: seq<seq<string>>): Option<seq<JournalEntry>> {
    if |rows| == 0 then Some([])
    else
      var first, rest := ReadEntry(rows[0]), ReadEntries(rows[1..]);
      if first.None? || rest.None? then None else Some([first.value] + rest.value)
  }

  /** Reading a whole file: skip the comment, parse the records, drop the header. */
  function ReadFile(csv: string): Option<seq<JournalEntry>> {
    match Csv.ParseFile(Csv.AfterFirstLine(csv))
    case None => None
    case Some(rows) => if |rows| == 0 || rows[0] != CSV_HEADERS then None else ReadEntries(rows[1..])
  }

  function EntryAsRead(e: JournalEntry): JournalEntry {
    if e.vendorTaxId.None? then e.(vendorTaxId := Some("")) else e
  }

  /** What a reader recovers: the entries, a missing tax id read as empty. */
  function AsRead(entries: seq<JournalEntry>): seq<JournalEntry> {
    seq(|entries|, i requires 0 <= i < |entries| => EntryAsRead(entries[i]))
  }

  lemma EntryReadsBack(e: JournalEntry)
    ensures ReadEntry(EntryCells(e)) == Some(EntryAsRead(e))
  {
    IntRoundTrip(e.amount);
  }

  function CellsOf(entries: seq<JournalEntry>): seq<seq<string>> {
    seq(|entries|, i requires 0 <= i < |entries| => EntryCells(entries[i]))
  }

  lemma {:induction false} EntriesReadBack(entries: seq<JournalEntry>)
    ensures ReadEntries(CellsOf(entries)) == Some(AsRead(entries))
  {
    if |entries| == 0 {
      assert AsRead(entries) == [];
    } else {
      EntryReadsBack(entries[0]);
      EntriesReadBack(entries[1..]);
      var rows := CellsOf(entries);
      assert rows[1..] == CellsOf(entries[1..]);
      assert rows[0] == EntryCells(entries[0]);
      assert AsRead(entries) == [EntryAsRead(entries[0])] + AsRead(entries[1..]);
    }
  }

  /** The file: an importer reads back every entry of the manifest. */
  method ManifestToCsv(m: JournalManifest) returns (csv: string)
    ensures csv == Csv.Lines([CommentLine(m)] + Csv.Records(Table(m)))
    ensures OneLine(m) ==> ReadFile(csv) == Some(AsRead(m.entries))
  {
    var rows := [CommentLine(m), Csv.Join(CSV_HEADERS, ",")];
    FirstRows(m);
    for k := 0 to |m.entries|
      invariant rows == RowsSoFar(m, k)
    {
      MoreRows(m, k);
      rows := rows + [Csv.Record(EntryCells(m.entries[k]))];
    }
    AllRows(m);
    csv := Csv.Join(rows, "\n") + "\n";
    FileReadsBack(m);
  }

  /** The comment line, the header and the first `k` entries. */
  function RowsSoFar(m: JournalManifest, k: nat): seq<string>
    requires k <= |m.entries|
  {
    [CommentLine(m)] + Csv.Records(Table(m)[..k + 1])
  }

  lemma HeadersArePlain()
    ensures forall i :: 0 <= i < |CSV_HEADERS| ==> Csv.PlainLetters(CSV_HEADERS[i])
  {
    forall i | 0 <= i < |CSV_HEADERS| ensures Csv.PlainLetters(CSV_HEADERS[i]) {
    }
  }

  lemma FirstRow(table: seq<seq<string>>, headers: seq<string>)
    requires |table| > 0 && table[0] == headers
    requires forall i :: 0 <= i < |headers| ==> Csv.PlainLetters(headers[i])
    ensures Csv.Records(table[..1]) == [Csv.Join(headers, ",")]
  {
    Csv.PlainHeaders(headers);
    assert table[..1] == [headers];
    assert Csv.Records([headers]) == [Csv.Record(headers)];
  }

  lemma FirstRows(m: JournalManifest)
    ensures RowsSoFar(m, 0) == [CommentLine(m), Csv.Join(CSV_HEADERS, ",")]
  {
    HeadersArePlain();
    FirstRow(Table(m), CSV_HEADERS);
  }

  lemma MoreRows(m: JournalManifest, k: nat)
    requires k < |m.entries|
    ensures RowsSoFar(m, k + 1) == RowsSoFar(m, k) + [Csv.Record(EntryCells(m.entries[k]))]
  {
    var table := Table(m);
    assert table[k + 1] == EntryCells(m.entries[k]);
    assert Csv.Records(table[..k + 2]) == Csv.Records(table[..k + 1]) + [Csv.Record(table[k + 1])];
  }

  lemma AllRows(m: JournalManifest)
    ensures RowsSoFar(m, |m.entries|) == [CommentLine(m)] + Csv.Records(Table(m))
  {
    assert Table(m)[..|m.entries| + 1] == Table(m);
  }

  lemma CommentHasNoLineFeed(m: JournalManifest)
    requires OneLine(m)
    ensures '\n' !in CommentLine(m)
  {
    DecimalRoundTrip(Abs(m.total));
  }

  lemma TableParses(m: JournalManifest)
    ensures Csv.ParseFile(Csv.Lines(Csv.Records(Table(m)))) == Some([CSV_HEADERS] + CellsOf(m.entries))
  {
    Csv.FileRoundTrip(Table(m));
    assert Table(m) == [CSV_HEADERS] + CellsOf(m.entries);
  }

  /** Reading the rendered file back, for arbitrary strings in every cell. */
  lemma FileReadsBack(m: JournalManifest)
    ensures OneLine(m) ==> ReadFile(Csv.Lines([CommentLine(m)] + Csv.Records(Table(m)))) == Some(AsRead(m.entries))
  {
    var rows := [CommentLine(m)] + Csv.Records(Table(m));
    Csv.LinesFirst(rows);
    assert rows[1..] == Csv.Records(Table(m));
    if OneLine(m) {
      CommentHasNoLineFeed(m);
      Csv.SkipLine(CommentLine(m), Csv.Lines(rows[1..]));
      TableParses(m);
      EntriesReadBack(m.entries);
      assert ([CSV_HEADERS] + CellsOf(m.entries))[1..] == CellsOf(m.entries);
    }
  }
}

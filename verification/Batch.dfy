/** The payment batch: beneficiary details, frozen snapshots, the canonical
    credit order and the balance check. */
module Batch {
  import opened Common
  import opened Sums
  import opened Text
  import Csv
  import Sorting

  /** A stored bank account; a field is `None` when it is absent or not a string. */
  datatype BankRecord =
    | NotAnObject
    | Account(bank: Option<string>, accountNumber: Option<string>, accountNo: Option<string>, holder: Option<string>)

  datatype Beneficiary = Beneficiary(bank: string, accountNumber: string, holder: string)

  function TrimmedOrEmpty(field: Option<string>): string {
    if field.Some? then Trim(field.value) else ""
  }

  function ParseBeneficiary(raw: BankRecord): Option<Beneficiary> {
    if raw.NotAnObject? then None
    else
      var bank := TrimmedOrEmpty(raw.bank);
      var number := if raw.accountNumber.Some? then Trim(raw.accountNumber.value) else TrimmedOrEmpty(raw.accountNo);
      var holder := TrimmedOrEmpty(raw.holder);
      if bank == "" || number == "" || holder == "" then None
      else Some(Beneficiary(bank, number, holder))
  }

  /** A parsed beneficiary as it is stored in a snapshot. */
  function AsRecord(b: Beneficiary): BankRecord {
    Account(Some(b.bank), Some(b.accountNumber), None, Some(b.holder))
  }

  lemma FieldIsStable(field: Option<string>)
    ensures TrimmedOrEmpty(Some(TrimmedOrEmpty(field))) == TrimmedOrEmpty(field)
  {
    if field.Some? {
      TrimIsIdempotent(field.value);
    }
  }

  /** Parsing what parsing produced changes nothing: snapshots stay usable. */
  lemma ParsedBeneficiaryIsStable(raw: BankRecord)
    ensures var b := ParseBeneficiary(raw); b.Some? ==> ParseBeneficiary(AsRecord(b.value)) == b
  {
    var b := ParseBeneficiary(raw);
    if b.Some? {
      FieldIsStable(raw.bank);
      FieldIsStable(if raw.accountNumber.Some? then raw.accountNumber else raw.accountNo);
      FieldIsStable(raw.holder);
    }
  }

  // ----- Freezing the beneficiary when a run is planned -----

  /** The bank side of the vendor master. */
  datatype VendorBank = VendorBank(
    name: string,
    taxId: Option<string>,
    account: BankRecord,
    verifiedAt: Option<int>,
    verifiedBy: Option<string>,
    changedAt: Option<int>,
    submittedBy: Option<string>)

  datatype Snapshot = Snapshot(
    invoiceNumber: string,
    vendor: nat,
    vendorName: string,
    vendorTaxId: Option<string>,
    beneficiary: Beneficiary)

  /** JavaScript truthiness of an optional string. */
  predicate IsSet(s: Option<string>) {
    s.Some? && s.value != ""
  }

  predicate SnapshotSchema(s: Snapshot) {
    s.invoiceNumber != "" && s.vendorName != ""
    && s.beneficiary.bank != "" && s.beneficiary.accountNumber != "" && s.beneficiary.holder != ""
  }

  function FreezeBeneficiary(invoiceNumber: string, vendor: nat, v: VendorBank): Option<Snapshot> {
    var account := ParseBeneficiary(v.account);
    if account.None? || v.verifiedAt.None? || !IsSet(v.verifiedBy) || v.changedAt.Some? || IsSet(v.submittedBy)
    then None
    else
      var s := Snapshot(invoiceNumber, vendor, v.name, v.taxId, account.value);
      if SnapshotSchema(s) then Some(s) else None
  }

  /** A snapshot that reads back and names a usable beneficiary. */
  predicate UsableSnapshot(s: Snapshot) {
    SnapshotSchema(s) && ParseBeneficiary(AsRecord(s.beneficiary)) == Some(s.beneficiary)
  }

  /** A text that is more than white space. */
  predicate HasText(field: Option<string>) {
    field.Some? && Trim(field.value) != ""
  }

  /** The account number, or the older field if there is none. */
  function NumberField(raw: BankRecord): Option<string>
    requires raw.Account?
  {
    if raw.accountNumber.Some? then raw.accountNumber else raw.accountNo
  }

  /** Bank, number and holder are given. */
  predicate NamesAccount(raw: BankRecord) {
    raw.Account? && HasText(raw.bank) && HasText(NumberField(raw)) && HasText(raw.holder)
  }

  function NamedAccount(raw: BankRecord): Beneficiary
    requires NamesAccount(raw)
  {
    Beneficiary(Trim(raw.bank.value), Trim(NumberField(raw).value), Trim(raw.holder.value))
  }

  /** Somebody verified the account, and no change of it was submitted since. */
  predicate Vetted(v: VendorBank) {
    v.verifiedAt.Some? && v.verifiedBy.Some? && v.verifiedBy.value != ""
    && v.changedAt.None? && (v.submittedBy.Some? ==> v.submittedBy.value == "")
  }

  /** Freezing succeeds exactly for a named vendor with a complete, vetted account; it
      stores the trimmed account with the vendor's name and tax number, and what it
      stores is usable for ever after. */
  lemma FrozenIsUsable(invoiceNumber: string, vendor: nat, v: VendorBank)
    ensures FreezeBeneficiary(invoiceNumber, vendor, v).Some?
       <==> invoiceNumber != "" && v.name != "" && NamesAccount(v.account) && Vetted(v)
    ensures FreezeBeneficiary(invoiceNumber, vendor, v).Some? ==>
              var s := FreezeBeneficiary(invoiceNumber, vendor, v).value;
              s == Snapshot(invoiceNumber, vendor, v.name, v.taxId, NamedAccount(v.account)) && UsableSnapshot(s)
  {
    ParsedBeneficiaryIsStable(v.account);
  }

  // ----- Building the batch -----

  datatype CreditInput = CreditInput(
    lineId: string,
    invoiceId: string,
    netMinor: int,
    currencyCode: string,
    invoiceNumber: string,
    vendorName: string,
    vendorTaxId: Option<string>,
    account: BankRecord)

  datatype Credit = Credit(
    lineId: string,
    invoiceId: string,
    invoiceNumber: string,
    vendorName: string,
    vendorTaxId: Option<string>,
    beneficiary: Beneficiary,
    amountMinor: int,
    currencyCode: string,
    memo: string)

  datatype BatchManifest = BatchManifest(
    runNumber: string,
    executedAt: string,
    currencyCode: string,
    totalMinor: int,
    lineCount: nat,
    credits: seq<Credit>)

  datatype Built = UnusableBeneficiaries | Unbalanced | BatchBuilt(manifest: BatchManifest)

  /** A locale comparison of strings: a total preorder given by its sign. */
  type Collation = (string, string) -> int

  ghost predicate IsCollation(cmp: Collation) {
    (forall a, b :: cmp(a, b) < 0 <==> cmp(b, a) > 0)
    && (forall a, b, c :: cmp(a, b) <= 0 && cmp(b, c) <= 0 ==> cmp(a, c) <= 0)
  }

  /** `invoiceNumber`, then `lineId`: the order of the credits. */
  function CompareCredits(cmp: Collation, a: CreditInput, b: CreditInput): int {
    var byNumber := cmp(a.invoiceNumber, b.invoiceNumber);
    if byNumber != 0 then byNumber else cmp(a.lineId, b.lineId)
  }

  function CreditOrder(cmp: Collation): (CreditInput, CreditInput) -> bool {
    (a: CreditInput, b: CreditInput) => CompareCredits(cmp, a, b) <= 0
  }

  function SortCredits(cmp: Collation, s: seq<CreditInput>): seq<CreditInput> {
    Sorting.Sort(CreditOrder(cmp), s)
  }

  function Nets(lines: seq<CreditInput>): seq<int> {
    seq(|lines|, i requires 0 <= i < |lines| => lines[i].netMinor)
  }

  predicate AllUsable(lines: seq<CreditInput>) {
    forall line | line in lines :: ParseBeneficiary(line.account).Some?
  }

  function CreditOf(line: CreditInput): Credit
    requires ParseBeneficiary(line.account).Some?
  {
    Credit(line.lineId, line.invoiceId, line.invoiceNumber, line.vendorName, line.vendorTaxId,
           ParseBeneficiary(line.account).value, line.netMinor, line.currencyCode,
           "Payment " + line.invoiceNumber + " " + line.vendorName)
  }

  function BuildPaymentBatch(cmp: Collation, runNumber: string, executedAt: string, currencyCode: string,
                             totalMinor: int, lines: seq<CreditInput>): Built {
    if !AllUsable(lines) then UnusableBeneficiaries
    else if Sum(Nets(lines)) != totalMinor then Unbalanced
    else
      SortedUsable(cmp, lines);
      BatchBuilt(BatchManifest(runNumber, executedAt, currencyCode, totalMinor, |lines|,
                               Credits(SortCredits(cmp, lines))))
  }

  function Credits(lines: seq<CreditInput>): seq<Credit>
    requires AllUsable(lines)
  {
    seq(|lines|, i requires 0 <= i < |lines| => assert lines[i] in lines; CreditOf(lines[i]))
  }

  lemma SortedUsable(cmp: Collation, lines: seq<CreditInput>)
    requires AllUsable(lines)
    ensures AllUsable(SortCredits(cmp, lines)) && |SortCredits(cmp, lines)| == |lines|
  {
    Sorting.SortPermutes(CreditOrder(cmp), lines);
    Sorting.SameElements(SortCredits(cmp, lines), lines);
  }

  // ----- The batch is canonical: the row order of the query does not matter -----

  lemma CreditOrderIsPreorder(cmp: Collation)
    requires IsCollation(cmp)
    ensures Sorting.IsPreorder(CreditOrder(cmp))
  {
    forall a, b, c | CompareCredits(cmp, a, b) <= 0 && CompareCredits(cmp, b, c) <= 0
      ensures CompareCredits(cmp, a, c) <= 0
    {
      CompareTransitive(cmp, a, b, c);
    }
  }

  lemma CompareTransitive(cmp: Collation, a: CreditInput, b: CreditInput, c: CreditInput)
    requires IsCollation(cmp)
    requires CompareCredits(cmp, a, b) <= 0 && CompareCredits(cmp, b, c) <= 0
    ensures CompareCredits(cmp, a, c) <= 0
  {
    var x, y, z := a.invoiceNumber, b.invoiceNumber, c.invoiceNumber;
    assert cmp(x, z) <= 0;
    assert cmp(x, z) == 0 ==> cmp(z, x) <= 0;
    assert cmp(x, z) == 0 ==> cmp(y, x) <= 0 && cmp(z, y) <= 0;
  }

  /** Row identifiers tell the rows apart, for the collation too. */
  ghost predicate DistinctIds(cmp: Collation, s: seq<CreditInput>) {
    forall x, y :: x in s && y in s && cmp(x.lineId, y.lineId) == 0 ==> x == y
  }

  lemma {:induction false} NetsOfPermutation(a: seq<CreditInput>, b: seq<CreditInput>)
    requires multiset(a) == multiset(b)
    ensures Sum(Nets(a)) == Sum(Nets(b))
  {
    Sorting.SameElements(a, b);
    if |a| > 0 {
      assert a[0] in b;
      var k :| 0 <= k < |b| && b[k] == a[0];
      WithoutMultiset(a, 0);
      WithoutMultiset(b, k);
      NetsOfPermutation(Without(a, 0), Without(b, k));
      NetsWithout(a, 0);
      NetsWithout(b, k);
    }
  }

  lemma NetsWithout(s: seq<CreditInput>, k: nat)
    requires k < |s|
    ensures Sum(Nets(Without(s, k))) == Sum(Nets(s)) - s[k].netMinor
  {
    SumWithout(Nets(s), k);
    assert Nets(Without(s, k)) == Without(Nets(s), k);
  }

  /** Any order in which the rows are read gives the same batch, or the same refusal. */
  lemma BatchIsCanonical(cmp: Collation, runNumber: string, executedAt: string, currencyCode: string,
                         totalMinor: int, a: seq<CreditInput>, b: seq<CreditInput>)
    requires IsCollation(cmp) && DistinctIds(cmp, a) && multiset(a) == multiset(b)
    ensures BuildPaymentBatch(cmp, runNumber, executedAt, currencyCode, totalMinor, a)
         == BuildPaymentBatch(cmp, runNumber, executedAt, currencyCode, totalMinor, b)
  {
    Sorting.SameElements(a, b);
    NetsOfPermutation(a, b);
    CreditOrderIsPreorder(cmp);
    assert Sorting.Distinguishes(CreditOrder(cmp), a);
    Sorting.SortIsCanonical(CreditOrder(cmp), a, b);
  }

  /** The credit pays its row to the account on it, in the row's currency. */
  predicate Pays(c: Credit, line: CreditInput) {
    c.lineId == line.lineId && c.invoiceId == line.invoiceId && c.invoiceNumber == line.invoiceNumber
    && c.vendorName == line.vendorName && c.vendorTaxId == line.vendorTaxId
    && c.amountMinor == line.netMinor && c.currencyCode == line.currencyCode
    && c.memo == "Payment " + line.invoiceNumber + " " + line.vendorName
    && NamesAccount(line.account) && c.beneficiary == NamedAccount(line.account)
  }

  /** The credits pay the rows, each row once. */
  predicate PaysEach(credits: seq<Credit>, lines: seq<CreditInput>, sorted: seq<CreditInput>) {
    multiset(sorted) == multiset(lines) && |credits| == |sorted|
    && forall i :: 0 <= i < |credits| ==> Pays(credits[i], sorted[i])
  }

  /** A batch is built exactly when every account is complete and the rows add up to
      the run total. Its credits pay exactly that total, one credit a row, each to the
      account on its row. */
  lemma BatchConserves(cmp: Collation, runNumber: string, executedAt: string, currencyCode: string,
                       totalMinor: int, lines: seq<CreditInput>)
    ensures var built := BuildPaymentBatch(cmp, runNumber, executedAt, currencyCode, totalMinor, lines);
            (built.BatchBuilt?
             <==> (forall i :: 0 <= i < |lines| ==> NamesAccount(lines[i].account)) && Sum(Nets(lines)) == totalMinor)
            && (built.UnusableBeneficiaries? <==> exists i :: 0 <= i < |lines| && !NamesAccount(lines[i].account))
            && (built.BatchBuilt? ==>
                  var m := built.manifest;
                  m == BatchManifest(runNumber, executedAt, currencyCode, totalMinor, |lines|, m.credits)
                  && |m.credits| == |lines| && Sum(CreditAmounts(m.credits)) == totalMinor
                  && PaysEach(m.credits, lines, SortCredits(cmp, lines)))
  {
    UsableMeansNamed(lines);
    if AllUsable(lines) {
      SortedUsable(cmp, lines);
      Sorting.SortPermutes(CreditOrder(cmp), lines);
      NetsOfPermutation(SortCredits(cmp, lines), lines);
      CreditsPayRows(SortCredits(cmp, lines));
    }
  }

  lemma UsableAccount(raw: BankRecord)
    ensures ParseBeneficiary(raw).Some? <==> NamesAccount(raw)
    ensures NamesAccount(raw) ==> ParseBeneficiary(raw) == Some(NamedAccount(raw))
  {
  }

  lemma UsableMeansNamed(lines: seq<CreditInput>)
    ensures AllUsable(lines) <==> forall i :: 0 <= i < |lines| ==> NamesAccount(lines[i].account)
  {
    forall i | 0 <= i < |lines|
      ensures NamesAccount(lines[i].account) <==> ParseBeneficiary(lines[i].account).Some?
    {
      UsableAccount(lines[i].account);
    }
  }

  lemma CreditsPayRows(lines: seq<CreditInput>)
    requires AllUsable(lines)
    ensures CreditAmounts(Credits(lines)) == Nets(lines)
    ensures forall i :: 0 <= i < |lines| ==> Pays(Credits(lines)[i], lines[i])
  {
    forall i | 0 <= i < |lines| ensures Pays(Credits(lines)[i], lines[i]) {
      assert lines[i] in lines;
      UsableAccount(lines[i].account);
    }
  }

  /** The credits are listed by invoice number, and by row identifier within one. */
  lemma CreditsAreListed(cmp: Collation, runNumber: string, executedAt: string, currencyCode: string,
                         totalMinor: int, lines: seq<CreditInput>)
    requires IsCollation(cmp)
    ensures var built := BuildPaymentBatch(cmp, runNumber, executedAt, currencyCode, totalMinor, lines);
            built.BatchBuilt? ==>
              forall i, j :: 0 <= i < j < |built.manifest.credits| ==>
                var a, b := built.manifest.credits[i], built.manifest.credits[j];
                cmp(a.invoiceNumber, b.invoiceNumber) < 0
                || (cmp(a.invoiceNumber, b.invoiceNumber) == 0 && cmp(a.lineId, b.lineId) <= 0)
  {
    CreditOrderIsPreorder(cmp);
    Sorting.SortSorts(CreditOrder(cmp), lines);
    if AllUsable(lines) {
      SortedUsable(cmp, lines);
      assert forall i, j :: 0 <= i < j < |SortCredits(cmp, lines)| ==>
          CreditOrder(cmp)(SortCredits(cmp, lines)[i], SortCredits(cmp, lines)[j]);
    }
  }

  function CreditAmounts(credits: seq<Credit>): seq<int> {
    seq(|credits|, i requires 0 <= i < |credits| => credits[i].amountMinor)
  }

  // ----- The flat file -----

  const CSV_HEADERS: seq<string> :=
    ["lineId", "invoiceNumber", "vendorName", "beneficiaryBank", "beneficiaryAccountNumber",
     "beneficiaryHolder", "amountMinor", "currencyCode", "memo"]

  function CommentLine(m: BatchManifest): string {
    "# run=" + m.runNumber + " executedAt=" + m.executedAt + " total=" + IntToString(m.totalMinor) + " "
        + m.currencyCode
  }

  function CreditCells(c: Credit): seq<string> {
    [c.lineId, c.invoiceNumber, c.vendorName, c.beneficiary.bank, c.beneficiary.accountNumber,
     c.beneficiary.holder, IntToString(c.amountMinor), c.currencyCode, c.memo]
  }

  /** The header row and one row of cells per credit. */
  function Table(m: BatchManifest): seq<seq<string>> {
    [CSV_HEADERS] + seq(|m.credits|, i requires 0 <= i < |m.credits| => CreditCells(m.credits[i]))
  }

  predicate OneLine(m: BatchManifest) {
    '\n' !in m.runNumber && '\n' !in m.executedAt && '\n' !in m.currencyCode
  }

  /** The file: reading it back, below its comment line, gives every row. */
  method BatchToCsv(m: BatchManifest) returns (csv: string)
    ensures csv == Csv.Lines([CommentLine(m)] + Csv.Records(Table(m)))
    ensures OneLine(m) ==> Csv.ParseFile(Csv.AfterFirstLine(csv)) == Some(Table(m))
  {
    var rows := [CommentLine(m), Csv.Join(CSV_HEADERS, ",")];
    FirstRows(m);
    for k := 0 to |m.credits|
      invariant rows == RowsSoFar(m, k)
    {
      MoreRows(m, k);
      rows := rows + [Csv.Record(CreditCells(m.credits[k]))];
    }
    AllRows(m);
    csv := Csv.Join(rows, "\n") + "\n";
    FileReadsBack(m);
  }

  /** The comment line, the header and the first `k` credits. */
  function RowsSoFar(m: BatchManifest, k: nat): seq<string>
    requires k <= |m.credits|
  {
    [CommentLine(m)] + Csv.Records(Table(m)[..k + 1])
  }

  lemma FirstRows(m: BatchManifest)
    ensures RowsSoFar(m, 0) == [CommentLine(m), Csv.Join(CSV_HEADERS, ",")]
  {
    HeadersArePlain();
    assert Table(m)[..1] == [CSV_HEADERS];
    assert Csv.Records([CSV_HEADERS]) == [Csv.Record(CSV_HEADERS)];
  }

  lemma MoreRows(m: BatchManifest, k: nat)
    requires k < |m.credits|
    ensures RowsSoFar(m, k + 1) == RowsSoFar(m, k) + [Csv.Record(CreditCells(m.credits[k]))]
  {
    var table := Table(m);
    assert table[k + 1] == CreditCells(m.credits[k]);
    assert Csv.Records(table[..k + 2]) == Csv.Records(table[..k + 1]) + [Csv.Record(table[k + 1])];
  }

  lemma AllRows(m: BatchManifest)
    ensures RowsSoFar(m, |m.credits|) == [CommentLine(m)] + Csv.Records(Table(m))
  {
    assert Table(m)[..|m.credits| + 1] == Table(m);
  }

  lemma FileReadsBack(m: BatchManifest)
    ensures OneLine(m)
            ==> Csv.ParseFile(Csv.AfterFirstLine(Csv.Lines([CommentLine(m)] + Csv.Records(Table(m))))) == Some(Table(m))
  {
    var rows := [CommentLine(m)] + Csv.Records(Table(m));
    Csv.LinesFirst(rows);
    assert rows[1..] == Csv.Records(Table(m));
    if OneLine(m) {
      CommentHasNoLineFeed(m);
      Csv.SkipLine(CommentLine(m), Csv.Lines(rows[1..]));
      Csv.FileRoundTrip(Table(m));
    }
  }

  lemma CommentHasNoLineFeed(m: BatchManifest)
    requires OneLine(m)
    ensures '\n' !in CommentLine(m)
  {
    DecimalRoundTrip(Abs(m.totalMinor));
  }

  lemma HeadersArePlain()
    ensures Csv.Join(CSV_HEADERS, ",") == Csv.Record(CSV_HEADERS)
  {
    assert forall i :: 0 <= i < |CSV_HEADERS| ==> Csv.PlainLetters(CSV_HEADERS[i]);
    Csv.PlainHeaders(CSV_HEADERS);
  }
}

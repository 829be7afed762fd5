/** The credit-transfer message of one batch, and what its reader recovers. */
module PaymentMessage {
  import opened Common
  import opened Sums
  import opened Text
  import opened Pain001
  import opened Pain001Document
  import Batch

  const PAIN_001_NS: string := "urn:iso:std:iso:" + "20022:tech:xsd:" + "pain.001.001.08"

  datatype Debtor = Debtor(name: string, account: string)

  /** The paying organisation, from two settings; none means no message. */
  function ResolveDebtor(name: Option<string>, account: Option<string>): Option<Debtor> {
    var n, a := Batch.TrimmedOrEmpty(name), Batch.TrimmedOrEmpty(account);
    if n == "" || a == "" then None else Some(Debtor(n, a))
  }

  // ----- Layout: opening lines, one leaf, closing lines -----

  datatype Item = Item(opens: seq<Line>, leaf: Line, closes: seq<Line>)

  predicate ItemOk(it: Item) {
    it.leaf.Leaf? && LineOk(it.leaf)
    && (forall k :: 0 <= k < |it.opens| ==> it.opens[k].Open? && LineOk(it.opens[k]))
    && ClosesOk(it.closes)
  }

  predicate ClosesOk(lines: seq<Line>) {
    forall k :: 0 <= k < |lines| ==> lines[k].Close? && LineOk(lines[k])
  }

  predicate ItemsOk(items: seq<Item>) {
    forall i :: 0 <= i < |items| ==> ItemOk(items[i])
  }

  function LinesOf(it: Item): seq<Line> {
    it.opens + [it.leaf] + it.closes
  }

  function Lines(items: seq<Item>): seq<Line> {
    if |items| == 0 then [] else LinesOf(items[0]) + Lines(items[1..])
  }

  function Element(indent: string, name: string, text: string): Line {
    Leaf(indent, name, "", EscapeXml(text))
  }

  function Plain(indent: string, name: string, text: string): Item {
    Item([], Element(indent, name, text), [])
  }

  function Attribute(name: string, value: string): string {
    " " + name + "=\"" + value + "\""
  }

  predicate NoMarkup(s: string) {
    '<' !in s && '>' !in s
  }

  lemma AttributeOk(name: string, value: string)
    requires NoMarkup(name) && NoMarkup(value)
    ensures AttrsOk(Attribute(name, value))
  {
    var a := " " + name;
    var b := a + "=\"";
    var c := b + value;
    assert NoMarkup(a) && NoMarkup(b) && NoMarkup(c);
    assert Attribute(name, value) == c + "\"";
  }

  /** A line the emitter writes literally. */
  function Fixed(indent: string, name: string, raw: string): Item {
    Item([], Leaf(indent, name, "", raw), [])
  }

  /** The leaves of the items, without going through the lines. */
  function Elements(items: seq<Item>): seq<(string, string)> {
    seq(|items|, i requires 0 <= i < |items| => ElementOf(items[i]))
  }

  function ElementOf(it: Item): (string, string) {
    (it.leaf.name, if it.leaf.Leaf? then Unescape(it.leaf.raw) else "")
  }

  lemma {:induction false} LeavesConcat(a: seq<Line>, b: seq<Line>)
    ensures Leaves(a + b) == Leaves(a) + Leaves(b)
  {
    if |a| == 0 {
      assert a + b == b;
    } else {
      assert (a + b)[1..] == a[1..] + b;
      LeavesConcat(a[1..], b);
    }
  }

  lemma {:induction false} NoLeaves(lines: seq<Line>)
    requires forall k :: 0 <= k < |lines| ==> !lines[k].Leaf?
    ensures Leaves(lines) == []
  {
    if |lines| > 0 {
      NoLeaves(lines[1..]);
    }
  }

  lemma LeavesOfItem(it: Item)
    requires ItemOk(it)
    ensures Leaves(LinesOf(it)) == [(it.leaf.name, Unescape(it.leaf.raw))]
  {
    LeavesConcat(it.opens + [it.leaf], it.closes);
    LeavesConcat(it.opens, [it.leaf]);
    NoLeaves(it.opens);
    NoLeaves(it.closes);
    LeavesOfOne(it.leaf);
  }

  lemma LeavesOfOne(l: Line)
    requires l.Leaf?
    ensures Leaves([l]) == [(l.name, Unescape(l.raw))]
  {
    assert [l][1..] == [];
  }

  lemma ItemIsTidy(it: Item)
    requires ItemOk(it)
    ensures Tidy(LinesOf(it))
  {
    var lines := LinesOf(it);
    forall k | 0 <= k < |lines| ensures LineOk(lines[k]) && Continues(lines, k) {
      if k < |it.opens| {
        assert lines[k] == it.opens[k];
      } else if k > |it.opens| {
        assert lines[k] == it.closes[k - |it.opens| - 1];
      }
    }
  }

  lemma TidyConcat(a: seq<Line>, b: seq<Line>)
    requires Tidy(a) && Tidy(b)
    ensures Tidy(a + b)
  {
    var ab := a + b;
    forall k | 0 <= k < |ab| ensures LineOk(ab[k]) && Continues(ab, k) {
      if k < |a| {
        assert Continues(a, k);
      } else {
        assert Continues(b, k - |a|);
        assert LineOk(b[k - |a|]);
      }
    }
  }

  lemma ElementsFirst(items: seq<Item>)
    requires |items| > 0 && items[0].leaf.Leaf?
    ensures Elements(items) == [(items[0].leaf.name, Unescape(items[0].leaf.raw))] + Elements(items[1..])
  {
  }

  lemma {:induction false} ItemsLayOut(items: seq<Item>, tail: seq<Line>)
    requires ItemsOk(items) && ClosesOk(tail)
    ensures Tidy(Lines(items) + tail)
    ensures Leaves(Lines(items) + tail) == Elements(items)
  {
    if |items| == 0 {
      NoLeaves(tail);
      assert Lines(items) + tail == tail;
    } else {
      var rest := Lines(items[1..]) + tail;
      ItemsLayOut(items[1..], tail);
      LeavesOfItem(items[0]);
      ItemIsTidy(items[0]);
      TidyConcat(LinesOf(items[0]), rest);
      LeavesConcat(LinesOf(items[0]), rest);
      Associates(LinesOf(items[0]), Lines(items[1..]), tail);
      ElementsFirst(items);
    }
  }

  lemma Associates(a: seq<Line>, b: seq<Line>, c: seq<Line>)
    ensures (a + b) + c == a + (b + c)
  {
  }

  function Flatten<T>(groups: seq<seq<T>>): seq<T> {
    if |groups| == 0 then [] else Flatten(groups[..|groups| - 1]) + groups[|groups| - 1]
  }

  lemma ElementsConcat(a: seq<Item>, b: seq<Item>)
    ensures Elements(a + b) == Elements(a) + Elements(b)
    ensures ItemsOk(a) && ItemsOk(b) ==> ItemsOk(a + b)
  {
  }

  lemma {:induction false} FlattenReads(groups: seq<seq<Item>>, elements: seq<seq<(string, string)>>)
    requires |groups| == |elements|
    requires forall i :: 0 <= i < |groups| ==> ItemsOk(groups[i]) && Elements(groups[i]) == elements[i]
    ensures ItemsOk(Flatten(groups)) && Elements(Flatten(groups)) == Flatten(elements)
  {
    if |groups| > 0 {
      var n := |groups| - 1;
      FlattenReads(groups[..n], elements[..n]);
      ElementsConcat(Flatten(groups[..n]), groups[n]);
    }
  }

  // ----- The message -----

  function Preamble(m: Batch.BatchManifest): Item {
    Item([Open("", "?xml", Attribute("version", "1.0") + Attribute("encoding", "UTF-8") + "?"),
          Open("", "Document", Attribute("xmlns", PAIN_001_NS)),
          Open("  ", "CstmrCdtTrfInitn", ""),
          Open("    ", "GrpHdr", "")],
         Element("      ", "MsgId", m.runNumber), [])
  }

  function InitiatingParty(debtor: Debtor): Item {
    Item([Open("      ", "InitgPty", "")], Element("        ", "Nm", debtor.name),
         [Close("      ", "InitgPty"), Close("    ", "GrpHdr")])
  }

  function GroupHeader(m: Batch.BatchManifest, debtor: Debtor, total: string): seq<Item> {
    [Preamble(m),
     Plain("      ", "CreDtTm", m.executedAt),
     Plain("      ", "NbOfTxs", Decimal(m.lineCount)),
     Plain("      ", "CtrlSum", total),
     InitiatingParty(debtor)]
  }

  function PaymentId(m: Batch.BatchManifest): Item {
    Item([Open("    ", "PmtInf", "")], Element("      ", "PmtInfId", m.runNumber + "-1"), [])
  }

  function DebtorName(debtor: Debtor): Item {
    Item([Open("      ", "Dbtr", "")], Element("        ", "Nm", debtor.name), [Close("      ", "Dbtr")])
  }

  function DebtorAccount(debtor: Debtor): Item {
    Item([Open("      ", "DbtrAcct", ""), Open("        ", "Id", ""), Open("          ", "Othr", "")],
         Element("            ", "Id", debtor.account),
         [Close("          ", "Othr"), Close("        ", "Id"), Close("      ", "DbtrAcct")])
  }

  function PaymentMethod(m: Batch.BatchManifest): seq<Item> {
    [PaymentId(m), Fixed("      ", "PmtMtd", "TRF"), Fixed("      ", "BtchBookg", "false")]
  }

  function PaymentTotals(m: Batch.BatchManifest, debtor: Debtor, total: string): seq<Item> {
    [Plain("      ", "NbOfTxs", Decimal(m.lineCount)),
     Plain("      ", "CtrlSum", total),
     DebtorName(debtor),
     DebtorAccount(debtor)]
  }

  function PaymentHeader(m: Batch.BatchManifest, debtor: Debtor, total: string): seq<Item> {
    PaymentMethod(m) + PaymentTotals(m, debtor, total)
  }

  function EndToEnd(m: Batch.BatchManifest, c: Batch.Credit): Item {
    Item([Open("      ", "CdtTrfTxInf", ""), Open("        ", "PmtId", "")],
         Element("          ", "EndToEndId", m.runNumber + "-" + c.invoiceNumber), [Close("        ", "PmtId")])
  }

  function Instructed(c: Batch.Credit, amount: string): Item {
    Item([Open("        ", "Amt", "")],
         Leaf("          ", "InstdAmt", Attribute("Ccy", EscapeXml(c.currencyCode)), amount),
         [Close("        ", "Amt")])
  }

  function CreditorBank(c: Batch.Credit): Item {
    Item([Open("        ", "CdtrAgt", ""), Open("          ", "FinInstnId", "")],
         Element("            ", "Nm", c.beneficiary.bank),
         [Close("          ", "FinInstnId"), Close("        ", "CdtrAgt")])
  }

  function CreditorName(c: Batch.Credit): Item {
    Item([Open("        ", "Cdtr", "")], Element("          ", "Nm", c.beneficiary.holder), [Close("        ", "Cdtr")])
  }

  function CreditorAccount(c: Batch.Credit): Item {
    Item([Open("        ", "CdtrAcct", ""), Open("          ", "Id", ""), Open("            ", "Othr", "")],
         Element("              ", "Id", c.beneficiary.accountNumber),
         [Close("            ", "Othr"), Close("          ", "Id"), Close("        ", "CdtrAcct")])
  }

  function Remittance(c: Batch.Credit): Item {
    Item([Open("        ", "RmtInf", "")], Element("          ", "Ustrd", c.memo),
         [Close("        ", "RmtInf"), Close("      ", "CdtTrfTxInf")])
  }

  function Transaction(m: Batch.BatchManifest, c: Batch.Credit, amount: string): seq<Item> {
    [EndToEnd(m, c), Instructed(c, amount), CreditorBank(c), CreditorName(c), CreditorAccount(c), Remittance(c)]
  }

  const TRAILER: seq<Line> := [Close("    ", "PmtInf"), Close("  ", "CstmrCdtTrfInitn"), Close("", "Document")]

  /** Every amount the message prints is a safe integer. */
  predicate Printable(m: Batch.BatchManifest) {
    IsSafeInteger(m.totalMinor)
    && forall i :: 0 <= i < |m.credits| ==> IsSafeInteger(m.credits[i].amountMinor)
  }

  function Amount(minor: int): string
    requires IsSafeInteger(minor)
  {
    FormatAmount(minor).value
  }

  function Transactions(m: Batch.BatchManifest): seq<seq<Item>>
    requires Printable(m)
  {
    seq(|m.credits|, i requires 0 <= i < |m.credits| =>
      Transaction(m, m.credits[i], Amount(m.credits[i].amountMinor)))
  }

  function Items(m: Batch.BatchManifest, debtor: Debtor): seq<Item>
    requires Printable(m)
  {
    GroupHeader(m, debtor, Amount(m.totalMinor)) + PaymentHeader(m, debtor, Amount(m.totalMinor))
    + Flatten(Transactions(m))
  }

  /** The message text; an amount that is not a safe integer refuses it. */
  function BuildPain001(m: Batch.BatchManifest, debtor: Debtor): Option<string> {
    if Printable(m) then Some(RenderLines(Lines(Items(m, debtor)) + TRAILER)) else None
  }

  /** The message part of a generated batch: without a configured debtor there is
      none, and an amount that is not a safe integer makes the emitter throw. */
  datatype Emission = NotConfigured | UnsafeAmount | Emitted(xml: string)

  function EmitFor(m: Batch.BatchManifest, name: Option<string>, account: Option<string>): Emission {
    match ResolveDebtor(name, account)
    case None => NotConfigured
    case Some(debtor) =>
      match BuildPain001(m, debtor)
      case None => UnsafeAmount
      case Some(xml) => Emitted(xml)
  }

  // ----- What a reader recovers -----

  function GroupElements(m: Batch.BatchManifest, debtor: Debtor, total: string): seq<(string, string)> {
    [("MsgId", m.runNumber), ("CreDtTm", m.executedAt), ("NbOfTxs", Decimal(m.lineCount)), ("CtrlSum", total),
     ("Nm", debtor.name)]
  }

  function PaymentElements(m: Batch.BatchManifest, debtor: Debtor, total: string): seq<(string, string)> {
    [("PmtInfId", m.runNumber + "-1"), ("PmtMtd", "TRF"), ("BtchBookg", "false"),
     ("NbOfTxs", Decimal(m.lineCount)), ("CtrlSum", total), ("Nm", debtor.name), ("Id", debtor.account)]
  }

  function HeaderElements(m: Batch.BatchManifest, debtor: Debtor): seq<(string, string)>
    requires Printable(m)
  {
    GroupElements(m, debtor, Amount(m.totalMinor)) + PaymentElements(m, debtor, Amount(m.totalMinor))
  }

  function TransactionElements(m: Batch.BatchManifest, c: Batch.Credit): seq<(string, string)>
    requires IsSafeInteger(c.amountMinor)
  {
    [("EndToEndId", m.runNumber + "-" + c.invoiceNumber), ("InstdAmt", Amount(c.amountMinor)),
     ("Nm", c.beneficiary.bank), ("Nm", c.beneficiary.holder), ("Id", c.beneficiary.accountNumber), ("Ustrd", c.memo)]
  }

  function CreditElements(m: Batch.BatchManifest): seq<seq<(string, string)>>
    requires Printable(m)
  {
    seq(|m.credits|, i requires 0 <= i < |m.credits| => TransactionElements(m, m.credits[i]))
  }

  // ----- Every part is laid out properly -----

  lemma ElementReads(indent: string, name: string, text: string)
    requires PlainName(name) && '<' !in indent
    ensures LineOk(Element(indent, name, text)) && Unescape(Element(indent, name, text).raw) == text
  {
    EscapeRoundTrip(text);
  }

  /** One element between any number of opening and closing lines. */
  lemma ItemReads(opens: seq<Line>, indent: string, name: string, text: string, closes: seq<Line>)
    requires PlainName(name) && '<' !in indent
    requires forall k :: 0 <= k < |opens| ==> opens[k].Open? && LineOk(opens[k])
    requires ClosesOk(closes)
    ensures var it := Item(opens, Element(indent, name, text), closes);
            ItemOk(it) && ElementOf(it) == (name, text)
  {
    ElementReads(indent, name, text);
  }

  lemma PlainReads(indent: string, name: string, text: string)
    requires PlainName(name) && '<' !in indent
    ensures ItemOk(Plain(indent, name, text)) && ElementOf(Plain(indent, name, text)) == (name, text)
  {
    ItemReads([], indent, name, text, []);
  }

  lemma FixedReads(indent: string, name: string, raw: string)
    requires PlainName(name) && '<' !in indent && '<' !in raw && '&' !in raw
    ensures ItemOk(Fixed(indent, name, raw)) && ElementOf(Fixed(indent, name, raw)) == (name, raw)
  {
    UnescapePlain(raw);
  }

  lemma DeclarationOk()
    ensures LineOk(Open("", "?xml", Attribute("version", "1.0") + Attribute("encoding", "UTF-8") + "?"))
  {
    AttributeOk("version", "1.0");
    AttributeOk("encoding", "UTF-8");
    assert '<' !in "?" && '>' !in "?";
    assert PlainName("?xml");
  }

  lemma NamespaceOk()
    ensures LineOk(Open("", "Document", Attribute("xmlns", PAIN_001_NS)))
  {
    var a, b, c := "urn:iso:std:iso:", "20022:tech:xsd:", "pain.001.001.08";
    assert NoMarkup(a) && NoMarkup(b) && NoMarkup(c);
    assert NoMarkup(a + b + c);
    AttributeOk("xmlns", a + b + c);
    assert PlainName("Document");
  }

  lemma OpensOk()
    ensures LineOk(Open("  ", "CstmrCdtTrfInitn", "")) && LineOk(Open("    ", "GrpHdr", ""))
  {
  }

  lemma PreambleReads(m: Batch.BatchManifest)
    ensures ItemOk(Preamble(m)) && ElementOf(Preamble(m)) == ("MsgId", m.runNumber)
  {
    DeclarationOk();
    NamespaceOk();
    OpensOk();
    ElementReads("      ", "MsgId", m.runNumber);
  }

  lemma InitiatingPartyReads(debtor: Debtor)
    ensures ItemOk(InitiatingParty(debtor)) && ElementOf(InitiatingParty(debtor)) == ("Nm", debtor.name)
  {
    var it := InitiatingParty(debtor);
    ItemReads(it.opens, "        ", "Nm", debtor.name, it.closes);
  }

  lemma PaymentIdReads(m: Batch.BatchManifest)
    ensures ItemOk(PaymentId(m)) && ElementOf(PaymentId(m)) == ("PmtInfId", m.runNumber + "-1")
  {
    var it := PaymentId(m);
    ItemReads(it.opens, "      ", "PmtInfId", m.runNumber + "-1", it.closes);
  }

  lemma DebtorNameReads(debtor: Debtor)
    ensures ItemOk(DebtorName(debtor)) && ElementOf(DebtorName(debtor)) == ("Nm", debtor.name)
  {
    var it := DebtorName(debtor);
    ItemReads(it.opens, "        ", "Nm", debtor.name, it.closes);
  }

  lemma DebtorAccountReads(debtor: Debtor)
    ensures ItemOk(DebtorAccount(debtor)) && ElementOf(DebtorAccount(debtor)) == ("Id", debtor.account)
  {
    var it := DebtorAccount(debtor);
    ItemReads(it.opens, "            ", "Id", debtor.account, it.closes);
  }

  lemma EndToEndReads(m: Batch.BatchManifest, c: Batch.Credit)
    ensures ItemOk(EndToEnd(m, c)) && ElementOf(EndToEnd(m, c)) == ("EndToEndId", m.runNumber + "-" + c.invoiceNumber)
  {
    var it := EndToEnd(m, c);
    ItemReads(it.opens, "          ", "EndToEndId", m.runNumber + "-" + c.invoiceNumber, it.closes);
  }

  lemma CreditorBankReads(c: Batch.Credit)
    ensures ItemOk(CreditorBank(c)) && ElementOf(CreditorBank(c)) == ("Nm", c.beneficiary.bank)
  {
    var it := CreditorBank(c);
    ItemReads(it.opens, "            ", "Nm", c.beneficiary.bank, it.closes);
  }

  lemma CreditorNameReads(c: Batch.Credit)
    ensures ItemOk(CreditorName(c)) && ElementOf(CreditorName(c)) == ("Nm", c.beneficiary.holder)
  {
    var it := CreditorName(c);
    ItemReads(it.opens, "          ", "Nm", c.beneficiary.holder, it.closes);
  }

  lemma CreditorAccountReads(c: Batch.Credit)
    ensures ItemOk(CreditorAccount(c)) && ElementOf(CreditorAccount(c)) == ("Id", c.beneficiary.accountNumber)
  {
    var it := CreditorAccount(c);
    ItemReads(it.opens, "              ", "Id", c.beneficiary.accountNumber, it.closes);
  }

  lemma RemittanceReads(c: Batch.Credit)
    ensures ItemOk(Remittance(c)) && ElementOf(Remittance(c)) == ("Ustrd", c.memo)
  {
    var it := Remittance(c);
    ItemReads(it.opens, "          ", "Ustrd", c.memo, it.closes);
  }

  lemma InstructedReads(c: Batch.Credit, amount: string)
    requires '<' !in amount && '&' !in amount
    ensures ItemOk(Instructed(c, amount)) && ElementOf(Instructed(c, amount)) == ("InstdAmt", amount)
  {
    EscapeRoundTrip(c.currencyCode);
    AttributeOk("Ccy", EscapeXml(c.currencyCode));
    UnescapePlain(amount);
  }

  lemma AmountIsPlain(minor: int)
    requires IsSafeInteger(minor)
    ensures '<' !in Amount(minor) && '&' !in Amount(minor)
    ensures ParseAmount(Amount(minor)) == Some(minor)
  {
    AmountRoundTrip(minor);
  }

  lemma ElementsOfSix(a: Item, b: Item, c: Item, d: Item, e: Item, f: Item)
    requires ItemOk(a) && ItemOk(b) && ItemOk(c) && ItemOk(d) && ItemOk(e) && ItemOk(f)
    ensures ItemsOk([a, b, c, d, e, f])
    ensures Elements([a, b, c, d, e, f])
         == [ElementOf(a), ElementOf(b), ElementOf(c), ElementOf(d), ElementOf(e), ElementOf(f)]
  {
  }

  lemma TransactionReads(m: Batch.BatchManifest, c: Batch.Credit)
    requires IsSafeInteger(c.amountMinor)
    ensures ItemsOk(Transaction(m, c, Amount(c.amountMinor)))
    ensures Elements(Transaction(m, c, Amount(c.amountMinor))) == TransactionElements(m, c)
  {
    AmountIsPlain(c.amountMinor);
    EndToEndReads(m, c);
    InstructedReads(c, Amount(c.amountMinor));
    CreditorBankReads(c);
    CreditorNameReads(c);
    CreditorAccountReads(c);
    RemittanceReads(c);
    ElementsOfSix(EndToEnd(m, c), Instructed(c, Amount(c.amountMinor)), CreditorBank(c), CreditorName(c),
                  CreditorAccount(c), Remittance(c));
  }

  lemma TransactionsRead(m: Batch.BatchManifest)
    requires Printable(m)
    ensures ItemsOk(Flatten(Transactions(m)))
    ensures Elements(Flatten(Transactions(m))) == Flatten(CreditElements(m))
  {
    forall i | 0 <= i < |m.credits|
      ensures ItemsOk(Transactions(m)[i]) && Elements(Transactions(m)[i]) == CreditElements(m)[i]
    {
      TransactionReads(m, m.credits[i]);
    }
    FlattenReads(Transactions(m), CreditElements(m));
  }

  lemma GroupHeaderReads(m: Batch.BatchManifest, debtor: Debtor, total: string)
    ensures ItemsOk(GroupHeader(m, debtor, total))
    ensures Elements(GroupHeader(m, debtor, total)) == GroupElements(m, debtor, total)
  {
    PreambleReads(m);
    PlainReads("      ", "CreDtTm", m.executedAt);
    PlainReads("      ", "NbOfTxs", Decimal(m.lineCount));
    PlainReads("      ", "CtrlSum", total);
    InitiatingPartyReads(debtor);
  }

  lemma PaymentMethodReads(m: Batch.BatchManifest)
    ensures ItemsOk(PaymentMethod(m))
    ensures Elements(PaymentMethod(m))
         == [("PmtInfId", m.runNumber + "-1"), ("PmtMtd", "TRF"), ("BtchBookg", "false")]
  {
    PaymentIdReads(m);
    FixedReads("      ", "PmtMtd", "TRF");
    FixedReads("      ", "BtchBookg", "false");
  }

  lemma PaymentTotalsRead(m: Batch.BatchManifest, debtor: Debtor, total: string)
    ensures ItemsOk(PaymentTotals(m, debtor, total))
    ensures Elements(PaymentTotals(m, debtor, total))
         == [("NbOfTxs", Decimal(m.lineCount)), ("CtrlSum", total), ("Nm", debtor.name), ("Id", debtor.account)]
  {
    PlainReads("      ", "NbOfTxs", Decimal(m.lineCount));
    PlainReads("      ", "CtrlSum", total);
    DebtorNameReads(debtor);
    DebtorAccountReads(debtor);
  }

  lemma PaymentHeaderReads(m: Batch.BatchManifest, debtor: Debtor, total: string)
    ensures ItemsOk(PaymentHeader(m, debtor, total))
    ensures Elements(PaymentHeader(m, debtor, total)) == PaymentElements(m, debtor, total)
  {
    PaymentMethodReads(m);
    PaymentTotalsRead(m, debtor, total);
    ElementsConcat(PaymentMethod(m), PaymentTotals(m, debtor, total));
  }

  lemma CloseOk(indent: string, name: string)
    requires forall i :: 0 <= i < |indent| ==> indent[i] == ' '
    requires |name| > 0 && forall i :: 0 <= i < |name| ==> 'A' <= name[i] <= 'z'
    ensures LineOk(Close(indent, name))
  {
  }

  lemma TrailerOk()
    ensures ClosesOk(TRAILER)
  {
    CloseOk("    ", "PmtInf");
    CloseOk("  ", "CstmrCdtTrfInitn");
    CloseOk("", "Document");
  }

  /** A reader of the message recovers every value of the batch and of the debtor,
      in order, whatever characters the names and memos contain. */
  lemma MessageReadsBack(m: Batch.BatchManifest, debtor: Debtor)
    ensures BuildPain001(m, debtor).Some? <==> Printable(m)
    ensures Printable(m) ==>
              ReadElements(BuildPain001(m, debtor).value) == HeaderElements(m, debtor) + Flatten(CreditElements(m))
  {
    if Printable(m) {
      var total := Amount(m.totalMinor);
      var group, payment, rest := GroupHeader(m, debtor, total), PaymentHeader(m, debtor, total),
          Flatten(Transactions(m));
      GroupHeaderReads(m, debtor, total);
      PaymentHeaderReads(m, debtor, total);
      TransactionsRead(m);
      ElementsConcat(group, payment);
      ElementsConcat(group + payment, rest);
      TrailerOk();
      ItemsLayOut(Items(m, debtor), TRAILER);
      ReadsLeaves("", Lines(Items(m, debtor)) + TRAILER);
      assert "" + RenderLines(Lines(Items(m, debtor)) + TRAILER) == RenderLines(Lines(Items(m, debtor)) + TRAILER);
    }
  }

  // ----- Control sums -----

  /** The texts of all elements of one name. */
  function Values(es: seq<(string, string)>, name: string): seq<string> {
    if |es| == 0 then []
    else Values(es[..|es| - 1], name) + (if es[|es| - 1].0 == name then [es[|es| - 1].1] else [])
  }

  lemma {:induction false} ValuesConcat(a: seq<(string, string)>, b: seq<(string, string)>, name: string)
    ensures Values(a + b, name) == Values(a, name) + Values(b, name)
  {
    if |b| == 0 {
      assert a + b == a;
    } else {
      ValuesConcat(a, b[..|b| - 1], name);
      assert (a + b)[..|a + b| - 1] == a + b[..|b| - 1];
    }
  }

  lemma {:induction false} NoValues(es: seq<(string, string)>, name: string)
    requires forall i :: 0 <= i < |es| ==> es[i].0 != name
    ensures Values(es, name) == []
  {
    if |es| > 0 {
      NoValues(es[..|es| - 1], name);
    }
  }

  lemma OneValue(before: seq<(string, string)>, text: string, after: seq<(string, string)>, name: string)
    requires forall i :: 0 <= i < |before| ==> before[i].0 != name
    requires forall i :: 0 <= i < |after| ==> after[i].0 != name
    ensures Values(before + [(name, text)] + after, name) == [text]
  {
    NoValues(before, name);
    NoValues(after, name);
    ValuesConcat(before + [(name, text)], after, name);
    ValuesConcat(before, [(name, text)], name);
    NoValues([], name);
    assert [(name, text)][..0] == [];
  }

  lemma TransactionValues(m: Batch.BatchManifest, c: Batch.Credit)
    requires IsSafeInteger(c.amountMinor)
    ensures Values(TransactionElements(m, c), "InstdAmt") == [Amount(c.amountMinor)]
    ensures Values(TransactionElements(m, c), "NbOfTxs") == []
    ensures Values(TransactionElements(m, c), "CtrlSum") == []
  {
    var es := TransactionElements(m, c);
    assert es == es[..1] + [("InstdAmt", Amount(c.amountMinor))] + es[2..];
    OneValue(es[..1], Amount(c.amountMinor), es[2..], "InstdAmt");
    NoValues(es, "NbOfTxs");
    NoValues(es, "CtrlSum");
  }

  /** The rendered amounts of the credits. */
  function Amounts(m: Batch.BatchManifest): seq<string>
    requires Printable(m)
  {
    seq(|m.credits|, i requires 0 <= i < |m.credits| => Amount(m.credits[i].amountMinor))
  }

  lemma {:induction false} ValuesFlatten(groups: seq<seq<(string, string)>>, texts: seq<string>, name: string)
    requires |groups| == |texts|
    requires forall i :: 0 <= i < |groups| ==> Values(groups[i], name) == [texts[i]]
    ensures Values(Flatten(groups), name) == texts
  {
    if |groups| > 0 {
      var n := |groups| - 1;
      ValuesFlatten(groups[..n], texts[..n], name);
      ValuesConcat(Flatten(groups[..n]), groups[n], name);
    }
  }

  lemma {:induction false} NoValuesFlatten(groups: seq<seq<(string, string)>>, name: string)
    requires forall i :: 0 <= i < |groups| ==> Values(groups[i], name) == []
    ensures Values(Flatten(groups), name) == []
  {
    if |groups| > 0 {
      var n := |groups| - 1;
      NoValuesFlatten(groups[..n], name);
      ValuesConcat(Flatten(groups[..n]), groups[n], name);
    }
  }

  lemma CreditValues(m: Batch.BatchManifest)
    requires Printable(m)
    ensures var es := Flatten(CreditElements(m));
            Values(es, "InstdAmt") == Amounts(m) && Values(es, "NbOfTxs") == [] && Values(es, "CtrlSum") == []
  {
    forall i | 0 <= i < |m.credits|
      ensures Values(CreditElements(m)[i], "InstdAmt") == [Amounts(m)[i]]
              && Values(CreditElements(m)[i], "NbOfTxs") == [] && Values(CreditElements(m)[i], "CtrlSum") == []
    {
      TransactionValues(m, m.credits[i]);
    }
    ValuesFlatten(CreditElements(m), Amounts(m), "InstdAmt");
    NoValuesFlatten(CreditElements(m), "NbOfTxs");
    NoValuesFlatten(CreditElements(m), "CtrlSum");
  }

  lemma OneValueAt(es: seq<(string, string)>, k: nat, name: string)
    requires k < |es| && forall i :: 0 <= i < |es| ==> (es[i].0 == name <==> i == k)
    ensures Values(es, name) == [es[k].1]
  {
    assert es == es[..k] + [(name, es[k].1)] + es[k + 1..];
    OneValue(es[..k], es[k].1, es[k + 1..], name);
  }

  lemma GroupValues(m: Batch.BatchManifest, debtor: Debtor, total: string)
    ensures Values(GroupElements(m, debtor, total), "InstdAmt") == []
    ensures Values(GroupElements(m, debtor, total), "NbOfTxs") == [Decimal(m.lineCount)]
    ensures Values(GroupElements(m, debtor, total), "CtrlSum") == [total]
  {
    var es := GroupElements(m, debtor, total);
    NoValues(es, "InstdAmt");
    OneValueAt(es, 2, "NbOfTxs");
    OneValueAt(es, 3, "CtrlSum");
  }

  lemma PaymentValues(m: Batch.BatchManifest, debtor: Debtor, total: string)
    ensures Values(PaymentElements(m, debtor, total), "InstdAmt") == []
    ensures Values(PaymentElements(m, debtor, total), "NbOfTxs") == [Decimal(m.lineCount)]
    ensures Values(PaymentElements(m, debtor, total), "CtrlSum") == [total]
  {
    var es := PaymentElements(m, debtor, total);
    NoValues(es, "InstdAmt");
    OneValueAt(es, 3, "NbOfTxs");
    OneValueAt(es, 4, "CtrlSum");
  }

  lemma HeaderValues(m: Batch.BatchManifest, debtor: Debtor)
    requires Printable(m)
    ensures var es := HeaderElements(m, debtor);
            Values(es, "InstdAmt") == []
            && Values(es, "NbOfTxs") == [Decimal(m.lineCount), Decimal(m.lineCount)]
            && Values(es, "CtrlSum") == [Amount(m.totalMinor), Amount(m.totalMinor)]
  {
    var count, total := Decimal(m.lineCount), Amount(m.totalMinor);
    var group, payment := GroupElements(m, debtor, total), PaymentElements(m, debtor, total);
    GroupValues(m, debtor, total);
    PaymentValues(m, debtor, total);
    JoinedValues(group, payment, "InstdAmt", [], []);
    JoinedValues(group, payment, "NbOfTxs", [count], [count]);
    JoinedValues(group, payment, "CtrlSum", [total], [total]);
  }

  function ParsedAmounts(texts: seq<string>): seq<int> {
    seq(|texts|, i requires 0 <= i < |texts| =>
      if ParseAmount(texts[i]).Some? then ParseAmount(texts[i]).value else 0)
  }

  lemma JoinedValues(header: seq<(string, string)>, credits: seq<(string, string)>, name: string,
                     a: seq<string>, b: seq<string>)
    requires Values(header, name) == a && Values(credits, name) == b
    ensures Values(header + credits, name) == a + b
  {
    ValuesConcat(header, credits, name);
  }

  /** What the message holds under the three names. */
  lemma MessageValues(m: Batch.BatchManifest, debtor: Debtor)
    requires Printable(m)
    ensures var es := ReadElements(BuildPain001(m, debtor).value);
            Values(es, "InstdAmt") == Amounts(m)
            && Values(es, "NbOfTxs") == [Decimal(m.lineCount), Decimal(m.lineCount)]
            && Values(es, "CtrlSum") == [Amount(m.totalMinor), Amount(m.totalMinor)]
  {
    var header, credits := HeaderElements(m, debtor), Flatten(CreditElements(m));
    var counts, sums := [Decimal(m.lineCount), Decimal(m.lineCount)], [Amount(m.totalMinor), Amount(m.totalMinor)];
    MessageReadsBack(m, debtor);
    HeaderValues(m, debtor);
    CreditValues(m);
    JoinedValues(header, credits, "InstdAmt", [], Amounts(m));
    JoinedValues(header, credits, "NbOfTxs", counts, []);
    JoinedValues(header, credits, "CtrlSum", sums, []);
  }

  lemma AmountsParse(m: Batch.BatchManifest)
    requires Printable(m)
    ensures forall i :: 0 <= i < |m.credits| ==> ParseAmount(Amounts(m)[i]).Some?
    ensures ParsedAmounts(Amounts(m)) == Batch.CreditAmounts(m.credits)
  {
    forall i | 0 <= i < |m.credits| ensures ParseAmount(Amounts(m)[i]) == Some(m.credits[i].amountMinor) {
      AmountIsPlain(m.credits[i].amountMinor);
    }
  }

  /** The counts and totals that every built batch has. */
  predicate Conserved(m: Batch.BatchManifest) {
    m.lineCount == |m.credits| && Sum(Batch.CreditAmounts(m.credits)) == m.totalMinor
  }

  lemma BuiltBatchIsConserved(cmp: Batch.Collation, runNumber: string, executedAt: string, currencyCode: string,
                              totalMinor: int, lines: seq<Batch.CreditInput>)
    ensures var b := Batch.BuildPaymentBatch(cmp, runNumber, executedAt, currencyCode, totalMinor, lines);
            b.BatchBuilt? ==> Conserved(b.manifest)
  {
    Batch.BatchConserves(cmp, runNumber, executedAt, currencyCode, totalMinor, lines);
  }

  /** Both transaction counts count the instructed amounts, every amount parses, and
      both control sums parse to what the amounts add up to. */
  predicate Agrees(es: seq<(string, string)>) {
    var amounts, counts, sums := Values(es, "InstdAmt"), Values(es, "NbOfTxs"), Values(es, "CtrlSum");
    |counts| == 2 == |sums|
    && (forall i :: 0 <= i < 2 ==> ParseDecimal(counts[i]) == Some(|amounts|))
    && (forall i :: 0 <= i < |amounts| ==> ParseAmount(amounts[i]).Some?)
    && (forall i :: 0 <= i < 2 ==> ParseAmount(sums[i]) == Some(Sum(ParsedAmounts(amounts))))
  }

  /** The message of a conserved batch agrees with itself. */
  lemma ControlSumsAgree(m: Batch.BatchManifest, debtor: Debtor)
    requires Conserved(m) && Printable(m)
    ensures Agrees(ReadElements(BuildPain001(m, debtor).value))
  {
    var es := ReadElements(BuildPain001(m, debtor).value);
    MessageValues(m, debtor);
    TotalsAgree(m, Values(es, "InstdAmt"), Values(es, "NbOfTxs"), Values(es, "CtrlSum"));
  }

  /** Whatever rows a batch is built from and whoever pays, the message that comes
      with it agrees with itself, and none comes exactly when a setting is blank;
      a total or amount beyond the safe integers throws instead. */
  lemma BuiltMessageAgrees(cmp: Batch.Collation, runNumber: string, executedAt: string, currencyCode: string,
                           totalMinor: int, lines: seq<Batch.CreditInput>,
                           name: Option<string>, account: Option<string>)
    ensures var b := Batch.BuildPaymentBatch(cmp, runNumber, executedAt, currencyCode, totalMinor, lines);
            b.BatchBuilt? ==>
              var e := EmitFor(b.manifest, name, account);
              (e.Emitted? ==> Agrees(ReadElements(e.xml)))
              && (e.NotConfigured? <==> Batch.TrimmedOrEmpty(name) == "" || Batch.TrimmedOrEmpty(account) == "")
              && (e.UnsafeAmount? <==> !e.NotConfigured? && !Printable(b.manifest))
  {
    var b := Batch.BuildPaymentBatch(cmp, runNumber, executedAt, currencyCode, totalMinor, lines);
    if b.BatchBuilt? && EmitFor(b.manifest, name, account).Emitted? {
      BuiltBatchIsConserved(cmp, runNumber, executedAt, currencyCode, totalMinor, lines);
      ControlSumsAgree(b.manifest, ResolveDebtor(name, account).value);
    }
  }

  lemma TotalsAgree(m: Batch.BatchManifest, amounts: seq<string>, counts: seq<string>, sums: seq<string>)
    requires Conserved(m) && Printable(m) && amounts == Amounts(m)
    requires counts == [Decimal(m.lineCount), Decimal(m.lineCount)]
    requires sums == [Amount(m.totalMinor), Amount(m.totalMinor)]
    ensures forall i :: 0 <= i < 2 ==> ParseDecimal(counts[i]) == Some(|amounts|)
    ensures forall i :: 0 <= i < |amounts| ==> ParseAmount(amounts[i]).Some?
    ensures forall i :: 0 <= i < 2 ==> ParseAmount(sums[i]) == Some(Sum(ParsedAmounts(amounts)))
  {
    DecimalRoundTrip(m.lineCount);
    AmountIsPlain(m.totalMinor);
    AmountsParse(m);
  }
}

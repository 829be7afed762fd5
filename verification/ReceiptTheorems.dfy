/** Goods receipts: what is accepted, what is booked, and what a correction undoes. */
module ReceiptTheorems {
  import opened Common
  import opened Sums
  import opened LedgerModel
  import opened LedgerSteps
  import opened RequisitionTheorems
  import opened OrderTheorems

  // ----- Recording -----

  /** A positive quantity; a line of an order must be one of this order, and a number
      given with it must be its own. */
  predicate LineAccepted(p: nat, po: Po, l: ReceiptInput) {
    0 < l.quantity && FitsColumn(l.quantity)
    && (l.poLine.Some? ==>
          l.poLine.value.0 == p && 1 <= l.poLine.value.1 <= |po.lines|
          && (l.lineNo.Some? ==> l.lineNo.value == l.poLine.value.1))
  }

  /** The number a received line counts for. */
  function NumberOf(l: ReceiptInput): Option<int> {
    if l.poLine.Some? then Some(l.poLine.value.1) else l.lineNo
  }

  function AskedOn(inputs: seq<ReceiptInput>, no: int): seq<int> {
    seq(|inputs|, i requires 0 <= i < |inputs| => if NumberOf(inputs[i]) == Some(no) then inputs[i].quantity else 0)
  }

  /** On every line that is received, earlier goods and these together stay within what
      was ordered. */
  predicate WithinOrdered(db: Db, p: nat, inputs: seq<ReceiptInput>)
    requires p < |db.pos|
  {
    forall i :: 0 <= i < |inputs| ==> LineWithinOrdered(db, p, inputs, NumberOf(inputs[i]))
  }

  predicate LineWithinOrdered(db: Db, p: nat, inputs: seq<ReceiptInput>, number: Option<int>)
    requires p < |db.pos|
  {
    number.Some? && 1 <= number.value <= |db.pos[p].lines| ==>
      QuantityOn(db.receipts, db.receiptLines, p, number.value) + Sum(AskedOn(inputs, number.value))
      <= db.pos[p].lines[number.value - 1].quantity
  }

  lemma LineIsResolved(p: nat, po: Po, l: ReceiptInput)
    ensures ResolveLine(p, po, l).ResolvedTo? <==> LineAccepted(p, po, l)
    ensures LineAccepted(p, po, l) ==> ResolveLine(p, po, l).lineNo == NumberOf(l)
  {
  }

  lemma BookedAsAsked(p: nat, po: Po, inputs: seq<ReceiptInput>, receipt: nat, no: int)
    requires AllResolve(p, po, inputs)
    ensures RequestedOn(BookedLines(p, po, inputs, receipt), no) == AskedOn(inputs, no)
  {
    forall i | 0 <= i < |inputs| ensures ResolveLine(p, po, inputs[i]).lineNo == NumberOf(inputs[i]) {
      LineIsResolved(p, po, inputs[i]);
    }
  }

  lemma OrderedIsEnough(db: Db, p: nat, inputs: seq<ReceiptInput>)
    requires p < |db.pos| && AllResolve(p, db.pos[p], inputs)
    ensures FitsOrder(db, p, BookedLines(p, db.pos[p], inputs, |db.receipts|)) <==> WithinOrdered(db, p, inputs)
  {
    var booked := BookedLines(p, db.pos[p], inputs, |db.receipts|);
    forall i | 0 <= i < |inputs|
      ensures booked[i].lineNo == NumberOf(inputs[i])
      ensures forall no :: RequestedOn(booked, no) == AskedOn(inputs, no)
    {
      LineIsResolved(p, db.pos[p], inputs[i]);
      forall no {
        BookedAsAsked(p, db.pos[p], inputs, |db.receipts|, no);
      }
    }
    if WithinOrdered(db, p, inputs) {
      forall i | 0 <= i < |booked| ensures LineWithinOrdered(db, p, inputs, booked[i].lineNo) {
      }
    } else {
      var i :| 0 <= i < |inputs| && !LineWithinOrdered(db, p, inputs, NumberOf(inputs[i]));
      assert booked[i].lineNo == NumberOf(inputs[i]);
    }
  }

  /** Goods are booked exactly when there are some, the order is live, every line is
      acceptable and nothing goes beyond what was ordered. The receipt and its lines are
      added, as they were given; apart from them only invoices are judged anew. */
  lemma ReceiptIsBooked(db: Db, p: nat, inputs: seq<ReceiptInput>)
    ensures RecordReceipt(db, p, inputs).Done?
       <==> |inputs| > 0 && p < |db.pos| && db.pos[p].status != PoCancelled
            && (forall i :: 0 <= i < |inputs| ==> LineAccepted(p, db.pos[p], inputs[i]))
            && WithinOrdered(db, p, inputs)
    ensures RecordReceipt(db, p, inputs).Refused? ==>
              RecordReceipt(db, p, inputs).why == (if |inputs| > 0 && p >= |db.pos| then NotFound else Conflict)
    ensures RecordReceipt(db, p, inputs).Done? ==>
              var after, n := RecordReceipt(db, p, inputs).db, |db.receiptLines|;
              |after.receiptLines| == n + |inputs|
              && after == db.(receipts := db.receipts + [Receipt(p, true)],
                              receiptLines := db.receiptLines + after.receiptLines[n..],
                              invoices := after.invoices)
              && forall i :: 0 <= i < |inputs| ==>
                   after.receiptLines[n + i] == ReceiptLine(|db.receipts|, NumberOf(inputs[i]), inputs[i].quantity)
  {
    if p < |db.pos| {
      forall i | 0 <= i < |inputs|
        ensures ResolveLine(p, db.pos[p], inputs[i]).ResolvedTo? <==> LineAccepted(p, db.pos[p], inputs[i])
        ensures LineAccepted(p, db.pos[p], inputs[i]) ==>
                  ResolveLine(p, db.pos[p], inputs[i]).lineNo == NumberOf(inputs[i])
      {
        LineIsResolved(p, db.pos[p], inputs[i]);
      }
      if AllResolve(p, db.pos[p], inputs) {
        OrderedIsEnough(db, p, inputs);
      }
    }
  }

  // ----- Correcting -----

  /** A receipt is taken back exactly while it is recorded and nothing of its order is
      claimed or paid. Its lines stay and count no more; apart from it only invoices of
      the order are judged anew. */
  lemma ReceiptIsTakenBack(db: Db, r: nat)
    ensures CancelReceipt(db, r).Done?
       <==> r < |db.receipts| && db.receipts[r].recorded && Unclaimed(db, db.receipts[r].po)
    ensures CancelReceipt(db, r).Refused? ==>
              CancelReceipt(db, r).why == (if r < |db.receipts| then Conflict else NotFound)
    ensures CancelReceipt(db, r).Done? ==>
              var after := CancelReceipt(db, r).db;
              after == db.(receipts := db.receipts[r := db.receipts[r].(recorded := false)],
                           invoices := after.invoices)
  {
    if r < |db.receipts| {
      CorrectionNeedsUnclaimed(db, db.receipts[r].po);
    }
  }

  /** A receipt adds exactly its own lines to the quantity on each line of its order,
      and nothing to any other order. */
  lemma ReceiptCounts(db: Db, p: nat, inputs: seq<ReceiptInput>, q: nat, no: int)
    requires RecordReceipt(db, p, inputs).Done?
    requires forall i :: 0 <= i < |db.receiptLines| ==> db.receiptLines[i].receipt < |db.receipts|
    ensures var after := RecordReceipt(db, p, inputs).db;
            QuantityOn(after.receipts, after.receiptLines, q, no)
            == QuantityOn(db.receipts, db.receiptLines, q, no) + (if q == p then Sum(AskedOn(inputs, no)) else 0)
  {
    ReceiptIsBooked(db, p, inputs);
    var n := |db.receiptLines|;
    BookedCounts(db.receipts, db.receiptLines, RecordReceipt(db, p, inputs).db.receiptLines[n..], p, inputs, q, no);
  }

  lemma BookedCounts(receipts: seq<Receipt>, rls: seq<ReceiptLine>, more: seq<ReceiptLine>, p: nat,
                     inputs: seq<ReceiptInput>, q: nat, no: int)
    requires forall i :: 0 <= i < |rls| ==> rls[i].receipt < |receipts|
    requires |more| == |inputs|
    requires forall i :: 0 <= i < |more| ==>
               more[i] == ReceiptLine(|receipts|, NumberOf(inputs[i]), inputs[i].quantity)
    ensures QuantityOn(receipts + [Receipt(p, true)], rls + more, q, no)
         == QuantityOn(receipts, rls, q, no) + (if q == p then Sum(AskedOn(inputs, no)) else 0)
  {
    var was := Quantities(receipts, rls, q, no);
    var now := Quantities(receipts + [Receipt(p, true)], rls + more, q, no);
    assert now[..|rls|] == was;
    assert now == was + now[|rls|..];
    SumConcat(was, now[|rls|..]);
    if q == p {
      assert now[|rls|..] == AskedOn(inputs, no);
    } else {
      SumZero(now[|rls|..]);
    }
  }

  /** Taking a receipt back takes exactly its own lines away again. */
  lemma TakenBackCounts(db: Db, r: nat, q: nat, no: int)
    requires CancelReceipt(db, r).Done?
    ensures var after := CancelReceipt(db, r).db;
            QuantityOn(after.receipts, after.receiptLines, q, no)
            == QuantityOn(db.receipts, db.receiptLines, q, no)
               - Sum(QuantitiesOf(db.receiptLines, r, db.receipts[r].po == q, no))
  {
    var after := CancelReceipt(db, r).db;
    ReceiptIsTakenBack(db, r);
    SumsDiffer(Quantities(db.receipts, db.receiptLines, q, no),
               Quantities(after.receipts, after.receiptLines, q, no),
               QuantitiesOf(db.receiptLines, r, db.receipts[r].po == q, no));
  }

  /** What receipt `r` holds on line `no`, if it is about this order at all. */
  function QuantitiesOf(rls: seq<ReceiptLine>, r: nat, about: bool, no: int): seq<int> {
    seq(|rls|, i requires 0 <= i < |rls| =>
      if about && rls[i].receipt == r && rls[i].lineNo == Some(no) then rls[i].quantity else 0)
  }

  lemma {:induction false} SumsDiffer(a: seq<int>, b: seq<int>, less: seq<int>)
    requires |a| == |b| == |less| && forall i :: 0 <= i < |a| ==> b[i] == a[i] - less[i]
    ensures Sum(b) == Sum(a) - Sum(less)
  {
    if |a| > 0 {
      var n := |a| - 1;
      SumsDiffer(a[..n], b[..n], less[..n]);
    }
  }
}

/** The Philippine tax engine: VAT and withholding (EWT) per invoice line,
    rounded per line, with exact bounds on what the rounding can cost. */
module Tax {
  import opened Common
  import opened Sums

  datatype TaxClass = Goods | Services | Professional | Rental | Other

  datatype TaxLine = TaxLine(amount: int, class_: TaxClass, vatExempt: bool)

  datatype TaxPolicy = TaxPolicy(vatRateBps: int, ewtRatesBps: map<TaxClass, int>)

  datatype LineTax = LineTax(amount: int, vat: int, ewt: int)

  datatype TaxComputation = TaxComputation(
    gross: int,
    vatable: int,
    vat: int,
    ewt: int,
    netPayable: int,
    lines: seq<LineTax>)

  /** An absent rate, like a zero rate, withholds nothing. */
  function PctBps(amount: int, bps: Option<int>): int {
    if bps.None? || bps.value == 0 then 0 else RoundRatio(amount * bps.value, 10_000)
  }

  function RateOf(policy: TaxPolicy, c: TaxClass): Option<int> {
    if c in policy.ewtRatesBps then Some(policy.ewtRatesBps[c]) else None
  }

  predicate IsTaxable(line: TaxLine) {
    !line.vatExempt && line.amount > 0
  }

  function TaxOf(line: TaxLine, policy: TaxPolicy): LineTax {
    LineTax(
      line.amount,
      if IsTaxable(line) then PctBps(line.amount, Some(policy.vatRateBps)) else 0,
      PctBps(line.amount, RateOf(policy, line.class_)))
  }

  function Amounts(lines: seq<TaxLine>): seq<int> {
    seq(|lines|, i requires 0 <= i < |lines| => lines[i].amount)
  }

  function TaxableAmounts(lines: seq<TaxLine>): seq<int> {
    seq(|lines|, i requires 0 <= i < |lines| => if IsTaxable(lines[i]) then lines[i].amount else 0)
  }

  function LineTaxes(lines: seq<TaxLine>, policy: TaxPolicy): seq<LineTax> {
    seq(|lines|, i requires 0 <= i < |lines| => TaxOf(lines[i], policy))
  }

  function Vats(lines: seq<TaxLine>, policy: TaxPolicy): seq<int> {
    seq(|lines|, i requires 0 <= i < |lines| => TaxOf(lines[i], policy).vat)
  }

  function Ewts(lines: seq<TaxLine>, policy: TaxPolicy): seq<int> {
    seq(|lines|, i requires 0 <= i < |lines| => TaxOf(lines[i], policy).ewt)
  }

  /** What `computeTax` must return, as sums over the lines. */
  function Computation(lines: seq<TaxLine>, policy: TaxPolicy): TaxComputation {
    var gross, vat, ewt := Sum(Amounts(lines)), Sum(Vats(lines, policy)), Sum(Ewts(lines, policy));
    TaxComputation(gross, Sum(TaxableAmounts(lines)), vat, ewt, gross + vat - ewt, LineTaxes(lines, policy))
  }

  method ComputeTax(lines: seq<TaxLine>, policy: TaxPolicy) returns (c: TaxComputation)
    ensures c == Computation(lines, policy)
  {
    var results: seq<LineTax> := [];
    var vatable, vat, ewt, gross := 0, 0, 0, 0;
    for k := 0 to |lines|
      invariant results == LineTaxes(lines[..k], policy)
      invariant vatable == Sum(TaxableAmounts(lines[..k]))
      invariant vat == Sum(Vats(lines[..k], policy))
      invariant ewt == Sum(Ewts(lines[..k], policy))
      invariant gross == Sum(Amounts(lines[..k]))
    {
      var line := lines[k];
      var taxable := !line.vatExempt && line.amount > 0;
      var lineVat := if taxable then PctBps(line.amount, Some(policy.vatRateBps)) else 0;
      var lineEwt := PctBps(line.amount, RateOf(policy, line.class_));
      ComputationStep(lines, k, policy);
      vatable := vatable + (if taxable then line.amount else 0);
      vat := vat + lineVat;
      ewt := ewt + lineEwt;
      gross := gross + line.amount;
      results := results + [LineTax(line.amount, lineVat, lineEwt)];
    }
    assert lines[..|lines|] == lines;
    c := TaxComputation(gross, vatable, vat, ewt, gross + vat - ewt, results);
  }

  lemma ComputationStep(lines: seq<TaxLine>, k: nat, policy: TaxPolicy)
    requires k < |lines|
    ensures Sum(TaxableAmounts(lines[..k + 1]))
         == Sum(TaxableAmounts(lines[..k])) + (if IsTaxable(lines[k]) then lines[k].amount else 0)
    ensures Sum(Vats(lines[..k + 1], policy)) == Sum(Vats(lines[..k], policy)) + TaxOf(lines[k], policy).vat
    ensures Sum(Ewts(lines[..k + 1], policy)) == Sum(Ewts(lines[..k], policy)) + TaxOf(lines[k], policy).ewt
    ensures Sum(Amounts(lines[..k + 1])) == Sum(Amounts(lines[..k])) + lines[k].amount
  {
    assert TaxableAmounts(lines[..k + 1])[..k] == TaxableAmounts(lines[..k]);
    assert Vats(lines[..k + 1], policy)[..k] == Vats(lines[..k], policy);
    assert Ewts(lines[..k + 1], policy)[..k] == Ewts(lines[..k], policy);
    assert Amounts(lines[..k + 1])[..k] == Amounts(lines[..k]);
  }

  // ----- What the amounts mean, line by line -----

  /** `share` is `bps` basis points of `amount`, to the nearest unit, halves upwards. */
  predicate IsShare(share: int, amount: int, bps: int) {
    -10_000 <= 2 * amount * bps - 20_000 * share < 10_000
  }

  /** VAT only on a positive amount that is not exempt, withholding by the rate of
      the line's own class. */
  predicate TaxedAs(line: TaxLine, policy: TaxPolicy, t: LineTax) {
    t.amount == line.amount
    && (if !line.vatExempt && line.amount > 0 then IsShare(t.vat, line.amount, policy.vatRateBps) else t.vat == 0)
    && (if line.class_ in policy.ewtRatesBps
        then IsShare(t.ewt, line.amount, policy.ewtRatesBps[line.class_])
        else t.ewt == 0)
  }

  /** What the lines are charged VAT on. */
  function VatBases(lines: seq<TaxLine>): seq<int> {
    seq(|lines|, i requires 0 <= i < |lines| =>
      if !lines[i].vatExempt && lines[i].amount > 0 then lines[i].amount else 0)
  }

  function LineVats(taxes: seq<LineTax>): seq<int> {
    seq(|taxes|, i requires 0 <= i < |taxes| => taxes[i].vat)
  }

  function LineEwts(taxes: seq<LineTax>): seq<int> {
    seq(|taxes|, i requires 0 <= i < |taxes| => taxes[i].ewt)
  }

  /** The computation of an invoice is the sum of its lines, each taxed on its own:
      the VAT base counts the positive amounts that are not exempt, and what is
      payable is gross plus VAT minus withholding. */
  lemma ComputationAddsUp(lines: seq<TaxLine>, policy: TaxPolicy)
    ensures var c := Computation(lines, policy);
            |c.lines| == |lines| && (forall i :: 0 <= i < |lines| ==> TaxedAs(lines[i], policy, c.lines[i]))
            && c.gross == Sum(Amounts(lines)) && c.vatable == Sum(VatBases(lines))
            && c.vat == Sum(LineVats(c.lines)) && c.ewt == Sum(LineEwts(c.lines))
            && c.netPayable == c.gross + c.vat - c.ewt
  {
    var c := Computation(lines, policy);
    assert TaxableAmounts(lines) == VatBases(lines);
    assert Vats(lines, policy) == LineVats(c.lines);
    assert Ewts(lines, policy) == LineEwts(c.lines);
    forall i | 0 <= i < |lines| ensures TaxedAs(lines[i], policy, c.lines[i]) {
      LineIsTaxed(lines[i], policy);
    }
  }

  lemma LineIsTaxed(line: TaxLine, policy: TaxPolicy)
    ensures TaxedAs(line, policy, TaxOf(line, policy))
  {
  }

  /** Exempt lines are charged no VAT, and an invoice without exempt or negative
      lines is charged on all of it. */
  lemma ExemptionDecides(lines: seq<TaxLine>, policy: TaxPolicy)
    ensures (forall i :: 0 <= i < |lines| ==> lines[i].vatExempt) ==>
              Computation(lines, policy).vat == 0 && Computation(lines, policy).vatable == 0
    ensures (forall i :: 0 <= i < |lines| ==> !lines[i].vatExempt && 0 <= lines[i].amount) ==>
              Computation(lines, policy).vatable == Computation(lines, policy).gross
  {
    ComputationAddsUp(lines, policy);
    if forall i :: 0 <= i < |lines| ==> lines[i].vatExempt {
      SumZero(VatBases(lines));
      SumZero(LineVats(Computation(lines, policy).lines));
    }
    if forall i :: 0 <= i < |lines| ==> !lines[i].vatExempt && 0 <= lines[i].amount {
      assert VatBases(lines) == Amounts(lines);
    }
  }

  // ----- What per-line rounding costs -----

  predicate RatesInRange(policy: TaxPolicy) {
    0 <= policy.vatRateBps <= 10_000
    && forall c :: c in policy.ewtRatesBps ==> 0 <= policy.ewtRatesBps[c] <= 10_000
  }

  /** One rounding is off by at most half a minor unit, and a rate of at most
      100% never takes more than the amount. */
  lemma PctBpsClose(amount: int, bps: int)
    ensures 2 * Abs(10_000 * PctBps(amount, Some(bps)) - amount * bps) <= 10_000
    ensures 0 <= amount && 0 <= bps <= 10_000 ==> 0 <= PctBps(amount, Some(bps)) <= amount
  {
    if 0 <= amount && 0 <= bps <= 10_000 {
      MulKeepsOrder(amount, 0, bps);
      MulKeepsOrder(amount, bps, 10_000);
      RoundRatioMonotone(0, amount * bps, 10_000);
      RoundRatioMonotone(amount * bps, amount * 10_000, 10_000);
    }
  }

  lemma CloseStep(bps: int, gross: int, tax: int, n: nat, amount: int, lineTax: int)
    requires 2 * Abs(10_000 * tax - bps * gross) <= 10_000 * n
    requires 2 * Abs(10_000 * lineTax - amount * bps) <= 10_000
    ensures 2 * Abs(10_000 * (tax + lineTax) - bps * (gross + amount)) <= 10_000 * (n + 1)
  {
    assert bps * (gross + amount) == bps * gross + amount * bps;
  }

  function CountTaxable(lines: seq<TaxLine>): nat {
    if |lines| == 0 then 0
    else
      var last := lines[|lines| - 1];
      CountTaxable(lines[..|lines| - 1]) + (if !last.vatExempt && last.amount > 0 then 1 else 0)
  }

  /** Total VAT is within half a minor unit per taxable line of the exact VAT. */
  lemma {:induction false} VatRoundingBound(lines: seq<TaxLine>, policy: TaxPolicy)
    ensures var c := Computation(lines, policy);
            2 * Abs(10_000 * c.vat - policy.vatRateBps * c.vatable) <= 10_000 * CountTaxable(lines)
            && c.vatable == Sum(VatBases(lines))
  {
    if |lines| > 0 {
      var k := |lines| - 1;
      VatRoundingBound(lines[..k], policy);
      assert VatBases(lines)[..k] == VatBases(lines[..k]);
      assert lines[..k + 1] == lines;
      ComputationStep(lines, k, policy);
      if IsTaxable(lines[k]) {
        var before := Computation(lines[..k], policy);
        PctBpsClose(lines[k].amount, policy.vatRateBps);
        CloseStep(policy.vatRateBps, before.vatable, before.vat, CountTaxable(lines[..k]),
                  lines[k].amount, PctBps(lines[k].amount, Some(policy.vatRateBps)));
      }
    }
  }

  /** The withholding and the amounts of one class, and how many lines it has. */
  function ClassEwt(lines: seq<TaxLine>, policy: TaxPolicy, c: TaxClass): int {
    if |lines| == 0 then 0
    else var last := lines[|lines| - 1];
         ClassEwt(lines[..|lines| - 1], policy, c) + (if last.class_ == c then TaxOf(last, policy).ewt else 0)
  }

  function ClassGross(lines: seq<TaxLine>, c: TaxClass): int {
    if |lines| == 0 then 0
    else var last := lines[|lines| - 1];
         ClassGross(lines[..|lines| - 1], c) + (if last.class_ == c then last.amount else 0)
  }

  function ClassCount(lines: seq<TaxLine>, c: TaxClass): nat {
    if |lines| == 0 then 0
    else ClassCount(lines[..|lines| - 1], c) + (if lines[|lines| - 1].class_ == c then 1 else 0)
  }

  /** Per class, withholding is within half a minor unit per line of the exact one. */
  lemma {:induction false} EwtRoundingBound(lines: seq<TaxLine>, policy: TaxPolicy, c: TaxClass)
    ensures var bps := if c in policy.ewtRatesBps then policy.ewtRatesBps[c] else 0;
            2 * Abs(10_000 * ClassEwt(lines, policy, c) - bps * ClassGross(lines, c)) <= 10_000 * ClassCount(lines, c)
  {
    var bps := if c in policy.ewtRatesBps then policy.ewtRatesBps[c] else 0;
    if |lines| > 0 {
      var k := |lines| - 1;
      EwtRoundingBound(lines[..k], policy, c);
      PctBpsClose(lines[k].amount, bps);
      CloseStep(bps, ClassGross(lines[..k], c), ClassEwt(lines[..k], policy, c), ClassCount(lines[..k], c),
                lines[k].amount, PctBps(lines[k].amount, Some(bps)));
    }
  }

  /** The five classes split the whole invoice: withholding and gross are their sums. */
  lemma {:induction false} ClassesSplitInvoice(lines: seq<TaxLine>, policy: TaxPolicy)
    ensures Computation(lines, policy).ewt
         == ClassEwt(lines, policy, Goods) + ClassEwt(lines, policy, Services) + ClassEwt(lines, policy, Professional)
            + ClassEwt(lines, policy, Rental) + ClassEwt(lines, policy, Other)
    ensures Computation(lines, policy).gross
         == ClassGross(lines, Goods) + ClassGross(lines, Services) + ClassGross(lines, Professional)
            + ClassGross(lines, Rental) + ClassGross(lines, Other)
  {
    if |lines| > 0 {
      var k := |lines| - 1;
      ClassesSplitInvoice(lines[..k], policy);
      assert lines[..k + 1] == lines;
      ComputationStep(lines, k, policy);
      match lines[k].class_ case Goods => case Services => case Professional => case Rental => case Other =>
    }
  }

  /** With rates within 0..100% and no negative line, the withholding never
      exceeds the gross: every amount derived from the invoice is non-negative. */
  lemma {:induction false} AmountsStayNonnegative(lines: seq<TaxLine>, policy: TaxPolicy)
    requires RatesInRange(policy)
    requires forall i :: 0 <= i < |lines| ==> 0 <= lines[i].amount
    ensures var c := Computation(lines, policy);
            0 <= c.ewt <= c.gross && 0 <= c.vat <= c.vatable <= c.gross && 0 <= c.netPayable
  {
    if |lines| > 0 {
      var k := |lines| - 1;
      AmountsStayNonnegative(lines[..k], policy);
      assert lines[..k + 1] == lines;
      ComputationStep(lines, k, policy);
      PctBpsClose(lines[k].amount, policy.vatRateBps);
      var rate := RateOf(policy, lines[k].class_);
      if rate.Some? {
        PctBpsClose(lines[k].amount, rate.value);
      }
    }
  }

  // ----- Normalisation of a stored policy -----

  /** A raw JSON rate: absent, not a finite number, or a finite number. */
  datatype RawRate = Missing | NotFinite | Finite(value: real)

  function RoundReal(x: real): int {
    (x + 0.5).Floor
  }

  function NormalizeRate(raw: RawRate, fallback: int): int {
    match raw
    case Missing => fallback
    case NotFinite => fallback
    case Finite(x) =>
      if x < 0.0 then fallback
      else if 0 <= RoundReal(x) <= 10_000 then RoundReal(x) else fallback
  }

  const PH_DEFAULT_POLICY: TaxPolicy :=
    TaxPolicy(1200, map[Goods := 100, Services := 200, Professional := 500, Rental := 500, Other := 0])

  function NormalizeTaxPolicy(vat: RawRate, ewt: map<TaxClass, RawRate>): TaxPolicy {
    TaxPolicy(
      NormalizeRate(vat, PH_DEFAULT_POLICY.vatRateBps),
      map c | c in PH_DEFAULT_POLICY.ewtRatesBps ::
        NormalizeRate(if c in ewt then ewt[c] else Missing, PH_DEFAULT_POLICY.ewtRatesBps[c]))
  }

  /** Without stored rates the Philippine ones apply: 12% VAT, and 1, 2, 5, 5 and 0%
      withheld on goods, services, professional fees, rent and the rest. */
  lemma DefaultRates()
    ensures var p := NormalizeTaxPolicy(Missing, map[]);
            p.vatRateBps == 1_200 && p.ewtRatesBps.Keys == {Goods, Services, Professional, Rental, Other}
            && p.ewtRatesBps[Goods] == 100 && p.ewtRatesBps[Services] == 200 && p.ewtRatesBps[Professional] == 500
            && p.ewtRatesBps[Rental] == 500 && p.ewtRatesBps[Other] == 0
  {
  }

  /** Whatever is stored, the engine runs with rates in 0..10000 for all five
      classes. */
  lemma NormalizedPolicyIsUsable(vat: RawRate, ewt: map<TaxClass, RawRate>)
    ensures var p := NormalizeTaxPolicy(vat, ewt);
            RatesInRange(p) && p.ewtRatesBps.Keys == {Goods, Services, Professional, Rental, Other}
  {
  }

  /** A finite stored rate is used, rounded, exactly when it lies in
      [0, 10000.5); otherwise the default stands. A whole rate in range is kept. */
  lemma NormalizeRateKeeps(x: real, fallback: int, n: nat)
    ensures NormalizeRate(Finite(x), fallback) == (if 0.0 <= x < 10_000.5 then RoundReal(x) else fallback)
    ensures n <= 10_000 ==> NormalizeRate(Finite(n as real), fallback) == n
  {
  }
}

/** Comparison of the received quotes of a requisition: the two criteria, the
    ranking and the recommendation. Amounts are exact, weights are real numbers. */
module Ranking {
  import opened Common
  import Batch
  import Sorting
  import Tax

  datatype Offer = Offer(id: string, currency: string, total: Option<int>, validUntil: Option<int>, rating: Option<int>)

  const DEFAULT_WEIGHT: real := 0.6

  predicate Expired(o: Offer, now: int) {
    o.validUntil.Some? && o.validUntil.value < now
  }

  /** No dearer than: an offer without a total counts as infinitely dear. */
  predicate NoDearer(a: Offer, b: Offer) {
    b.total.None? || (a.total.Some? && a.total.value <= b.total.value)
  }

  predicate CostsBefore(cmp: Batch.Collation, a: Offer, b: Offer) {
    if a.total == b.total then cmp(a.id, b.id) <= 0 else NoDearer(a, b)
  }

  /** Cheapest first, ties by identifier. */
  function ByTotal(cmp: Batch.Collation): (Offer, Offer) -> bool {
    (a: Offer, b: Offer) => CostsBefore(cmp, a, b)
  }

  // ----- Best value -----

  function Weight(priceWeight: Option<real>): (w: real)
    ensures 0.0 <= w <= 1.0
  {
    if priceWeight.Some? && 0.0 <= priceWeight.value <= 1.0 then priceWeight.value else DEFAULT_WEIGHT
  }

  function TotalOrZero(o: Offer): int {
    if o.total.Some? then o.total.value else 0
  }

  function MinTotal(offers: seq<Offer>): (m: int)
    requires |offers| > 0
    ensures exists i :: 0 <= i < |offers| && TotalOrZero(offers[i]) == m
    ensures forall i :: 0 <= i < |offers| ==> m <= TotalOrZero(offers[i])
  {
    var n := |offers| - 1;
    if n == 0 then TotalOrZero(offers[0])
    else
      var before := MinTotal(offers[..n]);
      if TotalOrZero(offers[n]) < before then TotalOrZero(offers[n]) else before
  }

  function MaxTotal(offers: seq<Offer>): (m: int)
    requires |offers| > 0
    ensures exists i :: 0 <= i < |offers| && TotalOrZero(offers[i]) == m
    ensures forall i :: 0 <= i < |offers| ==> TotalOrZero(offers[i]) <= m
  {
    var n := |offers| - 1;
    if n == 0 then TotalOrZero(offers[0]) else Max(MaxTotal(offers[..n]), TotalOrZero(offers[n]))
  }

  /** 100 for the cheapest, 0 for the dearest and for an offer without a total. */
  function PriceComponent(o: Offer, min: int, max: int): real
    requires min <= max
  {
    if o.total.None? then 0.0
    else if max == min then 100.0
    else (max - o.total.value) as real / (max - min) as real * 100.0
  }

  function RatingComponent(o: Offer): int {
    var rating := if o.rating.Some? then o.rating.value else 50;
    Max(0, if rating < 100 then rating else 100)
  }

  function Blend(w: real, v: real, price: real, rating: real): real {
    w * price + v * rating
  }

  function ScoreIn(o: Offer, w: real, min: int, max: int): int
    requires min <= max
  {
    Tax.RoundReal(Blend(w, 1.0 - w, PriceComponent(o, min, max), RatingComponent(o) as real))
  }

  function Score(offers: seq<Offer>, o: Offer, priceWeight: Option<real>): int
    requires |offers| > 0
  {
    ScoreIn(o, Weight(priceWeight), MinTotal(offers), MaxTotal(offers))
  }

  predicate ScoresBefore(cmp: Batch.Collation, w: real, min: int, max: int, a: Offer, b: Offer)
    requires min <= max
  {
    var x, y := ScoreIn(a, w, min, max), ScoreIn(b, w, min, max);
    if x == y then cmp(a.id, b.id) <= 0 else x > y
  }

  /** Highest score first, ties by identifier. */
  function ByScore(cmp: Batch.Collation, w: real, min: int, max: int): (Offer, Offer) -> bool
    requires min <= max
  {
    (a: Offer, b: Offer) => ScoresBefore(cmp, w, min, max, a, b)
  }

  // ----- Comparison -----

  datatype Criterion = LowestCost | BestValue

  datatype Comparison = MixedCurrencies | Compared(ranking: seq<Offer>, recommended: Option<Offer>)

  function FirstUnexpired(ranking: seq<Offer>, now: int): Option<Offer> {
    if |ranking| == 0 then None
    else if !Expired(ranking[0], now) then Some(ranking[0])
    else FirstUnexpired(ranking[1..], now)
  }

  function OrderFor(cmp: Batch.Collation, offers: seq<Offer>, criterion: Criterion, priceWeight: Option<real>)
    : (Offer, Offer) -> bool
  {
    if criterion == BestValue && |offers| > 0
    then ByScore(cmp, Weight(priceWeight), MinTotal(offers), MaxTotal(offers))
    else ByTotal(cmp)
  }

  predicate InCurrency(offers: seq<Offer>, currency: string) {
    forall o | o in offers :: o.currency == currency
  }

  function Compare(cmp: Batch.Collation, offers: seq<Offer>, currency: string, criterion: Criterion,
                   priceWeight: Option<real>, now: int): Comparison {
    if !InCurrency(offers, currency) then MixedCurrencies
    else
      var ranking := Sorting.Sort(OrderFor(cmp, offers, criterion, priceWeight), offers);
      Compared(ranking, FirstUnexpired(ranking, now))
  }

  // ----- Scores -----

  lemma MulReal(w: real, x: real, y: real)
    requires 0.0 <= w && x <= y
    ensures w * x <= w * y
  {
  }

  lemma PriceInRange(o: Offer, min: int, max: int)
    requires min <= max && (o.total.Some? ==> min <= o.total.value <= max)
    ensures 0.0 <= PriceComponent(o, min, max) <= 100.0
  {
    if o.total.Some? && max != min {
      var n, d := (max - o.total.value) as real, (max - min) as real;
      assert 0.0 <= n <= d && d > 0.0;
      RatioInRange(n, d);
    }
  }

  lemma RatioInRange(n: real, d: real)
    requires 0.0 <= n <= d && d > 0.0
    ensures 0.0 <= n / d <= 1.0
  {
  }

  lemma RatioMonotone(n: real, m: real, d: real)
    requires n <= m && d > 0.0
    ensures n / d <= m / d
  {
  }

  lemma BlendMonotone(w: real, v: real, p: real, p': real, r: real, r': real)
    requires 0.0 <= w && 0.0 <= v && p <= p' && r <= r'
    ensures Blend(w, v, p, r) <= Blend(w, v, p', r')
  {
    MulReal(w, p, p');
    MulReal(v, r, r');
  }

  lemma BlendOfBounds(w: real, v: real)
    requires w + v == 1.0
    ensures Blend(w, v, 0.0, 0.0) == 0.0 && Blend(w, v, 100.0, 100.0) == 100.0
  {
  }

  lemma BlendInRange(w: real, v: real, p: real, r: real)
    requires 0.0 <= w && 0.0 <= v && w + v == 1.0 && 0.0 <= p <= 100.0 && 0.0 <= r <= 100.0
    ensures 0.0 <= Blend(w, v, p, r) <= 100.0
  {
    var least, most, blend := Blend(w, v, 0.0, 0.0), Blend(w, v, 100.0, 100.0), Blend(w, v, p, r);
    assert least <= blend <= most by {
      BlendMonotone(w, v, 0.0, p, 0.0, r);
      BlendMonotone(w, v, p, 100.0, r, 100.0);
    }
    assert least == 0.0 && most == 100.0 by {
      BlendOfBounds(w, v);
    }
  }

  /** Every best-value score lies in 0..100. */
  lemma ScoreInRange(offers: seq<Offer>, o: Offer, priceWeight: Option<real>)
    requires o in offers
    ensures 0 <= Score(offers, o, priceWeight) <= 100
  {
    var min, max := MinTotal(offers), MaxTotal(offers);
    PriceInRange(o, min, max);
    BlendInRange(Weight(priceWeight), 1.0 - Weight(priceWeight), PriceComponent(o, min, max),
        RatingComponent(o) as real);
  }

  lemma PriceMonotone(a: Offer, b: Offer, min: int, max: int)
    requires min <= max && NoDearer(a, b)
    requires a.total.Some? ==> min <= a.total.value <= max
    ensures PriceComponent(b, min, max) <= PriceComponent(a, min, max)
  {
    if b.total.None? {
      PriceInRange(a, min, max);
    } else if max != min {
      RatioMonotone((max - b.total.value) as real, (max - a.total.value) as real, (max - min) as real);
    }
  }

  predicate NoWorseRated(a: Offer, b: Offer) {
    RatingComponent(b) <= RatingComponent(a)
  }

  /** An offer that is no dearer and no worse rated never scores lower. */
  lemma ScoreMonotone(offers: seq<Offer>, a: Offer, b: Offer, priceWeight: Option<real>)
    requires a in offers && b in offers && NoDearer(a, b) && NoWorseRated(a, b)
    ensures Score(offers, b, priceWeight) <= Score(offers, a, priceWeight)
  {
    var min, max, w := MinTotal(offers), MaxTotal(offers), Weight(priceWeight);
    PriceMonotone(a, b, min, max);
    BlendMonotone(w, 1.0 - w, PriceComponent(b, min, max), PriceComponent(a, min, max),
                  RatingComponent(b) as real, RatingComponent(a) as real);
  }

  // ----- The ranking and the recommendation -----

  ghost predicate TellsApart(cmp: Batch.Collation, offers: seq<Offer>) {
    forall a, b :: a in offers && b in offers && cmp(a.id, b.id) == 0 ==> a == b
  }

  lemma ByTotalIsPreorder(cmp: Batch.Collation)
    requires Batch.IsCollation(cmp)
    ensures Sorting.IsPreorder(ByTotal(cmp))
  {
    var le := ByTotal(cmp);
    forall a, b ensures le(a, b) || le(b, a) {
      assert cmp(a.id, b.id) <= 0 || cmp(b.id, a.id) <= 0;
    }
    forall a, b, c | le(a, b) && le(b, c) ensures le(a, c) {
      assert cmp(a.id, b.id) <= 0 && cmp(b.id, c.id) <= 0 ==> cmp(a.id, c.id) <= 0;
    }
  }

  lemma ByScoreIsPreorder(cmp: Batch.Collation, w: real, min: int, max: int)
    requires Batch.IsCollation(cmp) && min <= max
    ensures Sorting.IsPreorder(ByScore(cmp, w, min, max))
  {
    var le := ByScore(cmp, w, min, max);
    forall a, b ensures le(a, b) || le(b, a) {
      assert cmp(a.id, b.id) <= 0 || cmp(b.id, a.id) <= 0;
    }
    forall a, b, c | le(a, b) && le(b, c) ensures le(a, c) {
      assert cmp(a.id, b.id) <= 0 && cmp(b.id, c.id) <= 0 ==> cmp(a.id, c.id) <= 0;
    }
  }

  lemma OrderIsPreorder(cmp: Batch.Collation, offers: seq<Offer>, criterion: Criterion, priceWeight: Option<real>)
    requires Batch.IsCollation(cmp)
    ensures Sorting.IsPreorder(OrderFor(cmp, offers, criterion, priceWeight))
  {
    ByTotalIsPreorder(cmp);
    if |offers| > 0 {
      ByScoreIsPreorder(cmp, Weight(priceWeight), MinTotal(offers), MaxTotal(offers));
    }
  }

  lemma OrderDistinguishes(cmp: Batch.Collation, offers: seq<Offer>, criterion: Criterion, priceWeight: Option<real>)
    requires Batch.IsCollation(cmp) && TellsApart(cmp, offers)
    ensures Sorting.Distinguishes(OrderFor(cmp, offers, criterion, priceWeight), offers)
  {
    var le := OrderFor(cmp, offers, criterion, priceWeight);
    forall x, y | x in offers && y in offers && le(x, y) && le(y, x) ensures x == y {
      assert cmp(x.id, y.id) <= 0 && cmp(y.id, x.id) <= 0;
      assert cmp(x.id, y.id) == 0;
    }
  }

  lemma {:induction false} FirstUnexpiredIsFirst(ranking: seq<Offer>, now: int)
    ensures var r := FirstUnexpired(ranking, now);
            (r.None? <==> forall i :: 0 <= i < |ranking| ==> Expired(ranking[i], now))
            && (r.Some? ==> exists k :: 0 <= k < |ranking| && ranking[k] == r.value && !Expired(ranking[k], now)
                                        && forall i :: 0 <= i < k ==> Expired(ranking[i], now))
  {
    if |ranking| > 0 && Expired(ranking[0], now) {
      FirstUnexpiredIsFirst(ranking[1..], now);
      var rest := FirstUnexpired(ranking[1..], now);
      if rest.Some? {
        var k :| 0 <= k < |ranking[1..]| && ranking[1..][k] == rest.value && !Expired(ranking[1..][k], now)
                 && forall i :: 0 <= i < k ==> Expired(ranking[1..][i], now);
        assert ranking[k + 1] == rest.value;
        forall i | 0 <= i < k + 1 ensures Expired(ranking[i], now) {
          assert i > 0 ==> ranking[i] == ranking[1..][i - 1];
        }
      }
    }
  }

  /** The recommendation is an unexpired offer that ranks before every other
      unexpired one, and there is none only when every offer has expired. */
  lemma RecommendationIsBest(cmp: Batch.Collation, offers: seq<Offer>, currency: string, criterion: Criterion,
                             priceWeight: Option<real>, now: int)
    requires Batch.IsCollation(cmp) && Compare(cmp, offers, currency, criterion, priceWeight, now).Compared?
    ensures var c := Compare(cmp, offers, currency, criterion, priceWeight, now);
            multiset(c.ranking) == multiset(offers)
            && (c.recommended.None? <==> forall o :: o in offers ==> Expired(o, now))
            && (c.recommended.Some? ==>
                  c.recommended.value in offers && !Expired(c.recommended.value, now)
                  && forall o :: o in offers && !Expired(o, now) ==>
                       OrderFor(cmp, offers, criterion, priceWeight)(c.recommended.value, o))
  {
    var le := OrderFor(cmp, offers, criterion, priceWeight);
    var ranking := Sorting.Sort(le, offers);
    OrderIsPreorder(cmp, offers, criterion, priceWeight);
    Sorting.SortPermutes(le, offers);
    Sorting.SortSorts(le, offers);
    Sorting.SameElements(ranking, offers);
    FirstUnexpiredIsFirst(ranking, now);
    FirstUnexpiredIsLeast(le, ranking, now);
    assert le == OrderFor(cmp, offers, criterion, priceWeight);
  }

  lemma FirstUnexpiredIsLeast(le: (Offer, Offer) -> bool, ranking: seq<Offer>, now: int)
    requires Sorting.IsPreorder(le) && Sorting.Sorted(le, ranking)
    ensures var r := FirstUnexpired(ranking, now);
            (r.None? <==> forall o :: o in ranking ==> Expired(o, now))
            && (r.Some? ==> r.value in ranking && !Expired(r.value, now)
                            && forall o :: o in ranking && !Expired(o, now) ==> le(r.value, o))
  {
    FirstUnexpiredIsFirst(ranking, now);
    var r := FirstUnexpired(ranking, now);
    if r.Some? {
      var k :| 0 <= k < |ranking| && ranking[k] == r.value && !Expired(ranking[k], now)
               && forall i :: 0 <= i < k ==> Expired(ranking[i], now);
      forall o | o in ranking && !Expired(o, now) ensures le(r.value, o) {
        var j :| 0 <= j < |ranking| && ranking[j] == o;
        assert j >= k;
        assert le(o, o);
      }
    }
  }

  /** What the orders mean: under best value nobody unexpired scores higher; under
      lowest cost nobody unexpired is cheaper. */
  lemma RecommendationMeaning(cmp: Batch.Collation, offers: seq<Offer>, currency: string, criterion: Criterion,
                              priceWeight: Option<real>, now: int, o: Offer)
    requires Batch.IsCollation(cmp) && Compare(cmp, offers, currency, criterion, priceWeight, now).Compared?
    requires o in offers && !Expired(o, now)
    ensures var c := Compare(cmp, offers, currency, criterion, priceWeight, now);
            c.recommended.Some?
            && (criterion == BestValue ==>
                  Score(offers, o, priceWeight) <= Score(offers, c.recommended.value, priceWeight))
            && (criterion == LowestCost ==> NoDearer(c.recommended.value, o))
  {
    RecommendationIsBest(cmp, offers, currency, criterion, priceWeight, now);
  }

  // ----- The same over the offers themselves -----

  predicate Lapsed(o: Offer, now: int) {
    o.validUntil.Some? && o.validUntil.value < now
  }

  predicate IsCheaper(a: Offer, b: Offer) {
    a.total.Some? && (b.total.None? || a.total.value < b.total.value)
  }

  /** 50 for an unrated vendor, and never outside 0..100. */
  function Rating(o: Offer): int {
    if o.rating.None? then 50
    else if o.rating.value < 0 then 0
    else if o.rating.value > 100 then 100
    else o.rating.value
  }

  /** The total that counts; an offer without one counts as nothing. */
  predicate CountsAs(o: Offer, total: int) {
    if o.total.Some? then o.total.value == total else total == 0
  }

  predicate IsCheapest(offers: seq<Offer>, least: int) {
    (exists o | o in offers :: CountsAs(o, least))
    && forall o | o in offers :: if o.total.Some? then least <= o.total.value else least <= 0
  }

  predicate IsDearest(offers: seq<Offer>, most: int) {
    (exists o | o in offers :: CountsAs(o, most))
    && forall o | o in offers :: if o.total.Some? then o.total.value <= most else 0 <= most
  }

  /** How close the price is to the cheapest one, in percent. */
  function Closeness(o: Offer, least: int, most: int): real
    requires least <= most
  {
    if o.total.None? then 0.0
    else if least == most then 100.0
    else (most - o.total.value) as real / (most - least) as real * 100.0
  }

  /** The score: the given share of weight, or 60 percent, on how close the price is to
      the cheapest, the rest on the rating, to the nearest whole number. */
  lemma ScoreFormula(offers: seq<Offer>, o: Offer, priceWeight: Option<real>, least: int, most: int)
    requires o in offers && IsCheapest(offers, least) && IsDearest(offers, most)
    ensures least <= most
    ensures var w := if priceWeight.Some? && 0.0 <= priceWeight.value <= 1.0 then priceWeight.value else 0.6;
            WeighsTo(o, w, least, most, Score(offers, o, priceWeight))
  {
    ExtremesAre(offers, least, most);
    BlendRounds(o, Weight(priceWeight), least, most);
  }

  lemma ExtremesAre(offers: seq<Offer>, least: int, most: int)
    requires |offers| > 0 && IsCheapest(offers, least) && IsDearest(offers, most)
    ensures MinTotal(offers) == least <= most == MaxTotal(offers)
  {
    var cheapest :| cheapest in offers && CountsAs(cheapest, least);
    var dearest :| dearest in offers && CountsAs(dearest, most);
    assert MinTotal(offers) <= TotalOrZero(cheapest) && TotalOrZero(dearest) <= MaxTotal(offers);
  }

  /** How the price and the rating are weighed. */
  predicate WeighsTo(o: Offer, w: real, least: int, most: int, score: int)
    requires least <= most
  {
    RoundsTo(w * Closeness(o, least, most) + (1.0 - w) * Rating(o) as real, score)
  }

  predicate RoundsTo(exact: real, n: int) {
    n as real - 0.5 <= exact < n as real + 0.5
  }

  lemma BlendRounds(o: Offer, w: real, least: int, most: int)
    requires least <= most
    ensures WeighsTo(o, w, least, most, ScoreIn(o, w, least, most))
  {
    var price, rating := PriceComponent(o, least, most), RatingComponent(o) as real;
    RatingIsClamped(o);
    assert price == Closeness(o, least, most);
    BlendIs(w, price, rating);
    NearestWhole(Blend(w, 1.0 - w, price, rating));
  }

  lemma BlendIs(w: real, price: real, rating: real)
    ensures Blend(w, 1.0 - w, price, rating) == w * price + (1.0 - w) * rating
  {
  }

  lemma NearestWhole(x: real)
    ensures RoundsTo(x, Tax.RoundReal(x))
  {
  }

  lemma RatingIsClamped(o: Offer)
    ensures RatingComponent(o) == Rating(o)
  {
  }

  /** Higher scores before lower ones, or cheaper offers before dearer and unpriced ones,
      and ties by identifier. */
  predicate Precedes(cmp: Batch.Collation, offers: seq<Offer>, criterion: Criterion, priceWeight: Option<real>,
                     a: Offer, b: Offer)
    requires |offers| > 0
  {
    if criterion == BestValue
    then Score(offers, b, priceWeight) < Score(offers, a, priceWeight)
         || (Score(offers, b, priceWeight) == Score(offers, a, priceWeight) && cmp(a.id, b.id) <= 0)
    else IsCheaper(a, b) || (a.total == b.total && cmp(a.id, b.id) <= 0)
  }

  lemma OrderPrecedes(cmp: Batch.Collation, offers: seq<Offer>, criterion: Criterion, priceWeight: Option<real>,
                      a: Offer, b: Offer)
    requires |offers| > 0 && OrderFor(cmp, offers, criterion, priceWeight)(a, b)
    ensures Precedes(cmp, offers, criterion, priceWeight, a, b)
  {
  }

  /** The ranking holds the offers in that order; offers in several currencies are not
      compared. */
  lemma RankingIsOrdered(cmp: Batch.Collation, offers: seq<Offer>, currency: string, criterion: Criterion,
                         priceWeight: Option<real>, now: int)
    requires Batch.IsCollation(cmp)
    ensures var c := Compare(cmp, offers, currency, criterion, priceWeight, now);
            (c.MixedCurrencies? <==> exists o :: o in offers && o.currency != currency)
            && (c.Compared? ==>
                  (c.ranking != [] ==> offers != [])
                  && forall i, j :: 0 <= i < j < |c.ranking| ==>
                       Precedes(cmp, offers, criterion, priceWeight, c.ranking[i], c.ranking[j]))
  {
    var le := OrderFor(cmp, offers, criterion, priceWeight);
    OrderIsPreorder(cmp, offers, criterion, priceWeight);
    Sorting.SortSorts(le, offers);
    Sorting.SortPermutes(le, offers);
    var ranking := Sorting.Sort(le, offers);
    forall i, j | 0 <= i < j < |ranking|
      ensures |offers| > 0 && Precedes(cmp, offers, criterion, priceWeight, ranking[i], ranking[j])
    {
      OrderPrecedes(cmp, offers, criterion, priceWeight, ranking[i], ranking[j]);
    }
  }

  /** The recommendation has not lapsed, and nothing that has not lapsed either scores
      higher or is cheaper; without one, everything has lapsed. */
  lemma RecommendationHolds(cmp: Batch.Collation, offers: seq<Offer>, currency: string, criterion: Criterion,
                            priceWeight: Option<real>, now: int)
    requires Batch.IsCollation(cmp) && Compare(cmp, offers, currency, criterion, priceWeight, now).Compared?
    ensures var best := Compare(cmp, offers, currency, criterion, priceWeight, now).recommended;
            (best.None? <==> forall o :: o in offers ==> Lapsed(o, now))
            && (best.Some? ==> best.value in offers && !Lapsed(best.value, now))
            && forall o :: o in offers && !Lapsed(o, now) ==>
                 best.Some?
                 && (if criterion == BestValue
                     then Score(offers, o, priceWeight) <= Score(offers, best.value, priceWeight)
                     else !IsCheaper(o, best.value))
  {
    RecommendationIsBest(cmp, offers, currency, criterion, priceWeight, now);
    forall o | o in offers ensures Expired(o, now) == Lapsed(o, now) {
    }
    forall o | o in offers && !Lapsed(o, now) {
      RecommendationMeaning(cmp, offers, currency, criterion, priceWeight, now, o);
    }
  }

  /** The query has no order: any permutation of the quotes gives the same ranking
      and the same recommendation. */
  lemma ComparisonIsCanonical(cmp: Batch.Collation, a: seq<Offer>, b: seq<Offer>, currency: string,
                              criterion: Criterion, priceWeight: Option<real>, now: int)
    requires Batch.IsCollation(cmp) && TellsApart(cmp, a) && multiset(a) == multiset(b)
    ensures Compare(cmp, a, currency, criterion, priceWeight, now)
            == Compare(cmp, b, currency, criterion, priceWeight, now)
  {
    Sorting.SameElements(a, b);
    SameExtremes(a, b);
    OrderIsPreorder(cmp, a, criterion, priceWeight);
    OrderDistinguishes(cmp, a, criterion, priceWeight);
    Sorting.SortIsCanonical(OrderFor(cmp, a, criterion, priceWeight), a, b);
  }

  lemma SameExtremes(a: seq<Offer>, b: seq<Offer>)
    requires forall x :: x in a <==> x in b
    requires |a| == |b|
    ensures |a| > 0 ==> MinTotal(a) == MinTotal(b) && MaxTotal(a) == MaxTotal(b)
  {
    if |a| > 0 {
      forall i | 0 <= i < |a| ensures MinTotal(b) <= TotalOrZero(a[i]) <= MaxTotal(b) {
        assert a[i] in b;
      }
      forall i | 0 <= i < |b| ensures MinTotal(a) <= TotalOrZero(b[i]) <= MaxTotal(a) {
        assert b[i] in a;
      }
    }
  }
}

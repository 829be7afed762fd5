/** Small shared vocabulary: optional values, the database integer range and
    JavaScript rounding of an exact ratio. */
module Common {

  datatype Option<+T> = None | Some(value: T)

  /** Largest value of a signed 32-bit database column. */
  const DATABASE_INT_MAX: int := 2_147_483_647

  predicate IsDatabaseInt(n: int) {
    0 <= n <= DATABASE_INT_MAX
  }

  function Abs(n: int): nat {
    if n < 0 then -n else n
  }

  function Max(a: int, b: int): int {
    if a < b then b else a
  }

  /** `Math.round(n / d)` on exact numbers: the nearest integer, halves upwards. */
  function RoundRatio(n: int, d: int): (r: int)
    requires d > 0
    ensures 2 * d * r - d <= 2 * n < 2 * d * r + d
  {
    RoundRatioQuotient(n, d);
    (2 * n + d) / (2 * d)
  }

  lemma RoundRatioQuotient(n: int, d: int)
    requires d > 0
    ensures var r := (2 * n + d) / (2 * d); 2 * d * r - d <= 2 * n < 2 * d * r + d
  {
    var q, m := (2 * n + d) / (2 * d), (2 * n + d) % (2 * d);
    assert 2 * n + d == (2 * d) * q + m;
    assert (2 * d) * q == 2 * d * q;
  }

  lemma MulKeepsOrder(k: int, a: int, b: int)
    requires 0 <= k && a <= b
    ensures k * a <= k * b
  {
    assert k * b - k * a == k * (b - a);
  }

  /** Rounding is monotone, so more money never rounds to less. */
  lemma RoundRatioMonotone(n: int, m: int, d: int)
    requires d > 0 && n <= m
    ensures RoundRatio(n, d) <= RoundRatio(m, d)
  {
    var r, s := RoundRatio(n, d), RoundRatio(m, d);
    if s < r {
      MulKeepsOrder(2 * d, s + 1, r);
    }
  }
}

/** Sums over sequences, and the few facts about them that the ledger needs. */
module Sums {

  function Sum(s: seq<int>): int {
    if |s| == 0 then 0 else Sum(s[..|s| - 1]) + s[|s| - 1]
  }

  lemma SumAppend(s: seq<int>, x: int)
    ensures Sum(s + [x]) == Sum(s) + x
  {
    assert (s + [x])[..|s|] == s;
  }

  lemma {:induction false} SumConcat(s: seq<int>, t: seq<int>)
    ensures Sum(s + t) == Sum(s) + Sum(t)
  {
    if |t| == 0 {
      assert s + t == s;
    } else {
      SumConcat(s, t[..|t| - 1]);
      assert (s + t)[..|s + t| - 1] == s + t[..|t| - 1];
    }
  }

  lemma {:induction false} SumUpdate(s: seq<int>, i: nat, v: int)
    requires i < |s|
    ensures Sum(s[i := v]) == Sum(s) - s[i] + v
  {
    var n := |s| - 1;
    if i == n {
      assert s[i := v][..n] == s[..n];
    } else {
      SumUpdate(s[..n], i, v);
      assert s[i := v][..n] == s[..n][i := v];
    }
  }

  /** A pointwise ratio bound carries over to the sums. */
  lemma {:induction false} SumScaled(a: seq<int>, b: seq<int>, m: int, n: int)
    requires |a| == |b|
    requires forall i :: 0 <= i < |a| ==> m * a[i] <= n * b[i]
    ensures m * Sum(a) <= n * Sum(b)
  {
    if |a| > 0 {
      var k := |a| - 1;
      SumScaled(a[..k], b[..k], m, n);
      assert m * a[k] <= n * b[k];
      assert m * (Sum(a[..k]) + a[k]) == m * Sum(a[..k]) + m * a[k];
      assert n * (Sum(b[..k]) + b[k]) == n * Sum(b[..k]) + n * b[k];
    }
  }

  lemma {:induction false} SumAtMost(a: seq<int>, b: seq<int>)
    requires |a| == |b|
    requires forall i :: 0 <= i < |a| ==> a[i] <= b[i]
    ensures Sum(a) <= Sum(b)
  {
    SumScaled(a, b, 1, 1);
  }

  lemma {:induction false} SumZero(a: seq<int>)
    requires forall i :: 0 <= i < |a| ==> a[i] == 0
    ensures Sum(a) == 0
  {
    if |a| > 0 {
      SumZero(a[..|a| - 1]);
    }
  }

  lemma {:induction false} SumNonnegative(a: seq<int>)
    requires forall i :: 0 <= i < |a| ==> 0 <= a[i]
    ensures 0 <= Sum(a)
  {
    if |a| > 0 {
      SumNonnegative(a[..|a| - 1]);
    }
  }

  lemma {:induction false} SumCoversEach(a: seq<int>, k: nat)
    requires k < |a|
    requires forall i :: 0 <= i < |a| ==> 0 <= a[i]
    ensures a[k] <= Sum(a)
  {
    SumUpdate(a, k, 0);
    SumNonnegative(a[k := 0]);
  }

  function Without<T>(s: seq<T>, k: nat): (r: seq<T>)
    requires k < |s|
  {
    s[..k] + s[k + 1..]
  }

  lemma WithoutMultiset<T>(s: seq<T>, k: nat)
    requires k < |s|
    ensures multiset(Without(s, k)) == multiset(s) - multiset{s[k]}
  {
    assert s == s[..k] + ([s[k]] + s[k + 1..]);
    assert multiset(s) == multiset(s[..k]) + (multiset{s[k]} + multiset(s[k + 1..]));
  }

  lemma {:induction false} SumWithout(s: seq<int>, k: nat)
    requires k < |s|
    ensures Sum(Without(s, k)) == Sum(s) - s[k]
  {
    var n := |s| - 1;
    if k == n {
      assert Without(s, k) == s[..n];
    } else {
      SumWithout(s[..n], k);
      assert Without(s, k) == Without(s[..n], k) + [s[n]];
      SumAppend(Without(s[..n], k), s[n]);
    }
  }

  /** The sum does not depend on the order of the rows. */
  lemma {:induction false} SumPermutation(a: seq<int>, b: seq<int>)
    requires multiset(a) == multiset(b)
    ensures Sum(a) == Sum(b)
  {
    if |a| == 0 {
      assert |multiset(b)| == 0;
    } else {
      assert a[0] in multiset(b);
      var k :| 0 <= k < |b| && b[k] == a[0];
      WithoutMultiset(a, 0);
      WithoutMultiset(b, k);
      SumPermutation(Without(a, 0), Without(b, k));
      SumWithout(a, 0);
      SumWithout(b, k);
    }
  }
}

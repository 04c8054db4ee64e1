/**
 * The altcoin screener's per-token metrics: the z-score of the latest open
 * interest against its recent history, and the weighted breakout score on
 * a 0-10 scale. `Math.sqrt` is a parameter: every property below holds for
 * any function in its place, or for any function that is non-negative and
 * positive on positive inputs, as a square root is.
 */
module ComputeMetrics {
  import opened Common
  import MovingAverage

  /** One row of the screener (the `AltcoinToken` record). */
  datatype AltcoinToken = AltcoinToken(
    symbol: string,
    price: real,
    priceChange24h: real,
    priceChange7d: real,
    volume24h: real,
    marketCap: real,
    fdv: real,
    openInterest: real,
    oiChange24h: real,
    oiZScore: real,
    fundingRate: real,
    fundingApr: real,
    relativeStrength: real,
    breakoutScore: real)

  /** Fewer values than this give a z-score of 0. */
  const MinZValues := 5

  // ---------------------------------------------------------------------------
  // The open-interest z-score.

  function Mean(values: seq<real>): real
    requires |values| > 0
  {
    Sum(values) / |values| as real
  }

  /** `(v - mean) ** 2` for every value. */
  function SquaredDeviations(values: seq<real>, mean: real): (r: seq<real>)
    ensures |r| == |values|
  {
    seq(|values|, k requires 0 <= k < |values| => Square(values[k] - mean))
  }

  function Square(x: real): real
  {
    Product(x, x)
  }

  function Product(a: real, b: real): real
  {
    a * b
  }

  lemma PositiveProduct(a: real, b: real)
    requires a > 0.0 && b > 0.0
    ensures Product(a, b) > 0.0
  {
  }

  /** Every squared deviation is non-negative, and zero exactly at a value equal to the mean. */
  lemma DeviationFacts(values: seq<real>, mean: real)
    ensures forall k :: 0 <= k < |values| ==> SquaredDeviations(values, mean)[k] >= 0.0
    ensures forall k :: 0 <= k < |values| ==> (SquaredDeviations(values, mean)[k] == 0.0 <==> values[k] == mean)
  {
    forall k | 0 <= k < |values|
      ensures SquaredDeviations(values, mean)[k] >= 0.0
      ensures SquaredDeviations(values, mean)[k] == 0.0 <==> values[k] == mean
    {
      SquareFacts(values[k] - mean);
    }
  }

  lemma SquareFacts(x: real)
    ensures Square(x) >= 0.0
    ensures Square(x) == 0.0 <==> x == 0.0
  {
    if x > 0.0 {
      PositiveProduct(x, x);
    } else if x < 0.0 {
      PositiveProduct(-x, -x);
      assert Product(-x, -x) == Product(x, x);
    }
  }

  /** Population variance: the squared deviations are divided by the count, not the count less one. */
  function Variance(values: seq<real>): real
    requires |values| > 0
  {
    Sum(SquaredDeviations(values, Mean(values))) / |values| as real
  }

  /**
   * `computeOiZScore`: 0 for fewer than five values or a zero standard
   * deviation; otherwise the score times the deviation is how far the last
   * value lies from the mean.
   */
  function OiZScore(values: seq<real>, sqrt: real -> real): (z: real)
    ensures |values| < MinZValues ==> z == 0.0
    ensures |values| >= MinZValues && sqrt(Variance(values)) == 0.0 ==> z == 0.0
    ensures |values| >= MinZValues && sqrt(Variance(values)) != 0.0 ==>
      z * sqrt(Variance(values)) == values[|values| - 1] - Mean(values)
  {
    if |values| < MinZValues then 0.0
    else
      var stddev := sqrt(Variance(values));
      if stddev == 0.0 then 0.0 else (values[|values| - 1] - Mean(values)) / stddev
  }

  /** A sum of non-negative terms is non-negative, and zero only when every term is. */
  lemma {:induction false} SumNonNegative(s: seq<real>)
    requires forall k :: 0 <= k < |s| ==> s[k] >= 0.0
    ensures Sum(s) >= 0.0
    ensures Sum(s) == 0.0 <==> forall k :: 0 <= k < |s| ==> s[k] == 0.0
  {
    if |s| > 0 {
      SumNonNegative(s[..|s| - 1]);
      assert forall k :: 0 <= k < |s| - 1 ==> s[..|s| - 1][k] == s[k];
    }
  }

  /** The variance is never negative, so the square root is always of a non-negative number. */
  lemma VarianceNonNegative(values: seq<real>)
    requires |values| > 0
    ensures Variance(values) >= 0.0
  {
    DeviationFacts(values, Mean(values));
    SumNonNegative(SquaredDeviations(values, Mean(values)));
  }

  /** The variance is 0 exactly when every value equals the mean. */
  lemma VarianceZero(values: seq<real>)
    requires |values| > 0
    ensures Variance(values) == 0.0 <==> forall k :: 0 <= k < |values| ==> values[k] == Mean(values)
  {
    var m := Mean(values);
    var d := SquaredDeviations(values, m);
    DeviationFacts(values, m);
    SumNonNegative(d);
  }

  /** A constant series has its value as its mean and a zero variance. */
  lemma ConstantSeries(values: seq<real>, c: real)
    requires |values| > 0
    requires forall k :: 0 <= k < |values| ==> values[k] == c
    ensures Mean(values) == c
    ensures Variance(values) == 0.0
  {
    MovingAverage.SumConstant(values, c);
    assert Sum(values) / |values| as real == c;
    VarianceZero(values);
  }

  /** A constant series scores 0, whatever the square root returns. */
  lemma ConstantSeriesScoresZero(values: seq<real>, c: real, sqrt: real -> real)
    requires forall k :: 0 <= k < |values| ==> values[k] == c
    ensures OiZScore(values, sqrt) == 0.0
  {
    if |values| >= MinZValues {
      ConstantSeries(values, c);
    }
  }

  /**
   * With a square root that is non-negative on non-negative numbers and
   * positive on positive ones, the z-score has the sign of the last value
   * less the mean.
   */
  lemma ZScoreSign(values: seq<real>, sqrt: real -> real)
    requires |values| >= MinZValues
    requires forall x :: x >= 0.0 ==> sqrt(x) >= 0.0
    requires forall x :: x > 0.0 ==> sqrt(x) > 0.0
    ensures OiZScore(values, sqrt) > 0.0 <==> values[|values| - 1] > Mean(values)
    ensures OiZScore(values, sqrt) < 0.0 <==> values[|values| - 1] < Mean(values)
  {
    var v := Variance(values);
    var diff := values[|values| - 1] - Mean(values);
    var z := OiZScore(values, sqrt);
    VarianceNonNegative(values);
    if v == 0.0 {
      VarianceZero(values);
      if sqrt(v) != 0.0 {
        assert z * sqrt(v) == 0.0;
      }
    } else {
      assert sqrt(v) > 0.0;
      assert z * sqrt(v) == diff;
      SignOfQuotient(diff, sqrt(v), z);
    }
  }

  lemma SignOfQuotient(diff: real, s: real, z: real)
    requires s > 0.0 && z * s == diff
    ensures z > 0.0 <==> diff > 0.0
    ensures z < 0.0 <==> diff < 0.0
  {
    if z > 0.0 { assert z * s > 0.0; }
    if z < 0.0 { assert (-z) * s > 0.0; }
  }

  // ---------------------------------------------------------------------------
  // The breakout score.

  /** `Math.min(max, Math.max(min, value))`. */
  function Clamp(value: real, lo: real, hi: real): (r: real)
    ensures lo <= hi ==> lo <= r <= hi
    ensures lo <= value <= hi ==> r == value
    ensures value < lo && lo <= hi ==> r == lo
    ensures value > hi ==> r == hi
    ensures hi < lo ==> r == hi
  {
    var atLeast := if lo > value then lo else value;
    if hi < atLeast then hi else atLeast
  }

  lemma ClampMonotone(a: real, b: real, lo: real, hi: real)
    requires a <= b
    ensures Clamp(a, lo, hi) <= Clamp(b, lo, hi)
  {
  }

  function Abs(x: real): (r: real)
    ensures r >= 0.0 && (r == x || r == -x)
  {
    if x < 0.0 then -x else x
  }

  /** The open-interest part: 0 up to a z-score of -1, 10 from 2 on, linear between. */
  function OiComponent(z: real): (c: real)
    ensures 0.0 <= c <= 10.0
    ensures z <= -1.0 ==> c == 0.0
    ensures z >= 2.0 ==> c == 10.0
    ensures -1.0 < z < 2.0 ==> 0.0 < c < 10.0
  {
    Clamp((z + 1.0) / 3.0, 0.0, 1.0) * 10.0
  }

  /** The relative-strength part: 0 for a non-positive strength, 10 from 2 on. */
  function RsComponent(rs: real): (c: real)
    ensures 0.0 <= c <= 10.0
    ensures rs <= 0.0 ==> c == 0.0
    ensures rs >= 2.0 ==> c == 10.0
  {
    Clamp(rs / 2.0, 0.0, 1.0) * 10.0
  }

  /** The funding part: 10 for zero funding, falling to 0 at an annual rate of 100% either way. */
  function FundingComponent(apr: real): (c: real)
    ensures 0.0 <= c <= 10.0
    ensures apr == 0.0 ==> c == 10.0
    ensures Abs(apr) >= 100.0 ==> c == 0.0
  {
    Clamp(1.0 - Abs(apr) / 100.0, 0.0, 1.0) * 10.0
  }

  /** The momentum part: 0 up to a 7-day change of -10%, 10 from +20% on. */
  function MomentumComponent(change7d: real): (c: real)
    ensures 0.0 <= c <= 10.0
    ensures change7d <= -10.0 ==> c == 0.0
    ensures change7d >= 20.0 ==> c == 10.0
  {
    Clamp((change7d + 10.0) / 30.0, 0.0, 1.0) * 10.0
  }

  /** Every selected token is a high-volume one, so volume scores a fixed 5. */
  const VolumeComponent := 5.0

  /** `computeBreakoutScore`: the components weighted 30%, 25%, 20%, 15% and 10%. */
  function BreakoutScore(t: AltcoinToken): (s: real)
    ensures 0.5 <= s <= 9.5
  {
    OiComponent(t.oiZScore) * 0.3
    + RsComponent(t.relativeStrength) * 0.25
    + FundingComponent(t.fundingApr) * 0.2
    + MomentumComponent(t.priceChange7d) * 0.15
    + VolumeComponent * 0.1
  }

  /** The open-interest part rises strictly between a z-score of -1 and 2. */
  lemma OiComponentIncreasing(a: real, b: real)
    requires -1.0 <= a < b <= 2.0
    ensures OiComponent(a) < OiComponent(b)
  {
  }

  /**
   * The score never falls when the z-score, the relative strength or the
   * 7-day change rise or the funding rate moves towards zero.
   */
  lemma BreakoutScoreMonotone(t: AltcoinToken, u: AltcoinToken)
    requires t.oiZScore <= u.oiZScore
    requires t.relativeStrength <= u.relativeStrength
    requires t.priceChange7d <= u.priceChange7d
    requires Abs(u.fundingApr) <= Abs(t.fundingApr)
    ensures BreakoutScore(t) <= BreakoutScore(u)
  {
    ClampMonotone((t.oiZScore + 1.0) / 3.0, (u.oiZScore + 1.0) / 3.0, 0.0, 1.0);
    ClampMonotone(t.relativeStrength / 2.0, u.relativeStrength / 2.0, 0.0, 1.0);
    ClampMonotone(1.0 - Abs(t.fundingApr) / 100.0, 1.0 - Abs(u.fundingApr) / 100.0, 0.0, 1.0);
    ClampMonotone((t.priceChange7d + 10.0) / 30.0, (u.priceChange7d + 10.0) / 30.0, 0.0, 1.0);
  }

  /**
   * The weights: taking one input from its worst to its best value moves
   * the score by 3, 2.5, 2 and 1.5 points, and a token worst on every input
   * still scores the 0.5 of the fixed volume part.
   */
  lemma ComponentWeights(t: AltcoinToken)
    ensures BreakoutScore(t.(oiZScore := 2.0)) - BreakoutScore(t.(oiZScore := -1.0)) == 3.0
    ensures BreakoutScore(t.(relativeStrength := 2.0)) - BreakoutScore(t.(relativeStrength := 0.0)) == 2.5
    ensures BreakoutScore(t.(fundingApr := 0.0)) - BreakoutScore(t.(fundingApr := 100.0)) == 2.0
    ensures BreakoutScore(t.(priceChange7d := 20.0)) - BreakoutScore(t.(priceChange7d := -10.0)) == 1.5
    ensures BreakoutScore(t.(oiZScore := -1.0, relativeStrength := 0.0, fundingApr := 100.0, priceChange7d := -10.0)) == 0.5
    ensures BreakoutScore(t.(oiZScore := 2.0, relativeStrength := 2.0, fundingApr := 0.0, priceChange7d := 20.0)) == 9.5
  {
  }
}

/**
 * Per-feature statistics of a table of rows: column extraction, arithmetic
 * mean, the sum of squared deviations and the sample variance (divisor n-1),
 * and the table of (mean, standard deviation) pairs built for one class.
 * Values are exact reals; the square root is supplied by the caller.
 */
module Statistics {

  /** One row of a class's statistics table: the source stores it as the
      two-element array {mean, stdDev}. */
  datatype FeatureStats = FeatureStats(mean: real, stdDev: real)

  /** Every row has `noOfFeatures` feature columns followed by the label. */
  predicate WellFormed(data: seq<seq<real>>, noOfFeatures: nat)
  {
    forall i :: 0 <= i < |data| ==> |data[i]| == noOfFeatures + 1
  }

  /** Column `feature` exists in every row. */
  predicate HasColumn(data: seq<seq<real>>, feature: nat)
  {
    forall i :: 0 <= i < |data| ==> feature < |data[i]|
  }

  /** The values of one column, top to bottom. */
  function Column(data: seq<seq<real>>, feature: nat): seq<real>
    requires HasColumn(data, feature)
  {
    seq(|data|, i requires 0 <= i < |data| => data[i][feature])
  }

  /** Left-to-right sum, as the source's accumulator computes it. */
  function Sum(s: seq<real>): real
  {
    if s == [] then 0.0 else Sum(s[..|s| - 1]) + s[|s| - 1]
  }

  function Mean(s: seq<real>): real
    requires |s| > 0
  {
    Sum(s) / |s| as real
  }

  /** `Math.pow(x, 2)`. */
  function Square(x: real): real
  {
    x * x
  }

  /** The sum of (x - mean)^2 over the values, accumulated left to right. */
  function SumOfSquares(s: seq<real>, mean: real): real
  {
    if s == [] then 0.0
    else SumOfSquares(s[..|s| - 1], mean) + Square(s[|s| - 1] - mean)
  }

  /** Unbiased variance: divisor n - 1, undefined for exactly one value. */
  function SampleVariance(s: seq<real>, mean: real): real
    requires |s| != 1
  {
    SumOfSquares(s, mean) / (|s| - 1) as real
  }

  /** The (mean, standard deviation) pair of one column. */
  function ColumnStats(s: seq<real>, sqrt: real -> real): FeatureStats
    requires |s| >= 2
  {
    FeatureStats(Mean(s), sqrt(SampleVariance(s, Mean(s))))
  }

  /** The per-feature statistics table of a class partition. */
  function StatsTable(data: seq<seq<real>>, noOfFeatures: nat, sqrt: real -> real): seq<FeatureStats>
    requires WellFormed(data, noOfFeatures) && |data| >= 2
  {
    seq(noOfFeatures, f requires 0 <= f < noOfFeatures => ColumnStats(Column(data, f), sqrt))
  }

  /** Copies column `feature` into a fresh array. */
  method GetValuesForMean(data: seq<seq<real>>, feature: nat) returns (vals: seq<real>)
    requires HasColumn(data, feature)
    ensures |vals| == |data|
    ensures forall i :: 0 <= i < |data| ==> vals[i] == data[i][feature]
  {
    var a := new real[|data|];
    for i := 0 to |data|
      invariant forall k :: 0 <= k < i ==> a[k] == data[k][feature]
    {
      a[i] := data[i][feature];
    }
    vals := a[..];
  }

  /** Sum of column `feature` divided by the row count. */
  method ArithmeticMean(data: seq<seq<real>>, feature: nat) returns (mean: real)
    requires HasColumn(data, feature) && |data| > 0
    ensures mean == Mean(Column(data, feature))
  {
    var values := GetValuesForMean(data, feature);
    assert values == Column(data, feature);
    var n := |values| as real;
    var tmp := 0.0;
    for i := 0 to |values|
      invariant tmp == Sum(values[..i])
    {
      assert values[..i + 1][..i] == values[..i];
      tmp := tmp + values[i];
    }
    assert values[..|values|] == values;
    mean := tmp / n;
  }

  /** Square root of the sum of squared deviations from `mean` divided by
      n - 1. With no rows the divisor is -1 and the sum 0, so the result is
      sqrt(0); only a single row divides by zero. */
  method StandardDeviation(data: seq<seq<real>>, mean: real, feature: nat, sqrt: real -> real)
    returns (stDev: real)
    requires HasColumn(data, feature) && |data| != 1
    ensures stDev == sqrt(SampleVariance(Column(data, feature), mean))
  {
    ghost var col := Column(data, feature);
    var n := |data|;
    var sum := 0.0;
    for i := 0 to n
      invariant sum == SumOfSquares(col[..i], mean)
    {
      assert col[..i + 1][..i] == col[..i];
      var tmp := data[i][feature] - mean;
      sum := sum + Square(tmp);
    }
    assert col[..n] == col;
    stDev := sqrt(sum / (n - 1) as real);
  }

  /** The statistics table of one class: row f holds the mean and standard
      deviation of feature column f. */
  method FeatureStatsTable(data: seq<seq<real>>, noOfFeatures: nat, sqrt: real -> real)
    returns (table: seq<FeatureStats>)
    requires WellFormed(data, noOfFeatures) && |data| >= 2
    ensures |table| == noOfFeatures
    ensures forall f :: 0 <= f < noOfFeatures ==>
      table[f] == FeatureStats(Mean(Column(data, f)), sqrt(SampleVariance(Column(data, f), Mean(Column(data, f)))))
    ensures table == StatsTable(data, noOfFeatures, sqrt)
  {
    var a := new FeatureStats[noOfFeatures];
    for feature := 0 to noOfFeatures
      invariant forall f :: 0 <= f < feature ==> a[f] == ColumnStats(Column(data, f), sqrt)
    {
      var tmpMean := ArithmeticMean(data, feature);
      var tmpStdDev := StandardDeviation(data, tmpMean, feature, sqrt);
      a[feature] := FeatureStats(tmpMean, tmpStdDev);
    }
    table := a[..];
  }

  lemma {:induction false} SumOfConstant(s: seq<real>, c: real)
    requires forall i :: 0 <= i < |s| ==> s[i] == c
    ensures Sum(s) == |s| as real * c
  {
    if s != [] {
      SumOfConstant(s[..|s| - 1], c);
    }
  }

  /** A column whose values are all `c` has mean `c`. */
  lemma MeanOfConstant(s: seq<real>, c: real)
    requires |s| > 0
    requires forall i :: 0 <= i < |s| ==> s[i] == c
    ensures Mean(s) == c
  {
    SumOfConstant(s, c);
  }

  lemma {:induction false} SumBounds(s: seq<real>, lo: real, hi: real)
    requires forall i :: 0 <= i < |s| ==> lo <= s[i] <= hi
    ensures |s| as real * lo <= Sum(s) <= |s| as real * hi
  {
    if s != [] {
      SumBounds(s[..|s| - 1], lo, hi);
    }
  }

  /** The mean lies between any lower and upper bound of the values. */
  lemma MeanBetweenBounds(s: seq<real>, lo: real, hi: real)
    requires |s| > 0
    requires forall i :: 0 <= i < |s| ==> lo <= s[i] <= hi
    ensures lo <= Mean(s) <= hi
  {
    SumBounds(s, lo, hi);
    var n := |s| as real;
    assert Mean(s) * n == Sum(s);
  }

  lemma SquarePositive(d: real)
    requires d != 0.0
    ensures Square(d) > 0.0
  {
    if d < 0.0 {
      var e := 0.0 - d;
      calc {
        Square(d);
        e * e;
      > { assert e > 0.0; }
        0.0;
      }
    } else {
      calc {
        Square(d);
        d * d;
      > 0.0;
      }
    }
  }

  lemma {:induction false} SumOfSquaresNonNegative(s: seq<real>, mean: real)
    ensures SumOfSquares(s, mean) >= 0.0
  {
    if s != [] {
      SumOfSquaresNonNegative(s[..|s| - 1], mean);
      var d := s[|s| - 1] - mean;
      if d != 0.0 { SquarePositive(d); }
    }
  }

  /** The squared deviations vanish exactly when every value equals `mean`. */
  lemma {:induction false} SumOfSquaresZeroIff(s: seq<real>, mean: real)
    ensures SumOfSquares(s, mean) == 0.0 <==> forall i :: 0 <= i < |s| ==> s[i] == mean
  {
    if s != [] {
      var init := s[..|s| - 1];
      var d := s[|s| - 1] - mean;
      SumOfSquaresZeroIff(init, mean);
      SumOfSquaresNonNegative(init, mean);
      assert SumOfSquares(s, mean) == SumOfSquares(init, mean) + Square(d);
      if d != 0.0 { SquarePositive(d); }
      if SumOfSquares(s, mean) == 0.0 {
        assert d == 0.0;
        assert SumOfSquares(init, mean) == 0.0;
        forall i | 0 <= i < |s| ensures s[i] == mean {
          if i < |s| - 1 { assert s[i] == init[i]; }
        }
      }
    }
  }

  lemma SampleVarianceNonNegative(s: seq<real>, mean: real)
    requires |s| >= 2
    ensures SampleVariance(s, mean) >= 0.0
  {
    SumOfSquaresNonNegative(s, mean);
  }

  /** A constant column of two or more values has mean `c` and variance 0. */
  lemma ConstantColumnHasZeroVariance(s: seq<real>, c: real)
    requires |s| >= 2
    requires forall i :: 0 <= i < |s| ==> s[i] == c
    ensures Mean(s) == c && SampleVariance(s, Mean(s)) == 0.0
  {
    MeanOfConstant(s, c);
    SumOfSquaresZeroIff(s, c);
  }
}

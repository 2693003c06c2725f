/**
 * Scoring a module under test against one class, and choosing the class.
 * The Gaussian density is supplied by the caller as a function of
 * (x, mean, standard deviation).
 */
module Scoring {
  import opened Statistics

  /** One density factor per feature column of `row`; the last column (the
      label) contributes none. */
  function DensityFactors(row: seq<real>, stats: seq<FeatureStats>, density: (real, real, real) -> real): seq<real>
    requires 1 <= |row| <= |stats| + 1
  {
    seq(|row| - 1, f requires 0 <= f < |row| - 1 => density(row[f], stats[f].mean, stats[f].stdDev))
  }

  /** Left-to-right product. */
  function Product(s: seq<real>): real
  {
    if s == [] then 1.0 else Product(s[..|s| - 1]) * s[|s| - 1]
  }

  /** The score of `row` for a class: its prior times the density of every
      feature column of `row` under that class's statistics. */
  function Score(prior: real, row: seq<real>, stats: seq<FeatureStats>, density: (real, real, real) -> real): real
    requires 1 <= |row| <= |stats| + 1
  {
    prior * Product(DensityFactors(row, stats, density))
  }

  /** Starts from the class prior and multiplies in the density of every
      feature column of `row`, one feature after the other. */
  method AccumulateScore(prior: real, row: seq<real>, stats: seq<FeatureStats>, density: (real, real, real) -> real)
    returns (score: real)
    requires 1 <= |row| <= |stats| + 1
    ensures score == Score(prior, row, stats, density)
  {
    ghost var factors := DensityFactors(row, stats, density);
    score := prior;
    for feature := 0 to |row| - 1
      invariant score == prior * Product(factors[..feature])
    {
      var x := row[feature];
      var mean := stats[feature].mean;
      var stdDev := stats[feature].stdDev;
      var gaussDistr := density(x, mean, stdDev);
      assert factors[..feature + 1][..feature] == factors[..feature];
      calc {
        score * gaussDistr;
        (prior * Product(factors[..feature])) * gaussDistr;
        prior * (Product(factors[..feature]) * gaussDistr);
        prior * Product(factors[..feature + 1]);
      }
      score := score * gaussDistr;
    }
    assert factors[..|row| - 1] == factors;
  }

  /** The score reads only the feature columns: two rows that agree on them
      get the same score, whatever their labels. */
  lemma ScoreIgnoresLabel(prior: real, row: seq<real>, other: seq<real>, stats: seq<FeatureStats>,
                          density: (real, real, real) -> real)
    requires 1 <= |row| <= |stats| + 1
    requires |other| == |row| && other[..|row| - 1] == row[..|row| - 1]
    ensures Score(prior, other, stats, density) == Score(prior, row, stats, density)
  {
    forall f | 0 <= f < |row| - 1 ensures other[f] == row[f] {
      assert other[..|row| - 1][f] == row[..|row| - 1][f];
    }
    assert DensityFactors(other, stats, density) == DensityFactors(row, stats, density);
  }

  /** When both classes start from the same positive prior, the class with
      the larger score is the class with the larger density product: the
      prior plays no part in the decision. */
  lemma SharedPriorDecision(prior: real, row: seq<real>, stats0: seq<FeatureStats>, stats1: seq<FeatureStats>,
                            density: (real, real, real) -> real)
    requires prior > 0.0
    requires 1 <= |row| <= |stats0| + 1 && |row| <= |stats1| + 1
    ensures Score(prior, row, stats1, density) > Score(prior, row, stats0, density)
      <==> Product(DensityFactors(row, stats1, density)) > Product(DensityFactors(row, stats0, density))
  {
    var p0 := Product(DensityFactors(row, stats0, density));
    var p1 := Product(DensityFactors(row, stats1, density));
    calc {
      Score(prior, row, stats1, density) - Score(prior, row, stats0, density);
      prior * p1 - prior * p0;
      prior * (p1 - p0);
    }
    if p1 > p0 {
      assert prior * (p1 - p0) > 0.0;
    } else {
      assert prior * (p0 - p1) >= 0.0;
    }
  }

  /** Index of the first largest value: a later value replaces the current
      choice only when it is strictly greater. An empty input yields 0. */
  method Argmax(vals: seq<real>) returns (idx: int)
    ensures 0 <= idx && (|vals| == 0 ==> idx == 0) && (|vals| > 0 ==> idx < |vals|)
    ensures forall j :: 0 <= j < |vals| ==> vals[j] <= vals[idx]
    ensures forall j :: 0 <= j < idx ==> vals[j] < vals[idx]
  {
    idx := 0;
    for i := 0 to |vals|
      invariant 0 <= idx && (|vals| == 0 ==> idx == 0) && (|vals| > 0 ==> idx < |vals|)
      invariant idx <= i || idx == 0
      invariant forall j :: 0 <= j < i ==> vals[j] <= vals[idx]
      invariant forall j :: 0 <= j < idx ==> vals[j] < vals[idx]
    {
      if vals[i] > vals[idx] {
        idx := i;
      }
    }
  }
}

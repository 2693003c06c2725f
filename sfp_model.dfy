/**
 * The fault-prediction model object: the training table, its feature count,
 * the two class partitions it derives, the class priors, and the
 * classification of one module under test.
 */
module Model {
  import opened Categories
  import opened Statistics
  import opened Partition
  import opened Scoring

  class SFPModel {
    /** Training rows: `noOfFeatures` feature values, then the label. */
    var dataset: seq<seq<real>>
    var noOfFeatures: nat
    /** The two class partitions, filled by SeparateDataset. */
    var nonFaultyData: seq<seq<real>>
    var faultyData: seq<seq<real>>

    /** Every training row has `noOfFeatures + 1` columns. */
    ghost predicate Valid()
      reads this
    {
      WellFormed(dataset, noOfFeatures)
    }

    /** The partitions are those of the current training table. */
    ghost predicate Separated()
      reads this
      requires Valid()
    {
      && nonFaultyData == NonFaultyPart(dataset, noOfFeatures)
      && faultyData == FaultyPart(dataset, noOfFeatures)
    }

    /** A model holding a loaded training table, not yet partitioned. */
    constructor (dataset: seq<seq<real>>, noOfFeatures: nat)
      requires WellFormed(dataset, noOfFeatures)
      ensures Valid()
      ensures this.dataset == dataset && this.noOfFeatures == noOfFeatures
      ensures nonFaultyData == [] && faultyData == []
    {
      this.dataset := dataset;
      this.noOfFeatures := noOfFeatures;
      nonFaultyData := [];
      faultyData := [];
    }

    /** Collects the indices of the non-faulty and the faulty rows in one
        pass, then copies the rows at those indices into the two partitions. */
    method SeparateDataset()
      requires Valid()
      modifies this`nonFaultyData, this`faultyData
      ensures Valid() && Separated()
    {
      var faultyDataIdx: seq<int> := [];
      var nonFaultyDataIdx: seq<int> := [];
      for i := 0 to |dataset|
        invariant nonFaultyDataIdx == ClassIndices(dataset[..i], noOfFeatures, true)
        invariant faultyDataIdx == ClassIndices(dataset[..i], noOfFeatures, false)
      {
        assert dataset[..i + 1][..i] == dataset[..i];
        if dataset[i][noOfFeatures] == CategoryNonFaulty as real {
          nonFaultyDataIdx := nonFaultyDataIdx + [i];
        } else {
          faultyDataIdx := faultyDataIdx + [i];
        }
      }
      assert dataset[..|dataset|] == dataset;

      var nonFaultyRows := CopyRows(dataset, nonFaultyDataIdx);
      var faultyRows := CopyRows(dataset, faultyDataIdx);
      nonFaultyData, faultyData := nonFaultyRows, faultyRows;
    }

    /** The prior of a category: the size of its partition over the size of
        the training table. Only the non-faulty marker selects the non-faulty
        partition; any other integer selects the faulty one. */
    function GetCategorySpecificSetSize(category: int): (p: real)
      reads this
      requires Valid() && Separated() && |dataset| > 0
      ensures 0.0 <= p <= 1.0
    {
      PartitionSizes(dataset, noOfFeatures);
      FractionInUnit(|nonFaultyData|, |dataset|);
      FractionInUnit(|faultyData|, |dataset|);
      if category == CategoryNonFaulty then |nonFaultyData| as real / |dataset| as real
      else |faultyData| as real / |dataset| as real
    }

    /** Mean and standard deviation of every feature over the non-faulty rows. */
    method ProcessNonFaultyData(sqrt: real -> real) returns (data: seq<FeatureStats>)
      requires Valid() && Separated() && |nonFaultyData| >= 2
      ensures |data| == noOfFeatures
      ensures forall f :: 0 <= f < noOfFeatures ==>
        data[f].mean == Mean(Column(nonFaultyData, f))
        && data[f].stdDev == sqrt(SampleVariance(Column(nonFaultyData, f), data[f].mean))
      ensures data == StatsTable(nonFaultyData, noOfFeatures, sqrt)
    {
      data := FeatureStatsTable(nonFaultyData, noOfFeatures, sqrt);
    }

    /** Mean and standard deviation of every feature over the faulty rows. */
    method ProcessFaultyData(sqrt: real -> real) returns (data: seq<FeatureStats>)
      requires Valid() && Separated() && |faultyData| >= 2
      ensures |data| == noOfFeatures
      ensures forall f :: 0 <= f < noOfFeatures ==>
        data[f].mean == Mean(Column(faultyData, f))
        && data[f].stdDev == sqrt(SampleVariance(Column(faultyData, f), data[f].mean))
      ensures data == StatsTable(faultyData, noOfFeatures, sqrt)
    {
      data := FeatureStatsTable(faultyData, noOfFeatures, sqrt);
    }

    /** Scores the module under test against both classes and picks the class
        with the larger score, the non-faulty one on a tie. The faulty score
        starts from GetCategorySpecificSetSize(CategoryFaulty), which is the
        non-faulty prior because the two markers are equal. */
    method NaiveBayesClassifier(moduleUnderTest: seq<real>, sqrt: real -> real, density: (real, real, real) -> real)
      returns (nonFaultTmp: real, faultTmp: real, predictedCategory: int, knownCategory: string, predictedString: string)
      requires Valid() && Separated() && |nonFaultyData| >= 2 && |faultyData| >= 2
      requires 1 <= |moduleUnderTest| <= noOfFeatures + 1
      ensures |dataset| > 0
      ensures nonFaultTmp == Score(GetCategorySpecificSetSize(CategoryNonFaulty), moduleUnderTest,
        StatsTable(nonFaultyData, noOfFeatures, sqrt), density)
      ensures faultTmp == Score(GetCategorySpecificSetSize(CategoryFaulty), moduleUnderTest,
        StatsTable(faultyData, noOfFeatures, sqrt), density)
      ensures predictedCategory == if faultTmp > nonFaultTmp then 1 else 0
      ensures predictedString == GetPredictedCategoryString(predictedCategory)
      ensures knownCategory == GetPredictedCategoryString(IntCast(moduleUnderTest[|moduleUnderTest| - 1]))
    {
      PartitionSizes(dataset, noOfFeatures);
      var nonFaultyFeatureData := ProcessNonFaultyData(sqrt);
      var faultyFeatureData := ProcessFaultyData(sqrt);

      var nonFaultPrior := GetCategorySpecificSetSize(CategoryNonFaulty);
      nonFaultTmp := AccumulateScore(nonFaultPrior, moduleUnderTest, nonFaultyFeatureData, density);

      var faultPrior := GetCategorySpecificSetSize(CategoryFaulty);
      faultTmp := AccumulateScore(faultPrior, moduleUnderTest, faultyFeatureData, density);

      var scores := [nonFaultTmp, faultTmp];
      predictedCategory := Argmax(scores);
      assert scores[0] == nonFaultTmp && scores[1] == faultTmp;
      knownCategory := GetPredictedCategoryString(IntCast(moduleUnderTest[|moduleUnderTest| - 1]));
      predictedString := GetPredictedCategoryString(predictedCategory);
    }
  }

  /** A count no larger than a positive total is a fraction in [0, 1]. */
  lemma FractionInUnit(a: nat, n: nat)
    requires n > 0
    ensures a <= n ==> 0.0 <= a as real / n as real <= 1.0
  {
  }

  /** Two counts that make up a positive total are fractions adding to one. */
  lemma FractionsOfWhole(a: nat, b: nat, n: nat)
    requires n > 0 && a + b == n
    ensures a as real / n as real + b as real / n as real == 1.0
  {
    var x, y, m := a as real / n as real, b as real / n as real, n as real;
    assert x * m == a as real;
    assert y * m == b as real;
    calc {
      (x + y) * m;
      x * m + y * m;
      a as real + b as real;
      m;
    }
    assert (x + y - 1.0) * m == 0.0;
  }

  /** For a non-empty, partitioned table the non-faulty fraction and the
      fraction of any other category marker add up to one. */
  lemma PriorsSumToOne(m: SFPModel)
    requires m.Valid() && m.Separated() && |m.dataset| > 0
    ensures forall c :: c != CategoryNonFaulty ==>
      m.GetCategorySpecificSetSize(CategoryNonFaulty) + m.GetCategorySpecificSetSize(c) == 1.0
  {
    PartitionSizes(m.dataset, m.noOfFeatures);
    FractionsOfWhole(|m.nonFaultyData|, |m.faultyData|, |m.dataset|);
    var a, b, n := |m.nonFaultyData| as real, |m.faultyData| as real, |m.dataset| as real;
    forall c | c != CategoryNonFaulty
      ensures m.GetCategorySpecificSetSize(CategoryNonFaulty) + m.GetCategorySpecificSetSize(c) == 1.0
    {
      assert m.GetCategorySpecificSetSize(CategoryNonFaulty) == a / n;
      assert m.GetCategorySpecificSetSize(c) == b / n;
    }
  }

  /** The prior the classifier uses for the faulty class is the non-faulty
      fraction, and it equals the actual faulty fraction only when the two
      classes have the same size. */
  lemma FaultyScoreUsesNonFaultyPrior(m: SFPModel)
    requires m.Valid() && m.Separated() && |m.dataset| > 0
    ensures m.GetCategorySpecificSetSize(CategoryFaulty) == m.GetCategorySpecificSetSize(CategoryNonFaulty)
    ensures m.GetCategorySpecificSetSize(CategoryFaulty) == |m.faultyData| as real / |m.dataset| as real
      <==> 2 * |m.nonFaultyData| == |m.dataset|
  {
    PartitionSizes(m.dataset, m.noOfFeatures);
    var a, b, n := |m.nonFaultyData| as real, |m.faultyData| as real, |m.dataset| as real;
    if a / n == b / n {
      assert a == (a / n) * n;
      assert b == (b / n) * n;
    }
  }
}

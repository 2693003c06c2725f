/**
 * The class partition of the training table: the rows whose label column
 * equals the non-faulty marker, and all other rows, each kept in table order.
 * A partition is described by the row indices it selects.
 */
module Partition {
  import opened Categories
  import opened Statistics

  /** The label of a row (column `noOfFeatures`) equals the non-faulty marker. */
  predicate IsNonFaultyRow(row: seq<real>, noOfFeatures: nat)
    requires noOfFeatures < |row|
  {
    row[noOfFeatures] == CategoryNonFaulty as real
  }

  /** The indices of the rows on one side of the partition, in table order:
      the non-faulty side when `nonFaulty` holds, the faulty side otherwise. */
  function ClassIndices(dataset: seq<seq<real>>, noOfFeatures: nat, nonFaulty: bool): (idx: seq<int>)
    requires WellFormed(dataset, noOfFeatures)
    ensures forall k :: 0 <= k < |idx| ==> 0 <= idx[k] < |dataset|
    ensures forall k, l :: 0 <= k < l < |idx| ==> idx[k] < idx[l]
  {
    if dataset == [] then []
    else
      var n := |dataset| - 1;
      ClassIndices(dataset[..n], noOfFeatures, nonFaulty)
        + (if IsNonFaultyRow(dataset[n], noOfFeatures) == nonFaulty then [n] else [])
  }

  /** The rows at the given indices, in the order of the indices. */
  function Select(dataset: seq<seq<real>>, idx: seq<int>): seq<seq<real>>
    requires forall k :: 0 <= k < |idx| ==> 0 <= idx[k] < |dataset|
  {
    seq(|idx|, k requires 0 <= k < |idx| => dataset[idx[k]])
  }

  /** Copies the rows at the given indices, in index order, into a fresh
      array of rows. */
  method CopyRows(dataset: seq<seq<real>>, idx: seq<int>) returns (rows: seq<seq<real>>)
    requires forall k :: 0 <= k < |idx| ==> 0 <= idx[k] < |dataset|
    ensures |rows| == |idx|
    ensures forall k :: 0 <= k < |idx| ==> rows[k] == dataset[idx[k]]
    ensures rows == Select(dataset, idx)
  {
    var a := new seq<real>[|idx|];
    for i := 0 to |idx|
      invariant forall k :: 0 <= k < i ==> a[k] == dataset[idx[k]]
    {
      a[i] := dataset[idx[i]];
    }
    rows := a[..];
  }

  function NonFaultyPart(dataset: seq<seq<real>>, noOfFeatures: nat): (part: seq<seq<real>>)
    requires WellFormed(dataset, noOfFeatures)
    ensures WellFormed(part, noOfFeatures)
  {
    Select(dataset, ClassIndices(dataset, noOfFeatures, true))
  }

  function FaultyPart(dataset: seq<seq<real>>, noOfFeatures: nat): (part: seq<seq<real>>)
    requires WellFormed(dataset, noOfFeatures)
    ensures WellFormed(part, noOfFeatures)
  {
    Select(dataset, ClassIndices(dataset, noOfFeatures, false))
  }

  /** A row index is on the non-faulty side exactly when its label is the
      non-faulty marker, and on the faulty side exactly when it is not: the
      two sides are disjoint and cover every row. */
  lemma {:induction false} ClassIndicesMembership(dataset: seq<seq<real>>, noOfFeatures: nat, nonFaulty: bool, i: int)
    requires WellFormed(dataset, noOfFeatures)
    requires 0 <= i < |dataset|
    ensures i in ClassIndices(dataset, noOfFeatures, nonFaulty)
      <==> IsNonFaultyRow(dataset[i], noOfFeatures) == nonFaulty
  {
    var n := |dataset| - 1;
    var init := dataset[..n];
    if i < n {
      ClassIndicesMembership(init, noOfFeatures, nonFaulty, i);
      assert init[i] == dataset[i];
    } else {
      assert n !in ClassIndices(init, noOfFeatures, nonFaulty);
    }
  }

  /** Every row lands on exactly one side, so the sizes add up. */
  lemma {:induction false} PartitionSizes(dataset: seq<seq<real>>, noOfFeatures: nat)
    requires WellFormed(dataset, noOfFeatures)
    ensures |NonFaultyPart(dataset, noOfFeatures)| + |FaultyPart(dataset, noOfFeatures)| == |dataset|
  {
    if dataset != [] {
      PartitionSizes(dataset[..|dataset| - 1], noOfFeatures);
    }
  }

  /** Every row of the non-faulty side has the non-faulty label and every row
      of the faulty side has another label. */
  lemma PartitionLabels(dataset: seq<seq<real>>, noOfFeatures: nat)
    requires WellFormed(dataset, noOfFeatures)
    ensures forall k :: 0 <= k < |NonFaultyPart(dataset, noOfFeatures)| ==>
      IsNonFaultyRow(NonFaultyPart(dataset, noOfFeatures)[k], noOfFeatures)
    ensures forall k :: 0 <= k < |FaultyPart(dataset, noOfFeatures)| ==>
      !IsNonFaultyRow(FaultyPart(dataset, noOfFeatures)[k], noOfFeatures)
  {
    forall b: bool, k | 0 <= k < |ClassIndices(dataset, noOfFeatures, b)|
      ensures IsNonFaultyRow(dataset[ClassIndices(dataset, noOfFeatures, b)[k]], noOfFeatures) == b
    {
      ClassIndicesMembership(dataset, noOfFeatures, b, ClassIndices(dataset, noOfFeatures, b)[k]);
    }
  }

  /** Appending one more row to the table appends it to exactly one side. */
  lemma PartsOfSnoc(init: seq<seq<real>>, row: seq<real>, noOfFeatures: nat)
    requires WellFormed(init, noOfFeatures) && |row| == noOfFeatures + 1
    ensures WellFormed(init + [row], noOfFeatures)
    ensures IsNonFaultyRow(row, noOfFeatures) ==>
      && NonFaultyPart(init + [row], noOfFeatures) == NonFaultyPart(init, noOfFeatures) + [row]
      && FaultyPart(init + [row], noOfFeatures) == FaultyPart(init, noOfFeatures)
    ensures !IsNonFaultyRow(row, noOfFeatures) ==>
      && NonFaultyPart(init + [row], noOfFeatures) == NonFaultyPart(init, noOfFeatures)
      && FaultyPart(init + [row], noOfFeatures) == FaultyPart(init, noOfFeatures) + [row]
  {
    var dataset := init + [row];
    assert dataset[..|init|] == init;
    forall b: bool
      ensures Select(dataset, ClassIndices(dataset, noOfFeatures, b))
        == Select(init, ClassIndices(init, noOfFeatures, b)) + (if IsNonFaultyRow(row, noOfFeatures) == b then [row] else [])
    {
      var idx := ClassIndices(init, noOfFeatures, b);
      assert forall k :: 0 <= k < |idx| ==> init[idx[k]] == dataset[idx[k]];
    }
  }

  /** Nothing is dropped or duplicated: the two sides together hold exactly
      the rows of the table. */
  lemma {:induction false} PartitionIsPermutation(dataset: seq<seq<real>>, noOfFeatures: nat)
    requires WellFormed(dataset, noOfFeatures)
    ensures multiset(NonFaultyPart(dataset, noOfFeatures)) + multiset(FaultyPart(dataset, noOfFeatures))
      == multiset(dataset)
  {
    if dataset != [] {
      var n := |dataset| - 1;
      PartitionIsPermutation(dataset[..n], noOfFeatures);
      PartsOfSnoc(dataset[..n], dataset[n], noOfFeatures);
      assert dataset == dataset[..n] + [dataset[n]];
    }
  }

  lemma ColumnOfSnoc(data: seq<seq<real>>, row: seq<real>, feature: nat)
    requires HasColumn(data, feature) && feature < |row|
    ensures HasColumn(data + [row], feature)
    ensures Column(data + [row], feature) == Column(data, feature) + [row[feature]]
  {
  }

  lemma SumOfSnoc(s: seq<real>, x: real)
    ensures Sum(s + [x]) == Sum(s) + x
  {
    assert (s + [x])[..|s|] == s;
  }

  /** The column sums of the two sides add up to the column sum of the table. */
  lemma {:induction false} PartitionColumnSum(dataset: seq<seq<real>>, noOfFeatures: nat, feature: nat)
    requires WellFormed(dataset, noOfFeatures) && feature <= noOfFeatures
    ensures Sum(Column(NonFaultyPart(dataset, noOfFeatures), feature))
      + Sum(Column(FaultyPart(dataset, noOfFeatures), feature))
      == Sum(Column(dataset, feature))
  {
    if dataset != [] {
      var n := |dataset| - 1;
      var init := dataset[..n];
      var row := dataset[n];
      PartitionColumnSum(init, noOfFeatures, feature);
      assert dataset == init + [row];
      PartsOfSnoc(init, row, noOfFeatures);
      ColumnOfSnoc(init, row, feature);
      SumOfSnoc(Column(init, feature), row[feature]);
      var nf := NonFaultyPart(init, noOfFeatures);
      var fa := FaultyPart(init, noOfFeatures);
      if IsNonFaultyRow(row, noOfFeatures) {
        ColumnOfSnoc(nf, row, feature);
        SumOfSnoc(Column(nf, feature), row[feature]);
      } else {
        ColumnOfSnoc(fa, row, feature);
        SumOfSnoc(Column(fa, feature), row[feature]);
      }
    }
  }

  lemma CancelFraction(a: real, n: real, s: real)
    requires a > 0.0 && n > 0.0
    ensures (a / n) * (s / a) == s / n
  {
    calc {
      (a / n) * (s / a);
      (a * s) / (n * a);
      s / n;
    }
  }

  lemma WeightedMeans(a: real, b: real, sa: real, sb: real)
    requires a > 0.0 && b > 0.0
    ensures (a / (a + b)) * (sa / a) + (b / (a + b)) * (sb / b) == (sa + sb) / (a + b)
  {
    CancelFraction(a, a + b, sa);
    CancelFraction(b, a + b, sb);
  }

  /** The mean of a column over the whole table is the average of the two
      class means weighted by the class fractions. */
  lemma MeanIsWeightedByClassFractions(dataset: seq<seq<real>>, noOfFeatures: nat, feature: nat)
    requires WellFormed(dataset, noOfFeatures) && feature <= noOfFeatures
    requires |NonFaultyPart(dataset, noOfFeatures)| > 0 && |FaultyPart(dataset, noOfFeatures)| > 0
    ensures var nf := NonFaultyPart(dataset, noOfFeatures);
      var fa := FaultyPart(dataset, noOfFeatures);
      && |dataset| > 0
      && Mean(Column(dataset, feature))
        == (|nf| as real / |dataset| as real) * Mean(Column(nf, feature))
         + (|fa| as real / |dataset| as real) * Mean(Column(fa, feature))
  {
    var nf := NonFaultyPart(dataset, noOfFeatures);
    var fa := FaultyPart(dataset, noOfFeatures);
    PartitionSizes(dataset, noOfFeatures);
    PartitionColumnSum(dataset, noOfFeatures, feature);
    WeightedMeans(|nf| as real, |fa| as real, Sum(Column(nf, feature)), Sum(Column(fa, feature)));
  }

  /** Four training rows with two features; the first two are non-faulty. */
  function ExampleTable(): (t: seq<seq<real>>)
    ensures WellFormed(t, 2)
  {
    [[1.0, 0.0, 0.0], [2.0, 0.0, 0.0], [8.0, 0.0, 1.0], [9.0, 0.0, 1.0]]
  }

  /** The first `k` rows of a table are non-faulty and the others faulty. */
  predicate LabelsSplitAt(dataset: seq<seq<real>>, noOfFeatures: nat, k: nat)
    requires WellFormed(dataset, noOfFeatures) && k <= |dataset|
  {
    && (forall i :: 0 <= i < k ==> IsNonFaultyRow(dataset[i], noOfFeatures))
    && (forall i :: k <= i < |dataset| ==> !IsNonFaultyRow(dataset[i], noOfFeatures))
  }

  /** The indices `lo`, `lo + 1`, ..., `hi - 1`. */
  function Range(lo: int, hi: int): (r: seq<int>)
    requires lo <= hi
  {
    seq(hi - lo, i requires 0 <= i < hi - lo => lo + i)
  }

  lemma {:induction false} ClassIndicesAtLabelBoundary(dataset: seq<seq<real>>, noOfFeatures: nat, k: nat)
    requires WellFormed(dataset, noOfFeatures) && k <= |dataset|
    requires LabelsSplitAt(dataset, noOfFeatures, k)
    ensures ClassIndices(dataset, noOfFeatures, true) == Range(0, k)
    ensures ClassIndices(dataset, noOfFeatures, false) == Range(k, |dataset|)
  {
    if dataset != [] {
      var n := |dataset| - 1;
      var init := dataset[..n];
      if k == |dataset| {
        assert LabelsSplitAt(init, noOfFeatures, n) by {
          forall i | 0 <= i < n ensures IsNonFaultyRow(init[i], noOfFeatures) {
            assert init[i] == dataset[i];
          }
        }
        ClassIndicesAtLabelBoundary(init, noOfFeatures, n);
        assert Range(0, n) + [n] == Range(0, k);
      } else {
        assert LabelsSplitAt(init, noOfFeatures, k) by {
          forall i | 0 <= i < n ensures init[i] == dataset[i] { }
        }
        ClassIndicesAtLabelBoundary(init, noOfFeatures, k);
        assert Range(k, n) + [n] == Range(k, |dataset|);
      }
    }
  }

  /** A table whose first `k` rows are non-faulty and whose other rows are
      faulty splits into its first `k` rows and the rest. */
  lemma SplitAtLabelBoundary(dataset: seq<seq<real>>, noOfFeatures: nat, k: nat)
    requires WellFormed(dataset, noOfFeatures) && k <= |dataset|
    requires LabelsSplitAt(dataset, noOfFeatures, k)
    ensures NonFaultyPart(dataset, noOfFeatures) == dataset[..k]
    ensures FaultyPart(dataset, noOfFeatures) == dataset[k..]
  {
    ClassIndicesAtLabelBoundary(dataset, noOfFeatures, k);
  }

  /** The example table splits into its first two and its last two rows. */
  lemma ExamplePartition()
    ensures NonFaultyPart(ExampleTable(), 2) == ExampleTable()[..2]
    ensures FaultyPart(ExampleTable(), 2) == ExampleTable()[2..]
  {
    SplitAtLabelBoundary(ExampleTable(), 2, 2);
  }

  /** In the example, the first feature has mean 1.5 and variance 0.5 over the
      non-faulty rows and mean 8.5 over the faulty rows; the second feature is
      constant within the non-faulty rows, so its variance there is 0. */
  lemma ExampleStatistics()
    ensures Mean(Column(ExampleTable()[..2], 0)) == 1.5
    ensures SampleVariance(Column(ExampleTable()[..2], 0), 1.5) == 0.5
    ensures Mean(Column(ExampleTable()[2..], 0)) == 8.5
    ensures SampleVariance(Column(ExampleTable()[..2], 1), Mean(Column(ExampleTable()[..2], 1))) == 0.0
  {
    var nf := ExampleTable()[..2];
    var c0 := Column(nf, 0);
    assert c0 == [1.0, 2.0];
    assert c0[..1] == [1.0] && [1.0][..0] == [];
    assert Sum(c0) == 3.0;
    assert Square(1.0 - 1.5) == 0.25 && Square(2.0 - 1.5) == 0.25;
    assert SumOfSquares(c0, 1.5) == 0.5;
    var c1 := Column(ExampleTable()[2..], 0);
    assert c1 == [8.0, 9.0];
    assert c1[..1] == [8.0] && [8.0][..0] == [];
    assert Sum(c1) == 17.0;
    ConstantColumnHasZeroVariance(Column(nf, 1), 0.0);
  }
}

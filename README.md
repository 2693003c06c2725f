# Software fault prediction: Gaussian Naive Bayes bookkeeping

This project models the core of `SFPModel`, a two-class Gaussian Naive Bayes
classifier that labels software modules "Non-Faulty" or "Faulty". It learns
from a training table. Each row holds `noOfFeatures` numeric feature values,
followed by a class label in the last column.

The model covers:

- **Class partition** (`separateDataset`). One pass collects the indices of
  the rows whose label equals the non-faulty marker 0, and the indices of all
  other rows. The rows at those indices are then copied into the fields
  `nonFaultyData` and `faultyData`.
- **Per-feature statistics**. The column of a feature is copied out
  (`getValuesForMean`). The mean is the column sum over the row count
  (`arithmeticMean`). The standard deviation is the square root of the sum of
  squared deviations over n - 1 (`standardDeviation`). For each class,
  `processNonFaultyData` and `processFaultyData` build a table with one
  (mean, standard deviation) row per feature.
- **Priors** (`getCategorySpecificSetSize`). A prior is the size of a
  partition over the size of the training table.
- **Scoring and decision** (`naiveBayesClassifier`). Each class score starts
  at `getCategorySpecificSetSize` of its category marker. It is then multiplied by one Gaussian density factor per
  feature column of the module under test. `argmax` keeps the first maximum,
  so a tie goes to the non-faulty class. The chosen index and the stored
  label are turned into text (`getPredictedCategoryString`).

Numbers are exact `real`s. Rows are `seq<real>` values and tables are
`seq<seq<real>>`. The model object is the class `Model.SFPModel`. Its fields
are the training table, the feature count and the two partitions.
`SeparateDataset` assigns the two partitions and nothing else. The loops that
fill fresh arrays (column copy, statistics table, partition copy) fill Dafny
`array`s. Two calls go into code this model does not see: `Math.sqrt`, and the
Gaussian density of `calcGaussDistribution`. Both are function-valued
parameters (`sqrt`, `density`), so every property holds for any choice of
them.

Two quirks of the source are kept as written:

- `CATEGORY_FAULTY` is 0, the same value as `CATEGORY_NON_FAULTY`
  (model/SFPModel.java:24-25). So the faulty score starts from
  `getCategorySpecificSetSize(CATEGORY_FAULTY)`, which is the non-faulty
  fraction. `Model.FaultyScoreUsesNonFaultyPrior` states this.
  `Scoring.SharedPriorDecision` shows the consequence: the decision compares
  only the two density products.
- The known label is shown after a Java `(int)` cast, which truncates toward
  zero. Any stored label strictly between -1 and 1 therefore reads
  "Non-Faulty" (`Categories.KnownCategoryOfLabel`).

Behaviour kept as the code has it:

- Every label other than 0 goes to the faulty side. Labels outside {0, 1}
  are not rejected.
- The faulty score uses the non-faulty fraction as its prior.

Files: `categories.dfy` (markers, label text, the int cast),
`statistics.dfy` (column, sum, mean, sum of squares, variance, the statistics
methods), `partition.dfy` (the partition and its properties), `scoring.dfy`
(score loop, argmax), `sfp_model.dfy` (the `SFPModel` class).

## Model

| member | source | states |
|---|---|---|
| Categories.GetPredictedCategoryString | model/SFPModel.java:209-214 | the text is "Non-Faulty" exactly when the category equals the non-faulty marker, and "Faulty" for every other integer |
| Categories.IntCast | model/SFPModel.java:122 | the `(int)` cast truncates toward zero: the result has the sign of the input, is no larger in magnitude, and is less than 1 away from it |
| Categories.KnownCategoryOfLabel | model/SFPModel.java:122 | a stored label reads "Non-Faulty" if and only if it lies strictly between -1 and 1 |
| Statistics.GetValuesForMean | model/SFPModel.java:216-223 | the result has one entry per row, and entry i is row i's value in the requested column |
| Statistics.ArithmeticMean | model/SFPModel.java:225-235 | for a non-empty table, the result is the column sum divided by the row count |
| Statistics.StandardDeviation | model/SFPModel.java:187-200 | the loop accumulates the sum of squared deviations from the given mean; the result is sqrt of that sum over n - 1 (defined for every row count except 1) |
| Statistics.FeatureStatsTable | model/SFPModel.java:130-152 | the table has `noOfFeatures` rows, and row f is the mean of column f paired with sqrt of its sample variance about that mean |
| Statistics.MeanOfConstant | model/SFPModel.java:225-235 | a column whose values all equal c has mean c |
| Statistics.MeanBetweenBounds | model/SFPModel.java:225-235 | the mean lies between any lower and upper bound of the column's values |
| Statistics.SumOfSquaresNonNegative | model/SFPModel.java:192-195 | the accumulated sum of squared deviations is never negative |
| Statistics.SumOfSquaresZeroIff | model/SFPModel.java:192-195 | the sum of squared deviations is 0 if and only if every value equals the mean it is taken about |
| Statistics.SampleVarianceNonNegative | model/SFPModel.java:197 | with two or more rows, the value passed to sqrt (sum over n - 1) is never negative |
| Statistics.ConstantColumnHasZeroVariance | model/SFPModel.java:187-199 | a constant column of two or more rows has mean equal to the constant and sample variance 0, so its standard deviation is sqrt(0) |
| Partition.ClassIndices | model/SFPModel.java:159-165 | the collected indices are in range and strictly increasing, so the table order is kept |
| Partition.NonFaultyPart | model/SFPModel.java:170-173 | the non-faulty partition keeps the row shape of the table |
| Partition.FaultyPart | model/SFPModel.java:175-178 | the faulty partition keeps the row shape of the table |
| Partition.ClassIndicesMembership | model/SFPModel.java:159-165 | a row index is collected for the non-faulty side if and only if its label equals 0, and for the faulty side if and only if it does not; so the sides are disjoint and cover every row |
| Partition.PartitionSizes | model/SFPModel.java:159-178 | the two partition sizes add up to the table size |
| Partition.PartitionLabels | model/SFPModel.java:159-178 | every non-faulty row has label 0 and every faulty row has another label |
| Partition.PartsOfSnoc | model/SFPModel.java:159-178 | appending a row to the table appends it to exactly the side its label selects and leaves the other side unchanged |
| Partition.PartitionIsPermutation | model/SFPModel.java:154-179 | together the two partitions hold exactly the rows of the table, as a multiset: nothing dropped or duplicated |
| Partition.PartitionColumnSum | model/SFPModel.java:154-179 | for every column, the sums over the two partitions add up to the sum over the table |
| Partition.MeanIsWeightedByClassFractions | model/SFPModel.java:130-152 | when both classes are non-empty, the mean of a column over the table is the class fractions times the class means, added |
| Partition.CopyRows | model/SFPModel.java:170-178 | the copy loop yields one row per collected index, row k being the table row at index k of the list, in list order |
| Partition.ClassIndicesAtLabelBoundary | model/SFPModel.java:159-165 | when the first k rows are non-faulty and the rest faulty, the collected indices are 0..k-1 and k..n-1 |
| Partition.SplitAtLabelBoundary | model/SFPModel.java:159-178 | a table whose first k rows are non-faulty and whose other rows are faulty splits into its first k rows and the rest |
| Partition.ExamplePartition | model/SFPModel.java:159-178 | the four-row example table (labels 0, 0, 1, 1) splits into its first two and last two rows |
| Partition.ExampleStatistics | model/SFPModel.java:187-235 | in the example, feature 0 has mean 1.5 and variance 0.5 over the non-faulty rows and mean 8.5 over the faulty rows; feature 1, constant within the non-faulty class, has variance 0 there |
| Scoring.AccumulateScore | model/SFPModel.java:96-118 | the loop yields the prior times the product of density(row[f], mean_f, stdDev_f) over every feature column f < len - 1 |
| Scoring.ScoreIgnoresLabel | model/SFPModel.java:97-101 | two rows that agree on their feature columns get the same score whatever their labels: the label column is never read |
| Scoring.SharedPriorDecision | model/SFPModel.java:109-121 | when both scores start from the same positive prior, the faulty score is larger if and only if its density product is larger |
| Scoring.Argmax | model/SFPModel.java:237-244 | on a non-empty input, the result is an index whose value is at least every value, and every earlier value is strictly smaller (first maximum, ties to the lower index); an empty input gives 0 |
| Model.SFPModel.constructor | model/SFPModel.java:250-267 | a model holds a loaded training table, with every row `noOfFeatures + 1` wide, and empty partitions |
| Model.SFPModel.SeparateDataset | model/SFPModel.java:154-179 | after the call, `nonFaultyData` and `faultyData` are the non-faulty and faulty partitions of the training table; only those two fields change |
| Model.SFPModel.GetCategorySpecificSetSize | model/SFPModel.java:202-207 | on a partitioned, non-empty table, a prior lies in [0, 1] |
| Model.SFPModel.ProcessNonFaultyData | model/SFPModel.java:130-140 | one (mean, standard deviation) row per feature over the non-faulty partition |
| Model.SFPModel.ProcessFaultyData | model/SFPModel.java:142-152 | one (mean, standard deviation) row per feature over the faulty partition |
| Model.SFPModel.NaiveBayesClassifier | model/SFPModel.java:90-128 | the two scores are the priors at lines 96 and 109 times the density products under each class's statistics table; the prediction is 1 exactly when the faulty score is strictly larger; the predicted and known labels are the category texts of the prediction and of the truncated stored label |
| Model.PriorsSumToOne | model/SFPModel.java:202-207 | for a non-empty partitioned table, the prior for 0 plus the prior for any other category marker is 1 |
| Model.FaultyScoreUsesNonFaultyPrior | model/SFPModel.java:96-109 | the prior used for the faulty score equals the non-faulty prior, and it equals the actual faulty fraction if and only if the classes are the same size |

## Left out

- `loadDataset`, `loadUnknownModules` and `processLinesAndFeaturesOfFile` (model/SFPModel.java:250-348) are file I/O, CSV splitting and number parsing. The `SFPModel` constructor takes the loaded table and its feature count instead.
- `main`, `start`, `makePredictions` and every `System.out.println` are console plumbing and are not modelled. `NaiveBayesClassifier` returns the values the source prints.
- `calcGaussDistribution` (model/SFPModel.java:181-185) uses `Math.sqrt`, `Math.exp` and `Math.PI` on doubles. It becomes the `density` parameter. The `Math.sqrt` in `standardDeviation` becomes the `sqrt` parameter.
- IEEE double rounding, NaN and infinity are not modelled. The divisions that would produce them are excluded by preconditions:
  - `ArithmeticMean` needs a non-empty table.
  - `StandardDeviation` needs a row count other than 1. The source does not check for a single-row partition before dividing by n - 1; the model rules that case out instead of modelling the division by zero.
  - `ProcessNonFaultyData`, `ProcessFaultyData` and `NaiveBayesClassifier` need at least two rows in each partition.
  - `GetCategorySpecificSetSize` needs a non-empty training table, and partitions that `SeparateDataset` has filled. In the source the partition fields are null until then, so an earlier call throws; the constructor's empty partitions stand for that unset state.
- The partitions share row arrays with `dataset` in the source. Rows are never changed afterwards, so value rows are used and aliasing is not modelled.
- IntCast: does not model the cast's saturation at the 32-bit integer range. A huge label still reads "Faulty" either way.
- `getDataset` (model/SFPModel.java:350) is a plain field accessor.
